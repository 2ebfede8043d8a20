# The Gateway delivery engine, verified

A Dafny model of the Gateway's delivery engine, a durable message protocol over SQLite rows and
Redis Streams, and of the algorithms around it. Each store method is one transaction, each Lua
script one atomic step, and each call of Telegram, Jenkins or a backend a step with a freely chosen
outcome. A crash makes a process forget its program counter and locals; both stores keep their
state. Each protocol is a machine over such steps with its invariants proved for every run, and
beside it stand classes with the source's own fields and loops whose methods are proved to perform
exactly those steps.

Check everything with `dafny verify dfyconfig.toml`.

## Parts

- **Outbound delivery**: `RedisQueue`, `OutboundLane` (one delivery under all its processes),
  `OutboundProofs`, `OutboundDelivery`, `OutboundAnswers`, and the classes `OutboundStore.Store`,
  `OutboundService.Service`.
- **Embedded adapter**: `AdapterSteps` (one poll), `AdapterFence` (many workers, leases, crashes),
  `AdapterProofs`, `AdapterReplies`, `AdapterRestart`, `AdapterResults`, and the classes in
  `AdapterWorker`.
- **Inbound ingestion**: `InboundLane`, `InboundProofs`, `InboundAnswers`, and the class
  `InboundOffset.Poller`.
- **Configuration**: `Ordering`, `ConfigSnapshot`, `ConfigCanonical`, `ConfigValidation`,
  `ConfigAccounts`, `ConfigStore`, `ConfigRoundTrip`, `ConfigRestore`, `ConfigMeaning`,
  `ConfigExport`, and the class `ConfigTables.ConfigurationStore`.
- **Routes and subscriptions**: `Routes`, `RouteEffects`, `RouteStores`, `Subscriptions`,
  `SubscriptionProofs`, `SubscriptionEffects`, `SubscriptionStores`.
- **Self-contained algorithms**: `RateGates`, `UpdateQueues`, `Arguments`, `Terminal`.

## Where the code does less than it seems to

Five promises do not hold of the code as it stands. Each has a concrete run that shows it, and the
condition under which the promise holds.

- *Attempts stay within MaxAttempts plus replays.* A discarded delivery whose entry is still pending
  is put back to retrying when the worker meets a closed rate-limit gate
  (`LimitPassedWithoutReplay`). Every step keeps the limit except such a revival at the limit, and
  exactly that one breaks it (`PlainBudgetStep`, `RevivalBreaksTheLimit`); counting revivals gives
  the bound that always holds (`AttemptsAreBudgeted`).
- *Accepted work is never lost.* `CompleteGatewayDLQReplay` does not check the generation, so two
  overlapping ReplayDLQ calls can strand an accepted delivery for ever (`OverlapStrands`,
  `StrandedForEver`). With one call at a time nothing is lost (`NothingIsLost`), and
  `KeptExactly` says of every step when an entry is left.
- *No inbound entry is acknowledged while its delivery is pending.* The move to the DLQ stream
  acknowledges without looking at the status again; if an operator's replay has completed since the
  status DLQ was saved, the delivery is pending (`EntryMovedWhilePending`), and only then
  (`AckedWhenSettled`). Another entry remains in that case (`InboundProofs.NothingIsLost`).
- *An adapter's reply bytes never change.* Two processes with different job fingerprints that
  overlap can offer different bytes (`OverlapConflicts`); under one fingerprint they cannot
  (`OffersAreIdentical`). Without any overlap, going back to an earlier fingerprint can do the same
  (`ReturningConflicts`). `RestartConflicts` says exactly when: some run after a restart conflicts
  if and only if a result reply is stored, the row carries the fingerprint now running, and its
  stage, not yet terminal, can still be passed at the earliest claim. An acknowledging stage whose
  reply is not stored yet needs one more claim before its timeout: the first one can only store it.
- *Get never leaves a confirmed update behind.* Purging stops at the first update at or above the
  offset, so it is exact if and only if no older update is queued behind a newer one
  (`PurgeIsExact`), as when IDs ascend.

## Model

| member | source | states |
|---|---|---|
| RedisQueue.EntriesCountHistory | internal/gateway/redis_queue.go:92-204 | After any interleaving of the scripts a delivery has one entry if an append came first plus one per distinct replay generation, the index names its newest entry, and the DLQ stream has at most one entry more than the generations |
| RedisQueue.ApplyKeeps | internal/gateway/redis_queue.go:92-204 | Every script keeps the invariant that ties entries, index, replay index and DLQ index together |
| RedisQueue.Queue.AppendOnce | internal/gateway/redis_queue.go:92-112 | The append script adds an entry only for a delivery without one, returns the indexed entry, and leaves all other deliveries alone |
| RedisQueue.Queue.ReplayFromDlq | internal/gateway/redis_queue.go:192-209 | One new entry per generation; the DLQ index is reopened; asking again returns the same entry |
| RedisQueue.Queue.MoveToDlqAndAck | internal/gateway/redis_queue.go:170-190 | One DLQ entry until the next replay, and the source entry acknowledged in any case |
| OutboundProofs.CoreStep | internal/gateway/outbound.go:382-573 | The inductive invariant over accept, outbox, worker and operator steps, crashes included |
| OutboundProofs.AtMostOneLanding | internal/gateway/outbound.go:382-573 | Over every run at most one Telegram call succeeds, is ambiguous or is interrupted in flight; once one has, the status is processing, succeeded or reconciling |
| OutboundProofs.LandedForEver | internal/store/gateway_outbound.go:324-431 | From then on no further call is made and the status stays in that set |
| OutboundProofs.AttemptsAreBudgeted | internal/store/gateway_outbound.go:324-357 | Attempts never exceed MaxAttempts plus replays plus revivals, and the attempt rows are numbered 1 to the attempt count |
| OutboundProofs.PlainBudgetStep | internal/gateway/outbound.go:474-481 | A step breaks the limit without revivals if and only if it revives a discarded delivery that is at it |
| OutboundProofs.AttemptsWithoutRevival | internal/gateway/outbound.go:542-563 | Runs without revivals keep attempts within MaxAttempts plus replays |
| OutboundProofs.RevivalBreaksTheLimit | internal/gateway/outbound.go:474-481 | From every such revival the next load and begin make an attempt beyond the limit |
| OutboundProofs.LimitPassedWithoutReplay | internal/gateway/outbound.go:474-481 | A run without any replay that makes more than MaxAttempts attempts |
| OutboundDelivery.KeptStep | internal/gateway/outbound.go:657-687 | Every step whose replay completion is of the current generation keeps an entry for every live delivery |
| OutboundDelivery.NothingIsLost | internal/gateway/ops.go:183-207 | With one ReplayDLQ call at a time, a live delivery always has an unacknowledged entry, and a waiting service delivery its outbox row of the current generation |
| OutboundDelivery.OutboxWaits | internal/store/service_subscriptions.go:318-349 | The outbox half holds over all runs without that discipline |
| OutboundDelivery.KeptExactly | internal/store/gateway_ops.go:305-330 | Any step keeps the no-loss invariant if and only if it completes no outdated generation or another entry is left |
| OutboundDelivery.StrandedForEver | internal/gateway/ops.go:183-207 | A stranded delivery is never worked on again, whatever happens |
| OutboundDelivery.OverlapStrands | internal/gateway/ops.go:183-207 | A run with two overlapping replay calls that strands an accepted delivery |
| OutboundAnswers.RefusalIsFinal | internal/gateway/outbound.go:565-572 | Over every run, after a permanent refusal no further call is made before a replay opens a generation or a closed gate revives a discarded delivery |
| OutboundAnswers.TransientIsRetried | internal/gateway/outbound.go:542-563 | After a definite transient failure with attempts left the save leaves the delivery retrying at its time, and over every run in which its route exists nothing dead-letters it before its next attempt |
| OutboundAnswers.BuriedForAReason | internal/gateway/outbound.go:455-573 | Over every run a step dead-letters only before the attempt's call, after a permanent refusal, or after a transient failure of the last attempt |
| OutboundAnswers.OnlySuccessSucceeds | internal/gateway/outbound.go:522-533 | Over every run a succeeded delivery's last answer was a success |
| OutboundAnswers.NoCallBeforeItsTime | internal/gateway/outbound.go:437-442 | Over every run a retrying delivery is neither called nor attempted while no worker looks at it at or after its time |
| OutboundAnswers.AnswerDecides | internal/gateway/outbound.go:522-572 | When the worker can save it: success ends succeeded, ambiguity reconciling, a transient failure retrying or, with all attempts used, dead-lettered, a refusal dead-lettered, and the entry leaves the stream in all cases but the retry |
| OutboundAnswers.SettledIsReleased | internal/gateway/outbound.go:419-427 | The entry of a settled delivery is acknowledged and that of a dead-lettered one moved, the row untouched |
| OutboundAnswers.InterruptedIsReconciled | internal/gateway/outbound.go:431-436 | An interrupted attempt ends reconciling without another call |
| OutboundAnswers.DueIsAttempted | internal/gateway/outbound.go:437-521 | A due delivery gets its next attempt and one call |
| OutboundAnswers.AcceptDelivers | internal/gateway/outbound.go:284-323 | An accept that is carried through leaves an accepted delivery with one entry |
| OutboundAnswers.OutboxDelivers | internal/gateway/outbound.go:657-687 | One outbox round does the same for a service delivery and removes its outbox row |
| OutboundAnswers.ReplayRevives | internal/gateway/ops.go:183-207 | A replay that is carried through reopens a dead-lettered delivery once, with one new entry and one generation more |
| OutboundAnswers.OutboxRevives | internal/store/service_subscriptions.go:318-349 | For a service delivery the outbox completes a replay whose call was lost, to the same effect |
| OutboundAnswers.DiscardEnds | internal/store/gateway_ops.go:332-379 | A discard ends exactly a dead-lettered delivery, and no replay can be prepared afterwards |
| OutboundStore.Store.CreateGatewayOutboundDelivery | internal/store/gateway_outbound.go:243-277 | Finds the delivery of the idempotency key or creates one; another payload under the key is a conflict |
| OutboundStore.Store.CreateServiceDelivery | internal/store/service_subscriptions.go:278-299 | A service delivery starts as pending_enqueue with an outbox row of generation 0 |
| OutboundStore.Store.MarkGatewayDeliveryAccepted | internal/store/gateway_outbound.go:279-286 | Only pending_enqueue becomes accepted |
| OutboundStore.Store.CompleteServiceEnqueue | internal/store/service_subscriptions.go:318-349 | Changes the row only if the generation is the outbox row's |
| OutboundStore.Store.PrepareGatewayDLQReplay | internal/store/gateway_ops.go:248-303 | The first replay of an active item opens a generation; asking again finds the same one |
| OutboundStore.Store.CompleteGatewayDLQReplay | internal/store/gateway_ops.go:305-330 | replay_pending becomes accepted without a look at the generation |
| OutboundStore.Store.DiscardGatewayDLQ | internal/store/gateway_ops.go:332-379 | Only an active item is discarded |
| OutboundStore.Store.BeginGatewayDeliveryAttempt | internal/store/gateway_outbound.go:324-357 | Begins only from accepted or retrying, with the next attempt row |
| OutboundStore.Store.MarkGatewayDeliverySucceeded | internal/store/gateway_outbound.go:359-365 | The row becomes succeeded, without a status guard |
| OutboundStore.Store.MarkGatewayDeliveryRetrying | internal/store/gateway_outbound.go:367-385 | The row becomes retrying at the given time, without a status guard |
| OutboundStore.Store.MarkGatewayDeliveryReconciling | internal/store/gateway_outbound.go:387-405 | The row becomes reconciling |
| OutboundStore.Store.MarkGatewayDeliveryDeadLettered | internal/store/gateway_outbound.go:407-431 | The row becomes dead-lettered with an active DLQ row that keeps its replay count |
| OutboundService.Service.Accept | internal/gateway/outbound.go:284-315 | A new delivery arrives as created and joined, a found one is joined, and no other delivery changes |
| OutboundService.Service.CreateForRecipient | internal/store/service_subscriptions.go:278-299 | A service delivery arrives as created and no other delivery changes |
| OutboundService.Service.AppendAccepted | internal/gateway/outbound.go:316-318 | The append of accept is one step of the machine |
| OutboundService.Service.MarkAcceptedCall | internal/gateway/outbound.go:319-323 | The accepted transition of accept is one step of the machine |
| OutboundService.Service.RunServiceEnqueue | internal/gateway/outbound.go:657-687 | The outbox loop appends generation 0 and replays later ones |
| OutboundService.Service.FinishServiceEnqueue | internal/gateway/outbound.go:657-687 | Completing the outbox row is one step of the machine |
| OutboundService.Service.PrepareReplayCall | internal/gateway/ops.go:183-187 | The prepare step of ReplayDLQ |
| OutboundService.Service.ReplayFromDLQ | internal/gateway/ops.go:197-200 | The script step of ReplayDLQ |
| OutboundService.Service.CompleteReplayCall | internal/gateway/ops.go:201-207 | The complete step of ReplayDLQ |
| OutboundService.Service.LoadEntry | internal/gateway/outbound.go:382-442 | Where the worker goes after reading each status |
| OutboundService.Service.HoldForGate | internal/gateway/outbound.go:474-481 | A closed gate puts the delivery to retrying |
| OutboundService.Service.BeginAttemptStep | internal/gateway/outbound.go:482-486 | A refused begin ends the worker's turn |
| OutboundService.Service.TelegramReturned | internal/gateway/outbound.go:522-572 | The answer is recorded and is one step of the machine; what each answer leads to is `OutboundAnswers.AnswerDecides` |
| OutboundService.Service.RecordRetry | internal/gateway/outbound.go:542-563 | Retrying while attempts are left |
| OutboundService.Service.DeadLetter | internal/gateway/outbound.go:638-647 | The durable status before the stream move |
| OutboundService.Service.StepKeepsAll | internal/gateway/outbound.go:284-687 | A step of one delivery that completes no outdated generation keeps the no-loss invariant of all deliveries |
| OutboundService.Service.StepSendsOnce | internal/gateway/outbound.go:382-573 | A step of one delivery keeps the at-most-once invariant of all deliveries |
| OutboundService.Service.ArrivalKeepsAll | internal/gateway/outbound.go:284-315 | Creating a delivery of either kind keeps the no-loss invariant of all deliveries |
| OutboundService.Service.ArrivalSendsNothing | internal/store/service_subscriptions.go:278-299 | Creating a delivery of either kind keeps the at-most-once invariant of all deliveries and calls nothing |
| AdapterSteps.CeilDivIsLeast | internal/gateway/adapter.go:246-248 | The quotient used in the bound is rounded up |
| AdapterSteps.LaterIsLess | internal/gateway/adapter.go:94-237 | Reaching a later stage strictly lowers the measure of remaining polls |
| AdapterSteps.StayingIsLess | internal/gateway/adapter.go:81-85 | So does staying in a timed stage over a due poll |
| AdapterSteps.BoundIsFull | internal/gateway/adapter.go:94-237 | The measure of a new execution is the explicit bound |
| AdapterProofs.StartedKeeps | internal/gateway/adapter.go:78-237 | One poll never moves the stage back and, without error, lowers the measure |
| AdapterProofs.StepKeeps | internal/store/adapter.go:38-102 | The invariant over claims, fenced saves, intents, posts, replies and crashes of any number of workers |
| AdapterProofs.PostedAtMostOnce | internal/gateway/adapter.go:118-134 | Over every run the job is posted at most once, and only after the acknowledgement succeeded |
| AdapterProofs.PostingIsExclusive | internal/gateway/adapter.go:123-128 | A worker about to post has durably saved "triggering" itself, nobody posted before it, and no other worker is about to |
| AdapterProofs.StageNeverMovesBack | internal/store/adapter.go:87-102 | The saved stage never moves backwards |
| AdapterProofs.DoneWithinBound | internal/gateway/adapter.go:78-261 | At most Bound error-free polls, two reply, two queue and one build timeout over the interval, rounded up, plus MaxFailures plus a constant; after that many the stage is done |
| AdapterReplies.CreatedFits | internal/store/adapter.go:118-158 | Under one fingerprint an offered reply is either new or stored with the same bytes |
| AdapterReplies.OffersAreIdentical | internal/gateway/adapter.go:210-234 | Over every run under one fingerprint all offers of a phase carry the same bytes and none conflicts |
| AdapterRestart.RestartConflicts | internal/store/adapter.go:69-84 | After a restart some run offers other bytes than the stored ones if and only if a result is stored, the row carries the running fingerprint, and its stage is not terminal and can still be passed in time |
| AdapterRestart.RunSpent | internal/gateway/adapter.go:86-234 | From a row that is not exposed so, no run with any number of workers conflicts |
| AdapterRestart.ExposedConflicts | internal/gateway/adapter.go:93-234 | From an exposed row the job can be followed stage by stage up to a result reply with other bytes |
| AdapterRestart.ReturningConflicts | internal/gateway/adapter.go:86-88 | Going to another fingerprint and back without overlap can end in a conflict, if and only if the reply timeout leaves room for one more claim |
| AdapterReplies.OverlapConflicts | internal/gateway/adapter.go:86-88 | A run with two overlapping fingerprints that ends in an idempotency conflict |
| AdapterResults.ReplyIsTheJobs | internal/gateway/adapter.go:195-214 | Over every run under one fingerprint a stored result reply with an output carries status, code and output of a result some poll fetched, and says what the row says |
| AdapterResults.RowIsTheJobs | internal/gateway/adapter_output.go:33-38 | A terminal row reports failed, timeout or what was fetched, and its payload carries the row's own status and code |
| AdapterResults.FollowsTheJob | internal/gateway/adapter.go:128-193 | Over every run only queue items and builds that Jenkins named are followed, and results fetched only of builds it called finished, with that verdict |
| AdapterResults.FetchedIsSent | internal/gateway/adapter.go:210-214 | A fetched result ends the execution with exactly its status, code and output to be sent |
| AdapterResults.EndIsTheReply | internal/gateway/adapter.go:215-234 | Once an execution has ended, any reply ever stored carries the bytes of that end |
| AdapterResults.TimeoutNamesItsStage | internal/gateway/adapter.go:135-183 | An execution times out exactly in an expired stage, and the code names that stage |
| AdapterResults.FailureNamesItsCause | internal/gateway/adapter.go:94-209 | Each failure code is reported exactly for its cause |
| AdapterResults.ReplyDecides | internal/gateway/adapter.go:105-117 | Only an acknowledgement sent in time opens the way; failed or late replies end the execution under their own class |
| AdapterResults.SubmissionDecides | internal/gateway/adapter.go:128-134 | A refused submission has failed, an accepted one is followed under its queue ID, an unclear one stays as the saved intent says |
| AdapterWorker.ExecutionState.Advance | internal/gateway/adapter.go:241-245 | Stage, start time and failure count of the object |
| AdapterWorker.ExecutionState.Terminate | internal/gateway/adapter.go:249-254 | The terminal stage with status, code and lower-case error class |
| AdapterWorker.ExecutionState.NetworkFailure | internal/gateway/adapter.go:255-261 | Terminal exactly when the failures reach MaxFailures |
| AdapterWorker.ExecutionState.Switch | internal/gateway/adapter.go:94-237 | The switch over the stages ends as the step of the machine says |
| AdapterWorker.ExecutionState.Poll | internal/gateway/adapter.go:78-237 | Process from the claimed row to its next transaction is the start step of the machine |
| AdapterWorker.ExecutionState.Replied | internal/gateway/adapter.go:105-117 | What is made of a reply's status, before and after the reply timeout |
| AdapterWorker.Tables.Claim | internal/store/adapter.go:38-85 | The claim step: one row per delivery, a lease only after the last one ended, stored reply bytes recalled |
| AdapterWorker.Tables.SaveIntent | internal/store/adapter.go:87-102 | The durable intent is saved exactly under a live lease of the same owner |
| AdapterWorker.Tables.SaveAndRelease | internal/store/adapter.go:87-102 | The deferred save writes and releases exactly under a live lease of the same owner |
| AdapterWorker.Tables.CreateReply | internal/store/adapter.go:118-158 | One reply per phase; other bytes are a conflict |
| InboundProofs.CoreStep | internal/gateway/inbound.go:215-266 | The inductive invariant over ingestion, worker and operator steps |
| InboundProofs.AckedWhenSettled | internal/gateway/inbound.go:222-231 | Outright acknowledgements meet a succeeded delivery; a moving one is pending if and only if its replay completed |
| InboundProofs.NothingIsLost | internal/store/inbound_deliveries.go:196-278 | With one ReplayDLQ call at a time a pending or retrying delivery that was appended keeps an unacknowledged entry |
| InboundProofs.EntryMovedWhilePending | internal/gateway/inbound.go:262-265 | A run in which the move acknowledges an entry of a pending delivery |
| InboundProofs.CoveredStays | internal/store/inbound_deliveries.go:125-177 | A rejected or appended record stays so for ever |
| InboundProofs.SettledIsCovered | internal/gateway/inbound.go:165-172 | Whenever IngestUpdate returns early without error the record is rejected or appended |
| InboundAnswers.OnlyAcceptedSucceeds | internal/gateway/inbound.go:247-256 | Over every run a delivery is succeeded only after an accepting answer and retrying only after another one |
| InboundAnswers.BuriedWhenExhausted | internal/gateway/inbound.go:255-265 | Over every run it is dead-lettered only after a failure with all attempts used, or a failure of the adapter |
| InboundAnswers.NoAttemptBeforeItsTime | internal/gateway/inbound.go:232-237 | Over every run a retrying delivery is not attempted while no worker looks at it at or after its time |
| InboundAnswers.AnswerDecides | internal/gateway/inbound.go:247-265 | When the worker can save it: success ends acknowledged, a failure retrying at its time or, exhausted, in the DLQ with the entry moved |
| InboundAnswers.DueIsAttempted | internal/gateway/inbound.go:242-247 | A due delivery gets its next attempt, whatever is answered |
| InboundAnswers.EntryIsHandled | internal/gateway/inbound.go:223-231 | Settled entries leave the stream, and unfinished adapter work leaves everything as it is |
| InboundAnswers.IngestDelivers | internal/gateway/inbound.go:161-181 | An ingestion that is carried through brings a pending delivery into the stream and leaves a rejected one out |
| InboundAnswers.ReplayRevives | internal/gateway/ops.go:183-207 | A replay that is carried through reopens a dead-lettered delivery once, with one new entry |
| InboundAnswers.DiscardEnds | internal/store/gateway_ops.go:332-379 | A discard ends exactly a dead-lettered delivery for the operator |
| InboundOffset.Poller.Prepare | internal/store/inbound_deliveries.go:125-177 | The first record with the update ID or the callback ID is found; otherwise a new one is made that is pending if and only if the lookup of this turn found an active, enabled route, and is pinned to that answer |
| InboundOffset.Poller.Ingest | internal/gateway/inbound.go:155-181 | No error means a durable record that is rejected if and only if its lookup refused it and otherwise in the stream; without a failing step there is no error |
| InboundOffset.Poller.ProcessUpdate | internal/proxy/proxy.go:357-427 | The offset moves past an update only after its ingestion, and does so whenever no step fails |
| InboundOffset.Poller.PollBatch | internal/proxy/proxy.go:739-756 | For every batch, failure, crash and interference the offset never moves back nor past an update that is not durably covered as its lookup decided; without failures the whole batch is passed |
| ConfigValidation.Validate | internal/configbackup/snapshot.go:196-274 | The loops with their maps accept exactly the valid snapshots |
| ConfigValidation.ValidateBusinessRoutes | internal/configbackup/business_routes.go:32-102 | Accepts exactly if every route is valid and no two listen to one Bot and chat |
| ConfigValidation.ValidateWorkloads | internal/configbackup/notifications.go:57-97 | Accepts exactly if references, names and all verifiers are distinct and every workload is valid |
| ConfigValidation.ValidateSubscriptions | internal/configbackup/notifications.go:114-150 | Accepts exactly if every subscription is valid and no two active ones reach one recipient |
| Ordering.SortForgetsOrder | internal/configbackup/snapshot.go:283-284 | Sorting by telling keys gives equal results exactly for permutations |
| ConfigCanonical.CanonicalTwice | internal/configbackup/snapshot.go:276-292 | Canonical is idempotent on valid snapshots |
| ConfigCanonical.CanonicalTells | internal/configbackup/snapshot.go:276-292 | Two valid snapshots have one canonical form if and only if they differ at most in the order of the unordered collections, conditional routes in the same order |
| ConfigCanonical.NestedTell | internal/configbackup/notifications.go:154-181 | The same for workloads with their permissions and credentials and routes with their callers |
| ConfigAccounts.AccountTables.PlaceOne | internal/store/config_backup.go:225-240 | The loop picks the first account of the bot without the chat, or a new one |
| ConfigAccounts.FreeAtRank | internal/store/config_backup.go:227-228 | The account found is the one after those that already have the chat |
| ConfigAccounts.AliasesAreMinimal | internal/store/config_backup.go:224-244 | No account gets a chat twice, destinations stay with their bot, and a bot ends with exactly max(1, greatest number of destinations sharing one chat) accounts |
| ConfigRoundTrip.RestoreAllocates | internal/store/config_backup.go:208-244 | That for the tables every valid snapshot produces |
| ConfigRoundTrip.AccountBotBack | internal/store/config_backup.go:85-93 | A restored destination's account leads back to its own bot |
| ConfigRoundTrip.DestinationsBack | internal/store/config_backup.go:85-98 | Destinations export as they were |
| ConfigRoundTrip.ConditionalsBack | internal/store/config_backup.go:102-120 | Conditional routes export as they were, in the same order |
| ConfigRoundTrip.SubscriptionsBack | internal/store/config_backup_notifications.go:68-75 | Subscriptions find their service and destination through fresh IDs |
| ConfigRoundTrip.RoutesBack | internal/store/config_backup_business_routes.go:11-36 | Business routes find bot and destination through fresh IDs |
| ConfigRoundTrip.WorkloadsBack | internal/store/config_backup_notifications.go:27-68 | Workloads come back with exactly their credentials and permissions, without the adapter's row |
| ConfigRestore.RestoreThenExport | internal/store/config_backup.go:136-271 | After every committed restore the export is the snapshot with bots and destinations sorted, conditional routes in order, and the same canonical form |
| ConfigRestore.RestoreAgainReplays | internal/store/config_backup.go:180-197 | Restoring anything with the same canonical form again changes nothing and reports a replay with the receipt's counts |
| ConfigRestore.ReplayExactlyWhileUnchanged | internal/store/config_backup.go:173-197 | With a receipt the outcome is a replay if and only if the exported configuration is still the same up to order, and a conflict otherwise; nothing changes |
| ConfigRestore.CommitsExactlyWhenBlank | internal/store/config_backup.go:201-207 | Without receipt a valid snapshot commits if and only if nothing is configured and no unique index of the workloads is hit |
| ConfigMeaning.RestoredRowsMean | internal/store/config_backup.go:208-258 | After a committed restore each column of each row refers to the row the snapshot names there: source and target bots, accounts, services, destinations, routes and workloads |
| ConfigMeaning.NewIdsDiffer | internal/store/config_backup.go:208-258 | The fresh IDs of a committed restore tell the rows of each table apart |
| ConfigTables.ConfigurationStore.RestoreBots | internal/store/config_backup.go:208-223 | The loop over the bots with its map of new IDs |
| ConfigTables.ConfigurationStore.RestoreDestinations | internal/store/config_backup.go:224-244 | The loop over the destinations with the account search inside |
| ConfigTables.ConfigurationStore.RestoreConditionals | internal/store/config_backup.go:245-252 | Rows in snapshot order with remapped bots |
| ConfigTables.ConfigurationStore.RestoreWorkloads | internal/store/config_backup_notifications.go:79-97 | Workloads with their credentials in the inner loop |
| ConfigTables.ConfigurationStore.RestoreSubscriptions | internal/store/config_backup_notifications.go:110-122 | Subscriptions under the new service and destination IDs |
| ConfigTables.ConfigurationStore.RestoreRoutes | internal/store/config_backup_business_routes.go:57-73 | Routes with the account of their destination row |
| ConfigTables.ConfigurationStore.RestorePermissions | internal/store/config_backup_business_routes.go:74-80 | Permission rows under the new workload and route IDs, each found by its key |
| ConfigTables.ConfigurationStore.RestoreConfiguration | internal/store/config_backup.go:136-271 | The method ends with the outcome and the tables the restore function names |
| ConfigExport.ExportWorkloadTables | internal/store/config_backup_notifications.go:27-61 | The loops that append through the map of positions give each workload its own rows, or fail on a row without one |
| ConfigExport.ExportConfiguration | internal/store/config_backup.go:54-132 | The export loops give the export the round trip is proved for |
| Routes.StepKeeps | internal/store/gateway_security.go:104-296 | Every transaction keeps the revision invariant and rewrites no recorded row |
| Routes.RevisionsAreComplete | internal/store/business_routes.go:299-318 | Every route has revision rows for exactly 1 to its current revision, the last equal to its configuration |
| Routes.PinnedForEver | internal/store/inbound_deliveries.go:113-120 | An accepted delivery's pinned configuration never changes afterwards |
| Routes.OneEditorCommits | internal/store/gateway_security.go:104-135 | Of all edits of a route with one expected revision at most one commits |
| Routes.MigrationReachesItsRoutes | internal/store/gateway_security.go:226-296 | A migration gives exactly the destination's routes one new revision, bound to the new account |
| Routes.BumpAllIs | internal/store/bot_accounts.go:134-146 | A fan-out gives every listed route one new revision and leaves the others alone |
| RouteEffects.EditTakesEffect | internal/store/gateway_security.go:104-157 | A committed edit makes the submitted configuration current for this route alone; deliveries accepted next are pinned to it for ever, earlier ones keep theirs; any other edit changes nothing |
| RouteEffects.InsertTakesEffect | internal/store/business_routes.go:299-318 | A new route starts at revision 1 with the submitted configuration, which the deliveries accepted next are pinned to |
| RouteEffects.SyncReachesTheBot | internal/store/bot_accounts.go:97-148 | A change of a bot gives every alias one revision and exactly the routes on its accounts one revision of the same configuration |
| RouteEffects.RotationTakesEffect | internal/store/gateway_security.go:161-205 | A rotation commits exactly at its account's expected revision and then reaches exactly the routes of the bot |
| RouteEffects.MigrationTakesEffect | internal/store/gateway_security.go:226-296 | A migration commits exactly at the expected revision; the destination is then where it was sent and exactly its routes follow |
| RouteStores.RouteStore.AddBusinessRoute | internal/store/business_routes.go:299-318 | A new route comes with revision 1 |
| RouteStores.RouteStore.UpdateBusinessRouteExpected | internal/store/gateway_security.go:104-157 | Outcomes in the order of the checks; a committed edit adds one revision |
| RouteStores.RouteStore.SyncBotAccounts | internal/store/bot_accounts.go:97-148 | All aliases and then all their routes get a new revision |
| RouteStores.RouteStore.RotateBotAccount | internal/store/gateway_security.go:161-205 | A rotation with the expected revision fans out to the bot's routes |
| RouteStores.RouteStore.MigrateTelegramDestination | internal/store/gateway_security.go:226-296 | A migration with the expected revision rebinds the destination's routes |
| SubscriptionProofs.ResolvesExactly | internal/store/service_subscriptions.go:142-172 | The loop succeeds if and only if all active targets are usable and pairwise distinct, and then lists exactly one recipient for each |
| SubscriptionProofs.DistinctStep | internal/store/service_subscriptions.go:174-259 | Every transaction keeps active targets pairwise distinct |
| SubscriptionProofs.TargetsStayDistinct | internal/store/service_subscriptions.go:379-404 | In every committed state no two active subscriptions of a service reach one chat through one Telegram bot |
| SubscriptionProofs.AcceptReachesAll | internal/store/service_notifications.go:104-165 | An accepted notification records one recipient per active subscription of its service |
| SubscriptionProofs.NotificationStays | internal/store/service_notifications.go:111-125 | Its recipients stay those, as many as recorded; its key used again adds none and answers a replay or a conflict by the payload |
| SubscriptionEffects.CancelTakesEffect | internal/store/service_subscriptions.go:223-259 | A committed cancel turns off this subscription alone; all others are selected as before |
| SubscriptionEffects.CancelledIsNeverReached | internal/store/service_subscriptions.go:223-259 | Over every run after it no notification accepted later has a recipient with that subscription |
| SubscriptionEffects.SubscribeTakesEffect | internal/store/service_subscriptions.go:174-221 | A committed subscription is active and selected, and the others stay as they are |
| SubscriptionEffects.ActiveIsReached | internal/store/service_notifications.go:104-165 | An accepted notification reaches every active subscription of its service at the chat and through the bot of its destination |
| SubscriptionEffects.RotationTakesEffect | internal/store/bot_accounts.go:106-114 | A rotation gives exactly the bot's accounts the new identity, or changes nothing if recipients would collide |
| SubscriptionEffects.MigrationRedirects | internal/store/gateway_security.go:244-253 | A migration sends later recipients of that destination, and no others, to its new account and chat |
| SubscriptionStores.SubscriptionStore.ServiceRecipients | internal/store/service_subscriptions.go:142-172 | The loop with its map of seen targets computes the resolution |
| SubscriptionStores.SubscriptionStore.AddServiceSubscription | internal/store/service_subscriptions.go:174-221 | Commits exactly if revision, destination and the resolution with the new row allow it |
| SubscriptionStores.SubscriptionStore.CancelServiceSubscription | internal/store/service_subscriptions.go:223-259 | Commits exactly for an active subscription of the service at the expected revision |
| SubscriptionStores.SubscriptionStore.AcceptServiceNotification | internal/store/service_notifications.go:104-165 | Answers and records as the notify step says |
| RateGates.GateIsDurable | internal/gateway/outbound.go:595-617 | In every run the gate is the greater of the two durable deadlines, before and after a restart |
| RateGates.NoSendBeforeDeadline | internal/gateway/outbound.go:619-636 | Once stored, a deadline holds back every later send through any account of that physical bot |
| RateGates.StartsExactlyAfterDeadlines | internal/gateway/outbound.go:474-481 | A send starts if and only if both durable deadlines have passed |
| RateGates.HeldBackByALimit | internal/store/gateway_outbound.go:476-498 | A send is held back only by a later deadline that some limit of the run set for its physical bot or account |
| RateGates.Service.BotGate | internal/gateway/outbound.go:595-617 | The method returns the greater of the two durable deadlines |
| RateGates.Service.SetBotGate | internal/gateway/outbound.go:619-636 | Wherever it stops, no stored deadline goes down and memory stays below the durable one |
| UpdateQueues.UpdateQueue.Enqueue | internal/proxy/proxy.go:46-81 | Drops confirmed and queued updates, appends others and evicts the oldest |
| UpdateQueues.UpdateQueue.Get | internal/proxy/proxy.go:86-116 | Purges, remembers the offset and answers the first updates at or above it |
| UpdateQueues.QueueHoldsNewest | internal/proxy/proxy.go:46-116 | After every orderly history the queue is the newest maxSize of the unconfirmed updates seen, ascending and without repeats |
| UpdateQueues.GetAnswersAboveAllOffsets | internal/proxy/proxy.go:86-116 | Get answers the first limit updates at or above every offset ever requested |
| UpdateQueues.PurgeIsExact | internal/proxy/proxy.go:95-104 | Purging is exact if and only if no older update is queued behind a newer one |
| Arguments.SplitManagementArguments | internal/gateway/adapter_request.go:73-143 | The loop computes the split |
| Arguments.SplitReadsLine | internal/gateway/adapter_request.go:73-143 | Every line of gaps, bare, escaped and quoted parts is read as its words, and refused exactly when a limit is broken |
| Arguments.SplitIsTheGrammar | internal/gateway/adapter_request.go:73-143 | A text is accepted with these arguments if and only if it is such a line with these words within the limits |
| Arguments.AcceptedKeepsLimits | internal/gateway/adapter_request.go:84-142 | 1 to 128 arguments, none blank, each at most 4096 bytes, 65536 in total |
| Arguments.SplitInvertsPrinting | internal/gateway/adapter_request.go:73-143 | Splitting inverts printing in any mix of backslashes, single and double quotes |
| Terminal.CleanTerminalOutput | internal/gateway/adapter_output.go:117-169 | The two replacements and the loop compute the cleaned text |
| Terminal.CleanedText | internal/gateway/adapter_output.go:115-169 | The result is a subsequence of the normalised text without control characters but newline and tab, the text itself if and only if it has none, and cleaning twice is cleaning once |
| Terminal.CleanedConcat | internal/gateway/adapter_output.go:117-169 | Cleaning distributes over a cut in ground state that splits no CR LF |
| Terminal.OnlyPlainRemains | internal/gateway/adapter_output.go:119-166 | Control sequences (section 5.4 of ECMA-48), control strings (section 5.6) and escape sequences vanish whole and exactly the printable characters remain |

## Left out

- More than one outbound or one inbound worker on a database: the code starts one of each, and its unguarded updates rely on it.
- Concurrent ingestion of one update by a webhook request and by the poller; webhook requests are not modelled.
- Updates without a numeric update ID, which the poll loop skips.
- UpdateTelegramDestination, which changes a destination without validating recipients or adding revisions: no production code calls it.
- UpdateBusinessRoute without an expected revision: it equals an edit whose expected revision is the one it has read.
- Deleting bots and their accounts; adding a Bot without its account.
- Field paths and reasons of validation errors, JSON shapes and the decoder; regular expressions, URLs and service labels are parameters of validation.
- Ciphertexts, hashes and digests: sealing is an inverse pair, digests are taken to be injective.
- SQL errors other than the modelled unique indexes: any step may fail and change nothing.
- Row order of SELECT statements without ORDER BY: rows come in table order; `ConfigCanonical.CanonicalTells` shows that the digest does not depend on it.
- Configurations restored on top of leftover runtime rows such as deliveries or audit events.
- The adapter's lease length, four request timeouts and a second: a claim's lease may have any positive length.
- Clocks: the adapter's processes share one clock that does not run backwards; delays and jitter are free.
- Waiters of the long-poll queue and their wake-up.
- The bytes of a reply beyond status, code and output: what resultReply renders of an output is not modelled.
- HTTP handlers, the user interface, logging, metrics, health probes, media, bridges, the language-model router and the Telegram proxy: they hand requests and replies on and decide nothing about deliveries, routes or configurations.
- Decoding of UTF-8: texts are sequences of code points, invalid UTF-8 is one more input of the splitter.
