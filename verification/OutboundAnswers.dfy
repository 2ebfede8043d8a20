/** What Telegram's answer to a call leads to, over every run: a refusal is never
    sent again, a transient failure never dead-lettered while attempts are left, a
    retry never early, and only a success becomes succeeded. */
module OutboundAnswers {
  import opened Prelude
  import opened OutboundLane
  import opened OutboundProofs
  import opened OutboundDelivery
  import R = RedisQueue

  function LastAnswer(l: Lane): Option<Outcome> {
    if l.log.answers == [] then None else Some(l.log.answers[|l.log.answers| - 1])
  }

  // ---------------------------------------------- what a decision was based on

  /** The worker acts on the answer it got; only a success is recorded as one. */
  predicate Judged(l: Lane) {
    && (l.worker.Delivered? ==> LastAnswer(l) == Some(Success))
    && (l.worker.Ambiguous? ==> LastAnswer(l) == Some(AmbiguousOutcome))
    && (l.worker.Transient? ==> LastAnswer(l) == Some(DefiniteTransient))
    && (l.worker.Rejected? ==> LastAnswer(l) == Some(Permanent))
    && (l.row.status == Succeeded ==> LastAnswer(l) == Some(Success))
  }

  lemma JudgedStep(l: Lane, e: Event)
    requires Core(l) && Judged(l)
    ensures Judged(Next(l, e))
  {
    if ByCaller(e) {
      assert CallerNext(l, e).worker == l.worker && CallerNext(l, e).log == l.log;
    } else if ByOperator(e) {
      assert OperatorNext(l, e).worker == l.worker && OperatorNext(l, e).log == l.log;
    } else if e.Return? && l.worker.Calling? {
      assert LastAnswer(WorkerNext(l, e)) == Some(e.outcome);
    }
  }

  lemma {:induction false} JudgedRun(l: Lane, events: seq<Event>)
    requires Core(l) && Judged(l)
    ensures Core(Run(l, events)) && Judged(Run(l, events))
    decreases |events|
  {
    if events != [] {
      CoreStep(l, events[0]);
      JudgedStep(l, events[0]);
      JudgedRun(Next(l, events[0]), events[1..]);
    }
  }

  /** A delivery is succeeded only if Telegram's last answer was a success. */
  lemma OnlySuccessSucceeds(maxAttempts: nat, service: bool, events: seq<Event>)
    requires maxAttempts > 0
    ensures var l := Run(Created(maxAttempts, service), events);
            l.row.status == Succeeded ==> LastAnswer(l) == Some(Success)
  {
    JudgedRun(Created(maxAttempts, service), events);
  }

  /** A step that dead-letters does so before the attempt's call, because the route or
      the payload is unusable, or after a permanent refusal, or after a transient
      failure of the last attempt that the limit allows. */
  lemma BuriedForAReason(maxAttempts: nat, service: bool, events: seq<Event>, e: Event)
    requires maxAttempts > 0
    ensures var l := Run(Created(maxAttempts, service), events);
            l.row.status != DeadLettered && Next(l, e).row.status == DeadLettered ==>
              || l.worker.Loaded? || l.worker.Begun?
              || LastAnswer(l) == Some(Permanent)
              || (LastAnswer(l) == Some(DefiniteTransient) && l.row.attempts >= maxAttempts)
  {
    var l := Run(Created(maxAttempts, service), events);
    CoreRun(Created(maxAttempts, service), events);
    JudgedRun(Created(maxAttempts, service), events);
    if l.row.status != DeadLettered && Next(l, e).row.status == DeadLettered { BuryingStep(l, e); }
  }

  /** Only the worker dead-letters. */
  lemma BuryingStep(l: Lane, e: Event)
    requires l.row.status != DeadLettered && Next(l, e).row.status == DeadLettered
    ensures e.Bury? && MayBury(l)
  {
  }

  // --------------------------------------------------- a refusal is not sent again

  /** Counters only grow. */
  lemma CountsGrow(l: Lane, e: Event)
    ensures var m := Next(l, e);
            && ReplayCount(l.row) <= ReplayCount(m.row) && l.log.revived <= m.log.revived
            && l.log.calls <= m.log.calls && l.row.attempts <= m.row.attempts && m.maxAttempts == l.maxAttempts
  {
  }

  lemma {:induction false} CountsGrowOn(l: Lane, events: seq<Event>)
    ensures var m := Run(l, events);
            && ReplayCount(l.row) <= ReplayCount(m.row) && l.log.revived <= m.log.revived
            && l.log.calls <= m.log.calls && l.row.attempts <= m.row.attempts
    decreases |events|
  {
    if events != [] {
      CountsGrow(l, events[0]);
      CountsGrowOn(Next(l, events[0]), events[1..]);
    }
  }

  /** Refused, and on no way to another call. */
  predicate Shut(l: Lane) {
    && (l.row.status == Processing || l.row.status == Reconciling || l.row.status == DeadLettered || l.row.status == Discarded)
    && match l.worker
       case Off => true
       case Rejected(_) => l.row.status == Processing
       case Orphan(_) => true
       case Acking(_) => true
       case Moving(_) => true
       case Loaded(_) => l.row.status == Discarded
       case _ => false
  }

  predicate Reopened(l: Lane, m: Lane) {
    ReplayCount(m.row) > ReplayCount(l.row) || m.log.revived > l.log.revived
  }

  lemma ShutStep(l: Lane, e: Event)
    requires Core(l) && Shut(l)
    ensures Reopened(l, Next(l, e)) || (Shut(Next(l, e)) && Next(l, e).log.calls == l.log.calls)
  {
  }

  lemma {:induction false} ShutRun(l: Lane, events: seq<Event>)
    requires Core(l) && Shut(l)
    ensures Run(l, events).log.calls > l.log.calls ==> Reopened(l, Run(l, events))
    decreases |events|
  {
    if events != [] {
      var m := Next(l, events[0]);
      CoreStep(l, events[0]);
      CountsGrow(l, events[0]);
      CountsGrowOn(m, events[1..]);
      ShutStep(l, events[0]);
      if !Reopened(l, m) { ShutRun(m, events[1..]); }
    }
  }

  /** After a permanent refusal no further call is made, over every run, before an
      operator replays the delivery or a closed gate revives a discarded one. */
  lemma RefusalIsFinal(maxAttempts: nat, service: bool, before: seq<Event>, after: seq<Event>)
    requires maxAttempts > 0 && Run(Created(maxAttempts, service), before).worker.Calling?
    ensures var l := Next(Run(Created(maxAttempts, service), before), Return(Permanent));
            Run(l, after).log.calls > l.log.calls ==> Reopened(l, Run(l, after))
  {
    CoreRun(Created(maxAttempts, service), before);
    var k := Run(Created(maxAttempts, service), before);
    CoreStep(k, Return(Permanent));
    ShutRun(Next(k, Return(Permanent)), after);
  }

  // ------------------------------------------------ a transient failure is retried

  /** The route or the bot behind a loaded delivery is gone. */
  predicate RouteGone(l: Lane, e: Event) {
    e.Bury? && l.worker.Loaded?
  }

  predicate RouteStays(l: Lane, events: seq<Event>)
    decreases |events|
  {
    events == [] || (!RouteGone(l, events[0]) && RouteStays(Next(l, events[0]), events[1..]))
  }

  /** Failed with attempts left, and not attempted since. */
  predicate Waiting(l: Lane) {
    match l.row.status
    case Processing => l.worker == Off || l.worker.Orphan? || (l.worker.Transient? && l.worker.attempt < l.maxAttempts)
    case Retrying => l.worker == Off || l.worker.Loaded?
    case Reconciling => l.worker == Off || l.worker.Acking?
    case _ => false
  }

  lemma WaitingStep(l: Lane, e: Event)
    requires Core(l) && Waiting(l) && !RouteGone(l, e)
    ensures Next(l, e).row.attempts > l.row.attempts || Waiting(Next(l, e))
  {
  }

  lemma {:induction false} WaitingRun(l: Lane, events: seq<Event>)
    requires Core(l) && Waiting(l) && RouteStays(l, events)
    ensures Run(l, events).row.attempts > l.row.attempts || Waiting(Run(l, events))
    decreases |events|
  {
    if events != [] {
      var m := Next(l, events[0]);
      CoreStep(l, events[0]);
      CountsGrow(l, events[0]);
      CountsGrowOn(m, events[1..]);
      WaitingStep(l, events[0]);
      if m.row.attempts == l.row.attempts { WaitingRun(m, events[1..]); }
    }
  }

  /** After a definite transient failure with attempts left, saving it leaves the
      delivery retrying at its time, and while its route exists nothing dead-letters
      it before its next attempt, over every run: it is retrying, or, if the save was
      lost, still processing or reconciling. */
  lemma TransientIsRetried(maxAttempts: nat, service: bool, before: seq<Event>, after: seq<Event>, at: int)
    requires maxAttempts > 0 && Run(Created(maxAttempts, service), before).worker.Calling?
    requires var l := Next(Run(Created(maxAttempts, service), before), Return(DefiniteTransient));
             l.row.attempts < maxAttempts && RouteStays(l, after)
    ensures var l := Next(Run(Created(maxAttempts, service), before), Return(DefiniteTransient));
            && Next(l, SaveRetry(at)).row.status == Retrying && Next(l, SaveRetry(at)).row.nextAttempt == Some(at)
            && (Run(l, after).row.attempts > l.row.attempts
                || Run(l, after).row.status in {Processing, Retrying, Reconciling})
  {
    CoreRun(Created(maxAttempts, service), before);
    var k := Run(Created(maxAttempts, service), before);
    CoreStep(k, Return(DefiniteTransient));
    WaitingRun(Next(k, Return(DefiniteTransient)), after);
  }

  // ------------------------------------------------------- no retry before its time

  /** No worker looks at the delivery at or after the time. */
  predicate AllBefore(events: seq<Event>, at: int) {
    forall e :: e in events && e.Load? ==> e.now < at
  }

  lemma {:induction false} NoCallBeforeItsTime(l: Lane, at: int, events: seq<Event>)
    requires Core(l) && l.row.status == Retrying && l.row.nextAttempt == Some(at) && l.worker == Off
    requires AllBefore(events, at)
    ensures var m := Run(l, events);
            && m.log.calls == l.log.calls && m.row.attempts == l.row.attempts && m.worker == Off
            && m.row.status == Retrying && m.row.nextAttempt == Some(at)
    decreases |events|
  {
    if events != [] {
      assert events[0] in events;
      CoreStep(l, events[0]);
      NoCallBeforeItsTime(Next(l, events[0]), at, events[1..]);
    }
  }

  // ------------------------------------------- turns in which no process is lost

  lemma RunTwo(l: Lane, a: Event, b: Event)
    ensures Run(l, [a, b]) == Next(Next(l, a), b)
  {
    assert [a, b][1..] == [b];
    assert Run(Next(l, a), [b]) == Run(Next(Next(l, a), b), [][..]);
  }

  /** The entry is off the stream and no other one is touched. */
  predicate Released(l: Lane, m: Lane, entry: nat) {
    m.redis.unacked == l.redis.unacked - {entry} && m.redis.entries == l.redis.entries && m.worker == Off
  }

  /** Dead-lettered, replayable, and in the DLQ stream. */
  predicate Buried(l: Lane, m: Lane, entry: nat) {
    && m.row.status == DeadLettered && m.row.dlq == Some(DlqRow(Active, ReplayCount(l.row)))
    && Released(l, m, entry) && m.redis.dlqIndex.Some?
  }

  /** What each answer makes of the delivery when the worker can save it. */
  lemma AnswerDecides(l: Lane, outcome: Outcome, at: int, dead: nat)
    requires Core(l) && l.worker.Calling?
    ensures var entry := l.worker.entry;
            match outcome
            case Success =>
              var m := Run(l, [Return(Success), SaveSuccess, Ack]);
              m.row.status == Succeeded && Released(l, m, entry)
            case AmbiguousOutcome =>
              var m := Run(l, [Return(AmbiguousOutcome), Reconcile, Ack]);
              m.row.status == Reconciling && Released(l, m, entry)
            case Permanent => Buried(l, Run(l, [Return(Permanent), Bury, Move(dead)]), entry)
            case DefiniteTransient =>
              if l.row.attempts < l.maxAttempts then
                var m := Run(l, [Return(DefiniteTransient), SaveRetry(at)]);
                && m.row.status == Retrying && m.row.nextAttempt == Some(at)
                && m.redis == l.redis && m.worker == Off
              else Buried(l, Run(l, [Return(DefiniteTransient), Bury, Move(dead)]), entry)
  {
    match outcome
    case Success => RunThree(l, [Return(Success), SaveSuccess, Ack]);
    case AmbiguousOutcome => RunThree(l, [Return(AmbiguousOutcome), Reconcile, Ack]);
    case Permanent => RunThree(l, [Return(Permanent), Bury, Move(dead)]); BuryMoves(l, Permanent, dead);
    case DefiniteTransient =>
      if l.row.attempts < l.maxAttempts {
        RunTwo(l, Return(DefiniteTransient), SaveRetry(at));
      } else {
        RunThree(l, [Return(DefiniteTransient), Bury, Move(dead)]);
        BuryMoves(l, DefiniteTransient, dead);
      }
  }

  lemma BuryMoves(l: Lane, outcome: Outcome, dead: nat)
    requires Core(l) && l.worker.Calling?
    requires outcome == Permanent || (outcome == DefiniteTransient && l.row.attempts >= l.maxAttempts)
    ensures Buried(l, Next(Next(Next(l, Return(outcome)), Bury), Move(dead)), l.worker.entry)
  {
    var m := Next(Next(l, Return(outcome)), Bury);
    assert m.worker == Moving(l.worker.entry) && m.redis == l.redis;
  }

  /** A worker takes the entry of a settled or dead-lettered delivery off the stream. */
  lemma SettledIsReleased(l: Lane, entry: nat, now: int, dead: nat)
    requires l.worker == Off && entry in l.redis.unacked
    ensures l.row.status == Succeeded || l.row.status == Reconciling ==>
              var m := Run(l, [Load(entry, now), Ack]); Released(l, m, entry) && m.row == l.row
    ensures l.row.status == DeadLettered ==>
              var m := Run(l, [Load(entry, now), Move(dead)]);
              Released(l, m, entry) && m.row == l.row && m.redis.dlqIndex.Some?
  {
    RunTwo(l, Load(entry, now), Ack);
    RunTwo(l, Load(entry, now), Move(dead));
  }

  /** It reconciles an interrupted attempt instead of calling again. */
  lemma InterruptedIsReconciled(l: Lane, entry: nat, now: int)
    requires l.worker == Off && entry in l.redis.unacked && l.row.status == Processing
    ensures var m := Run(l, [Load(entry, now), Reconcile, Ack]);
            m.row.status == Reconciling && Released(l, m, entry) && m.log.calls == l.log.calls
  {
    RunThree(l, [Load(entry, now), Reconcile, Ack]);
  }

  /** And it attempts a delivery that is due. */
  lemma DueIsAttempted(l: Lane, entry: nat, now: int)
    requires l.worker == Off && entry in l.redis.unacked && CanBegin(l.row.status)
    requires l.row.nextAttempt.Some? ==> l.row.nextAttempt.value <= now
    ensures var m := Run(l, [Load(entry, now), Begin, Call]);
            && m.row.status == Processing && m.row.attempts == l.row.attempts + 1
            && m.worker == Calling(entry, m.row.attempts) && m.log.calls == l.log.calls + 1
  {
    RunThree(l, [Load(entry, now), Begin, Call]);
  }

  /** An accepted request leaves the delivery accepted with an entry. */
  lemma AcceptDelivers(maxAttempts: nat, call: nat, ticket: nat)
    ensures var m := Run(Created(maxAttempts, false), [Join(call), AcceptAppend(call, ticket), AcceptMark(call)]);
            m.row.status == Accepted && m.redis.unacked == {ticket} && m.callers == NOBODY
  {
    var l, e := Created(maxAttempts, false), [Join(call), AcceptAppend(call, ticket), AcceptMark(call)];
    RunThree(l, e);
    var l1 := Next(l, e[0]);
    assert l1 == l.(callers := NOBODY.(accepting := {call}));
    var l2 := Next(l1, e[1]);
    assert l2.callers.enqueued == {call} && l2.callers.accepting == {} && l2.redis.unacked == {ticket};
    assert Next(l2, e[2]).callers.enqueued == {};
  }

  /** One round of the outbox does the same for a service delivery. */
  lemma OutboxDelivers(maxAttempts: nat, ticket: nat)
    ensures var m := Run(Created(maxAttempts, true), [EnqueueTake, EnqueueScript(ticket), EnqueueComplete]);
            m.row.status == Accepted && m.row.outbox.None? && m.redis.unacked == {ticket} && m.callers == NOBODY
  {
    var l, e := Created(maxAttempts, true), [EnqueueTake, EnqueueScript(ticket), EnqueueComplete];
    RunThree(l, e);
    var l1 := Next(l, e[0]);
    assert l1.callers.enqueuer == Taken(0);
    assert Next(l1, e[1]).redis.unacked == {ticket};
  }

  /** Reopened once, with a new entry; asking again finds it replayed. */
  predicate Revived(l: Lane, m: Lane, ticket: nat, call: nat) {
    && m.row.status == Accepted && m.row.dlq == Some(DlqRow(Replayed, ReplayCount(l.row) + 1))
    && m.row.nextAttempt.None? && m.redis == R.Replayed(l.redis, ReplayCount(l.row) + 1, ticket)
    && m.redis.unacked == l.redis.unacked + {ticket} && m.redis.dlqIndex.None?
    && Next(m, ReplayPrepare(call)) == m
  }

  /** The generation a replay opens has no entry yet. */
  lemma NewGeneration(l: Lane)
    requires Kept(l)
    ensures ReplayCount(l.row) + 1 !in l.redis.replays
  {
  }

  lemma IsRevived(l: Lane, m: Lane, ticket: nat, call: nat)
    requires ReplayCount(l.row) + 1 !in l.redis.replays && m.redis == R.Replayed(l.redis, ReplayCount(l.row) + 1, ticket)
    requires m.row.status == Accepted && m.row.nextAttempt.None?
    requires m.row.dlq == Some(DlqRow(Replayed, ReplayCount(l.row) + 1))
    ensures Revived(l, m, ticket, call)
  {
  }

  lemma PreparedRow(l: Lane, call: nat)
    requires Core(l) && l.row.status == DeadLettered && call !in l.callers.replays
    ensures var g, m := ReplayCount(l.row) + 1, Next(l, ReplayPrepare(call));
            && m.row == l.row.(status := ReplayPending, nextAttempt := None, dlq := Some(DlqRow(AwaitingReplay, g)),
                               outbox := if l.row.service then Some(g) else l.row.outbox)
            && m == l.(row := m.row, callers := l.callers.(replays := l.callers.replays[call := ReplayCall(g, false)]))
  {
  }

  /** A replay that is carried through brings a dead-lettered delivery back. */
  lemma ReplayRevives(l: Lane, call: nat, ticket: nat)
    requires Kept(l) && l.row.status == DeadLettered && call !in l.callers.replays && R.IsFresh(l.redis, ticket)
    ensures var m := Run(l, [ReplayPrepare(call), ReplayScript(call, ticket), ReplayComplete(call)]);
            Revived(l, m, ticket, call) && m.callers == l.callers
  {
    var g := ReplayCount(l.row) + 1;
    RunThree(l, [ReplayPrepare(call), ReplayScript(call, ticket), ReplayComplete(call)]);
    NewGeneration(l);
    PreparedRow(l, call);
    ScriptAndComplete(Next(l, ReplayPrepare(call)), call, ticket, g);
    assert l.callers.replays[call := ReplayCall(g, false)] - {call} == l.callers.replays;
    IsRevived(l, Next(Next(Next(l, ReplayPrepare(call)), ReplayScript(call, ticket)), ReplayComplete(call)), ticket, call);
  }

  lemma ScriptAndComplete(l: Lane, call: nat, ticket: nat, g: nat)
    requires call in l.callers.replays && l.callers.replays[call] == ReplayCall(g, false)
    requires R.IsFresh(l.redis, ticket) && g !in l.redis.replays
    requires l.row.status == ReplayPending && l.row.dlq == Some(DlqRow(AwaitingReplay, g))
    ensures var m := Next(Next(l, ReplayScript(call, ticket)), ReplayComplete(call));
            && m == l.(row := m.row, redis := R.Replayed(l.redis, g, ticket), callers := m.callers)
            && m.row == l.row.(status := Accepted, dlq := Some(DlqRow(Replayed, g)))
            && m.callers == l.callers.(replays := l.callers.replays - {call})
  {
    var l1 := Next(l, ReplayScript(call, ticket));
    assert l1.callers.replays - {call} == l.callers.replays - {call};
  }

  /** For a service delivery the outbox carries a replay through when its call is lost. */
  lemma OutboxRevives(l: Lane, call: nat, ticket: nat)
    requires Kept(l) && l.row.status == DeadLettered && l.row.service && l.callers.enqueuer == Idle
    requires call !in l.callers.replays && R.IsFresh(l.redis, ticket)
    ensures var lost := Run(l, [ReplayPrepare(call), ReplayLost(call)]);
            var m := Run(lost, [EnqueueTake, EnqueueScript(ticket), EnqueueComplete]);
            Revived(l, m, ticket, call) && m.row.outbox.None?
  {
    RunTwo(l, ReplayPrepare(call), ReplayLost(call));
    PreparedRow(l, call);
    NewGeneration(l);
    var lost := Run(l, [ReplayPrepare(call), ReplayLost(call)]);
    RunThree(lost, [EnqueueTake, EnqueueScript(ticket), EnqueueComplete]);
    EnqueueRound(lost, ticket, ReplayCount(l.row) + 1);
    IsRevived(l, Next(Next(Next(lost, EnqueueTake), EnqueueScript(ticket)), EnqueueComplete), ticket, call);
  }

  lemma EnqueueRound(l: Lane, ticket: nat, g: nat)
    requires l.callers.enqueuer == Idle && R.IsFresh(l.redis, ticket) && g > 0 && g !in l.redis.replays
    requires l.row.status == ReplayPending && l.row.dlq == Some(DlqRow(AwaitingReplay, g)) && l.row.outbox == Some(g)
    ensures var m := Next(Next(Next(l, EnqueueTake), EnqueueScript(ticket)), EnqueueComplete);
            && m.redis == R.Replayed(l.redis, g, ticket)
            && m.row == l.row.(status := Accepted, dlq := Some(DlqRow(Replayed, g)), outbox := None)
  {
    var l1 := Next(l, EnqueueTake);
    assert l1 == l.(callers := l.callers.(enqueuer := Taken(g)));
    var l2 := Next(l1, EnqueueScript(ticket));
    assert l2.callers.enqueuer == Queued(g) && l2.row == l.row;
  }

  /** A discard ends a dead-lettered delivery: no replay can be prepared any more. */
  lemma DiscardEnds(l: Lane, call: nat)
    requires Core(l)
    ensures var m := Next(l, Discard);
            if l.row.status == DeadLettered
            then m.row.status == Discarded && m.row.dlq == Some(DlqRow(Dropped, ReplayCount(l.row)))
                 && Next(m, ReplayPrepare(call)) == m
            else m == l
  {
  }
}
