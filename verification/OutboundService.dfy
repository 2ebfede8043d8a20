/** The gateway service: its accepting requests, outbox loop and single worker
    over one store and one queue. Each method is one atomic step of one of them
    and moves the delivery it names by exactly one event of OutboundLane. */
module OutboundService {
  import opened Prelude
  import opened OutboundLane
  import opened OutboundProofs
  import opened OutboundDelivery
  import S = OutboundStore
  import R = RedisQueue

  type Id = S.Id

  /** How deliveries begin: accepted from a request, or created for a recipient. */
  ghost predicate Newborn(l: Lane, maxAttempts: nat) {
    || l == Created(maxAttempts, true)
    || exists call :: l == CallerNext(Created(maxAttempts, false), Join(call))
  }

  lemma NewbornIsKept(l: Lane, maxAttempts: nat)
    requires maxAttempts > 0 && Newborn(l, maxAttempts)
    ensures Kept(l) && l.log == NOTHING
  {
  }

  datatype Busy = Busy(id: Id, pc: Worker)

  class Service {
    const store: S.Store
    const queue: R.Queue
    const maxAttempts: nat
    var worker: Option<Busy>
    var callers: map<Id, Callers>
    ghost var log: map<Id, History>

    constructor (store: S.Store, queue: R.Queue, maxAttempts: nat)
      requires store.Valid() && queue.Valid() && maxAttempts > 0
      ensures Valid() && this.store == store && this.queue == queue && this.maxAttempts == maxAttempts
      ensures forall id | id in store.deliveries ::
                View(id) == Lane(maxAttempts, store.RowOf(id), queue.View(id), Off, NOBODY, NOTHING)
    {
      this.store, this.queue, this.maxAttempts := store, queue, maxAttempts;
      worker, callers, log := None, map[], map[];
    }

    function CallersOf(id: Id): Callers
      reads this
    {
      if id in callers then callers[id] else NOBODY
    }

    ghost function WorkerOn(id: Id): Worker
      reads this
    {
      if worker.Some? && worker.value.id == id then worker.value.pc else Off
    }

    ghost function LogOf(id: Id): History
      reads this
    {
      if id in log then log[id] else NOTHING
    }

    /** Everything about one delivery, wherever it is kept. */
    ghost function View(id: Id): Lane
      requires id in store.deliveries
      reads this, store, queue
    {
      Lane(maxAttempts, store.RowOf(id), queue.View(id), WorkerOn(id), CallersOf(id), LogOf(id))
    }

    ghost predicate Valid()
      reads this, store, queue
    {
      && store.Valid() && queue.Valid() && maxAttempts > 0
      && (worker.Some? ==>
            && worker.value.id in store.deliveries && worker.value.pc != Off
            && worker.value.pc.entry in queue.View(worker.value.id).entries)
    }

    /** One delivery became l, the others stood still. */
    twostate predicate Became(id: Id, l: Lane)
      reads this, store, queue
    {
      && store.deliveries.Keys == old(store.deliveries.Keys) && id in store.deliveries
      && View(id) == l
      && (forall other | other in store.deliveries && other != id :: View(other) == old(View(other)))
    }

    ghost predicate AllKept()
      reads this, store, queue
    {
      forall id | id in store.deliveries :: Kept(View(id))
    }

    /** Steps whose replay completions are of the current generation keep every
        delivery of the gateway safe and undropped. */
    twostate lemma StepKeepsAll(id: Id, e: Event)
      requires old(AllKept()) && id in old(store.deliveries) && Became(id, Next(old(View(id)), e))
      requires CurrentGeneration(old(View(id)), e)
      ensures AllKept()
    {
      KeptStep(old(View(id)), e);
    }

    /** Whatever the operator does, no delivery is ever sent twice. */
    twostate lemma StepSendsOnce(id: Id, e: Event)
      requires old(forall d | d in store.deliveries :: Core(View(d)))
      requires id in old(store.deliveries) && Became(id, Next(old(View(id)), e))
      ensures forall d | d in store.deliveries :: Core(View(d)) && View(d).log.landed <= 1
    {
      CoreStep(old(View(id)), e);
    }

    /** A delivery came into being as l; the others stood still. */
    twostate predicate Arrived(id: Id, l: Lane)
      reads this, store, queue
    {
      && id !in old(store.deliveries) && store.deliveries.Keys == old(store.deliveries.Keys) + {id}
      && View(id) == l
      && (forall other | other in old(store.deliveries) :: View(other) == old(View(other)))
    }

    /** A delivery that has just come into being is safe and undropped, and every
        other one stays so. */
    twostate lemma ArrivalKeepsAll(id: Id, l: Lane)
      requires old(AllKept()) && maxAttempts > 0 && Arrived(id, l) && Newborn(l, maxAttempts)
      ensures AllKept()
    {
      NewbornIsKept(l, maxAttempts);
    }

    twostate lemma ArrivalSendsNothing(id: Id, l: Lane)
      requires old(forall d | d in store.deliveries :: Core(View(d)))
      requires maxAttempts > 0 && Arrived(id, l) && Newborn(l, maxAttempts)
      ensures forall d | d in store.deliveries :: Core(View(d)) && View(d).log.landed <= 1
      ensures View(id).log.calls == 0
    {
      NewbornIsKept(l, maxAttempts);
    }

    // ---------------------------------------------------------------- accepting

    /** accept, up to the queue append: a repeated key joins its delivery. */
    method Accept(call: nat, key: S.Key, payloadHash: nat, newId: Id) returns (r: Result<Id, S.CreateError>)
      requires Valid() && newId !in store.deliveries
      requires queue.View(newId) == R.EMPTY && newId !in callers && newId !in log
      modifies this`callers, store
      ensures Valid()
      ensures r.Err? ==> unchanged(this) && unchanged(store)
      ensures r.Ok? && r.value != newId ==>
                && r.value in old(store.deliveries) && key in old(store.keys) && old(store.keys)[key] == r.value
                && Became(r.value, CallerNext(old(View(store.keys[key])), Join(call)))
      ensures r == Ok(newId) ==>
                && key !in old(store.keys) && store.keys == old(store.keys)[key := newId]
                && Arrived(newId, CallerNext(Created(maxAttempts, false), Join(call)))
    {
      r := store.CreateGatewayOutboundDelivery(key, payloadHash, newId);
      if r.Ok? {
        var k := CallersOf(r.value);
        callers := callers[r.value := k.(accepting := k.accepting + {call})];
      }
    }

    /** createServiceDeliveries for one recipient. */
    method CreateForRecipient(payloadHash: nat, newId: Id)
      requires Valid() && newId !in store.deliveries
      requires queue.View(newId) == R.EMPTY && newId !in callers && newId !in log
      modifies store
      ensures Valid() && Arrived(newId, Created(maxAttempts, true))
    {
      store.CreateServiceDelivery(payloadHash, newId);
    }

    method AppendAccepted(id: Id, call: nat)
      requires Valid() && id in store.deliveries && call in CallersOf(id).accepting
      modifies this`callers, queue
      ensures Valid() && Became(id, CallerNext(old(View(id)), AcceptAppend(call, |old(queue.stream)|)))
    {
      var k := CallersOf(id);
      queue.FreshAtEnd(id);
      var _ := queue.AppendOnce(id);
      callers := callers[id := k.(accepting := k.accepting - {call}, enqueued := k.enqueued + {call})];
    }

    method MarkAcceptedCall(id: Id, call: nat)
      requires Valid() && id in store.deliveries && call in CallersOf(id).enqueued
      modifies this`callers, store
      ensures Valid() && Became(id, CallerNext(old(View(id)), AcceptMark(call)))
    {
      var k := CallersOf(id);
      store.MarkGatewayDeliveryAccepted(id);
      callers := callers[id := k.(enqueued := k.enqueued - {call})];
    }

    // ------------------------------------------------------------ service outbox

    method TakeServiceEnqueue(id: Id)
      requires Valid() && id in store.deliveries && id in store.outbox && CallersOf(id).enqueuer == Idle
      modifies this`callers
      ensures Valid() && Became(id, CallerNext(old(View(id)), EnqueueTake))
    {
      var generation := store.PendingServiceEnqueue(id);
      callers := callers[id := CallersOf(id).(enqueuer := Taken(generation))];
    }

    method RunServiceEnqueue(id: Id)
      requires Valid() && id in store.deliveries && CallersOf(id).enqueuer.Taken?
      modifies this`callers, queue
      ensures Valid() && Became(id, CallerNext(old(View(id)), EnqueueScript(|old(queue.stream)|)))
    {
      var k := CallersOf(id);
      var g := k.enqueuer.generation;
      queue.FreshAtEnd(id);
      AppendOrReplay(id, g);
      callers := callers[id := k.(enqueuer := Queued(g))];
    }

    /** Generation zero is the original append, later ones are DLQ replays. */
    method AppendOrReplay(id: Id, generation: nat)
      requires queue.Valid()
      modifies queue
      ensures queue.Valid() && |queue.stream| >= |old(queue.stream)|
      ensures queue.View(id) == if generation == 0 then R.Appended(old(queue.View(id)), |old(queue.stream)|)
                                else R.Replayed(old(queue.View(id)), generation, |old(queue.stream)|)
      ensures forall other | other != id :: queue.View(other) == old(queue.View(other))
    {
      if generation == 0 {
        var _ := queue.AppendOnce(id);
      } else {
        var _ := queue.ReplayFromDlq(id, generation);
      }
    }

    method FinishServiceEnqueue(id: Id)
      requires Valid() && id in store.deliveries && CallersOf(id).enqueuer.Queued?
      modifies this`callers, store
      ensures Valid() && Became(id, CallerNext(old(View(id)), EnqueueComplete))
    {
      var k := CallersOf(id);
      store.CompleteServiceEnqueue(id, k.enqueuer.generation);
      callers := callers[id := k.(enqueuer := Idle)];
    }

    // ------------------------------------------------------------------ operator

    /** ReplayDLQ up to the queue script. */
    method PrepareReplayCall(id: Id, call: nat) returns (r: S.Prepared)
      requires Valid() && id in store.deliveries && call !in CallersOf(id).replays
      modifies this`callers, store
      ensures Valid() && Became(id, OperatorNext(old(View(id)), ReplayPrepare(call)))
    {
      var k := CallersOf(id);
      ghost var l := View(id);
      r := store.PrepareGatewayDLQReplay(id);
      assert r.Pending? <==> Replayable(l.row);
      if r.Pending? {
        assert r.generation == ReplayCount(PrepareReplay(l.row));
        callers := callers[id := k.(replays := k.replays[call := ReplayCall(r.generation, false)])];
      }
    }

    method ReplayFromDLQ(id: Id, call: nat)
      requires Valid() && id in store.deliveries
      requires call in CallersOf(id).replays && !CallersOf(id).replays[call].queued
      modifies this`callers, queue
      ensures Valid() && Became(id, OperatorNext(old(View(id)), ReplayScript(call, |old(queue.stream)|)))
    {
      var k := CallersOf(id);
      queue.FreshAtEnd(id);
      var _ := queue.ReplayFromDlq(id, k.replays[call].generation);
      callers := callers[id := k.(replays := k.replays[call := k.replays[call].(queued := true)])];
    }

    method CompleteReplayCall(id: Id, call: nat)
      requires Valid() && id in store.deliveries && call in CallersOf(id).replays && CallersOf(id).replays[call].queued
      modifies this`callers, store
      ensures Valid() && Became(id, OperatorNext(old(View(id)), ReplayComplete(call)))
    {
      var k := CallersOf(id);
      store.CompleteGatewayDLQReplay(id);
      callers := callers[id := k.(replays := k.replays - {call})];
    }

    method DiscardDLQ(id: Id)
      requires Valid() && id in store.deliveries
      modifies store
      ensures Valid() && Became(id, OperatorNext(old(View(id)), Discard))
    {
      store.DiscardGatewayDLQ(id);
    }

    // -------------------------------------------------------------------- worker

    /** processOutbound up to the first decision that writes. */
    method LoadEntry(id: Id, entry: nat, now: int)
      requires Valid() && id in store.deliveries && worker.None? && entry in queue.View(id).unacked
      modifies this`worker
      ensures Valid() && Became(id, WorkerNext(old(View(id)), Load(entry, now)))
    {
      var d := store.deliveries[id];
      if d.status == Succeeded || d.status == Reconciling {
        worker := Some(Busy(id, Acking(entry)));
      } else if d.status == DeadLettered {
        worker := Some(Busy(id, Moving(entry)));
      } else if d.status == Processing {
        worker := Some(Busy(id, Orphan(entry)));
      } else if d.status != PendingEnqueue && !(d.nextAttempt.Some? && now < d.nextAttempt.value) {
        worker := Some(Busy(id, Loaded(entry)));
      }
    }

    method DeadLetter()
      requires Valid() && worker.Some? && MayBury(View(worker.value.id))
      modifies this`worker, store
      ensures Valid() && Became(old(worker).value.id, WorkerNext(old(View(worker.value.id)), Bury))
    {
      var id, entry := worker.value.id, worker.value.pc.entry;
      store.MarkGatewayDeliveryDeadLettered(id);
      worker := Some(Busy(id, Moving(entry)));
    }

    method HoldForGate(until: int)
      requires Valid() && worker.Some? && worker.value.pc.Loaded?
      modifies this`worker, this`log, store
      ensures Valid() && Became(old(worker).value.id, WorkerNext(old(View(worker.value.id)), GateClosed(until)))
    {
      var id := worker.value.id;
      if store.deliveries[id].status == Discarded {
        log := log[id := LogOf(id).(revived := LogOf(id).revived + 1)];
      }
      store.MarkGatewayDeliveryRetrying(id, until);
      worker := None;
    }

    method BeginAttemptStep()
      requires Valid() && worker.Some? && worker.value.pc.Loaded?
      modifies this`worker, store
      ensures Valid() && Became(old(worker).value.id, WorkerNext(old(View(worker.value.id)), Begin))
    {
      var id, entry := worker.value.id, worker.value.pc.entry;
      var attempt := store.BeginGatewayDeliveryAttempt(id);
      worker := if attempt.Some? then Some(Busy(id, Begun(entry, attempt.value))) else None;
    }

    method CallTelegram()
      requires Valid() && worker.Some? && worker.value.pc.Begun?
      modifies this`worker, this`log
      ensures Valid() && Became(old(worker).value.id, WorkerNext(old(View(worker.value.id)), Call))
    {
      var id, pc := worker.value.id, worker.value.pc;
      log := log[id := LogOf(id).(calls := LogOf(id).calls + 1)];
      worker := Some(Busy(id, Calling(pc.entry, pc.attempt)));
    }

    method TelegramReturned(outcome: Outcome)
      requires Valid() && worker.Some? && worker.value.pc.Calling?
      modifies this`worker, this`log
      ensures Valid() && Became(old(worker).value.id, WorkerNext(old(View(worker.value.id)), Return(outcome)))
    {
      var id, pc := worker.value.id, worker.value.pc;
      log := log[id := Heard(LogOf(id), outcome)];
      var next: Worker;
      match outcome {
        case Success => next := Delivered(pc.entry, pc.attempt);
        case AmbiguousOutcome => next := Ambiguous(pc.entry);
        case DefiniteTransient => next := Transient(pc.entry, pc.attempt);
        case Permanent => next := Rejected(pc.entry);
      }
      worker := Some(Busy(id, next));
    }

    method RecordSuccess()
      requires Valid() && worker.Some? && worker.value.pc.Delivered?
      modifies this`worker, store
      ensures Valid() && Became(old(worker).value.id, WorkerNext(old(View(worker.value.id)), SaveSuccess))
    {
      var id, entry := worker.value.id, worker.value.pc.entry;
      store.MarkGatewayDeliverySucceeded(id);
      worker := Some(Busy(id, Acking(entry)));
    }

    method RecordRetry(at: int)
      requires Valid() && worker.Some? && worker.value.pc.Transient? && worker.value.pc.attempt < maxAttempts
      modifies this`worker, store
      ensures Valid() && Became(old(worker).value.id, WorkerNext(old(View(worker.value.id)), SaveRetry(at)))
    {
      store.MarkGatewayDeliveryRetrying(worker.value.id, at);
      worker := None;
    }

    method RecordReconciling()
      requires Valid() && worker.Some? && (worker.value.pc.Ambiguous? || worker.value.pc.Orphan?)
      modifies this`worker, store
      ensures Valid() && Became(old(worker).value.id, WorkerNext(old(View(worker.value.id)), Reconcile))
    {
      var id, entry := worker.value.id, worker.value.pc.entry;
      store.MarkGatewayDeliveryReconciling(id);
      worker := Some(Busy(id, Acking(entry)));
    }

    method AckEntry()
      requires Valid() && worker.Some? && worker.value.pc.Acking?
      modifies this`worker, queue
      ensures Valid() && Became(old(worker).value.id, WorkerNext(old(View(worker.value.id)), Ack))
    {
      queue.Ack(worker.value.id, worker.value.pc.entry);
      worker := None;
    }

    method MoveEntryToDlq()
      requires Valid() && worker.Some? && worker.value.pc.Moving?
      modifies this`worker, queue
      ensures Valid() && Became(old(worker).value.id, WorkerNext(old(View(worker.value.id)), Move(|old(queue.dlq)|)))
    {
      queue.MoveToDlqAndAck(worker.value.id, worker.value.pc.entry);
      worker := None;
    }

    /** The process dies; an open Telegram call may have gone through. */
    method CrashWorker()
      requires Valid() && worker.Some?
      modifies this`worker, this`log
      ensures Valid() && Became(old(worker).value.id, WorkerNext(old(View(worker.value.id)), Crash))
    {
      var id := worker.value.id;
      if worker.value.pc.Calling? {
        log := log[id := LogOf(id).(landed := LogOf(id).landed + 1)];
      }
      worker := None;
    }
  }
}
