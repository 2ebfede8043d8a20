/** No accepted delivery is lost: it keeps an unacknowledged stream entry. */
module OutboundDelivery {
  import opened Prelude
  import opened OutboundLane
  import opened OutboundProofs
  import R = RedisQueue

  /** The entry the worker is about to take off the stream. */
  function Finishing(w: Worker): set<nat> {
    if w.Acking? || w.Moving? then {w.entry} else {}
  }

  /** Entries that will still be there when the worker is done with its own. */
  function Remaining(l: Lane): set<nat> {
    l.redis.unacked - Finishing(l.worker)
  }

  predicate EnqueuerKnows(l: Lane) {
    match l.callers.enqueuer
    case Idle => true
    case Taken(g) => g <= ReplayCount(l.row)
    case Queued(g) =>
      g <= ReplayCount(l.row) && (if g == 0 then l.redis.entries != [] else g in l.redis.replays)
  }

  predicate ReplaysKnow(l: Lane) {
    && (forall g | g in l.redis.replays :: 0 < g <= ReplayCount(l.row))
    && (forall c | c in l.callers.replays ::
          var call := l.callers.replays[c];
          0 < call.generation <= ReplayCount(l.row) && (call.queued ==> call.generation in l.redis.replays))
  }

  predicate Kept(l: Lane) {
    Core(l) && Held(l)
  }

  predicate Held(l: Lane) {
    && R.SliceInv(l.redis)
    && (l.worker != Off ==> l.worker.entry in l.redis.unacked)
    && (Live(l.row.status) ==> Remaining(l) != {})
    && (l.row.status == PendingEnqueue ==>
          l.worker == Off && forall e | e in l.redis.entries :: e in l.redis.unacked)
    && (l.callers.enqueued != {} ==> l.redis.entries != [])
    && EnqueuerKnows(l)
    && ReplaysKnow(l)
    && (l.row.status == ReplayPending && ReplayCount(l.row) in l.redis.replays ==>
          l.redis.replays[ReplayCount(l.row)] in Remaining(l))
  }

  /** CompleteGatewayDLQReplay does not check it, CompleteServiceEnqueue does:
      the call that completes is the one whose entry this replay waits for. */
  predicate CurrentGeneration(l: Lane, e: Event) {
    e.ReplayComplete? && e.call in l.callers.replays && l.callers.replays[e.call].queued && l.row.status == ReplayPending ==>
      l.callers.replays[e.call].generation == ReplayCount(l.row)
  }

  /** The facts of Core that the queue argument needs. */
  predicate Known(l: Lane) {
    Ledger(l.row) && OutboxRow(l.row) && Position(l.worker, l.row, l.log)
  }

  lemma AppendHolds(l: Lane, m: Lane, ticket: nat)
    requires Held(l) && R.IsFresh(l.redis, ticket)
    requires m.redis == R.Appended(l.redis, ticket) && m.row == l.row && m.worker == l.worker
    requires m.callers.replays == l.callers.replays
    requires m.callers.enqueuer == l.callers.enqueuer || m.callers.enqueuer == Queued(0)
    ensures Held(m)
  {
    R.AppendedKeeps(l.redis, ticket);
    assert Remaining(l) <= Remaining(m);
  }

  lemma ReplayHolds(l: Lane, m: Lane, g: nat, ticket: nat)
    requires Held(l) && Ledger(l.row) && R.IsFresh(l.redis, ticket) && 0 < g <= ReplayCount(l.row)
    requires m.redis == R.Replayed(l.redis, g, ticket) && m.row == l.row && m.worker == l.worker
    requires m.callers.enqueued == l.callers.enqueued
    requires m.callers.enqueuer == l.callers.enqueuer || m.callers.enqueuer == Queued(g)
    requires forall c | c in m.callers.replays :: c in l.callers.replays
               && m.callers.replays[c].generation == l.callers.replays[c].generation
               && (m.callers.replays[c].queued ==> l.callers.replays[c].queued || m.callers.replays[c].generation == g)
    ensures Held(m)
  {
    R.ReplayedKeeps(l.redis, g, ticket);
    assert Remaining(l) <= Remaining(m);
    if g !in l.redis.replays { assert ticket !in l.redis.entries; }
  }

  lemma HeldByAppend(l: Lane, e: Event)
    requires Known(l) && Held(l) && (e.AcceptAppend? || e.EnqueueScript?)
    ensures Held(CallerNext(l, e))
  {
    var m := CallerNext(l, e);
    if m != l {
      if e.EnqueueScript? && l.callers.enqueuer.generation > 0 {
        ReplayHolds(l, m, l.callers.enqueuer.generation, e.ticket);
      } else {
        AppendHolds(l, m, e.ticket);
      }
    }
  }

  lemma HeldByMark(l: Lane, c: nat)
    requires Known(l) && Held(l)
    ensures Held(CallerNext(l, AcceptMark(c)))
  {
    var m := CallerNext(l, AcceptMark(c));
    if l.row.status == PendingEnqueue && m.row.status == Accepted {
      assert l.redis.entries[0] in Remaining(m);
    } else {
      assert Remaining(m) == Remaining(l);
    }
  }

  lemma HeldByEnqueue(l: Lane)
    requires Known(l) && Held(l)
    ensures Held(CallerNext(l, EnqueueComplete))
  {
    var m := CallerNext(l, EnqueueComplete);
    if l.row.status == PendingEnqueue && m.row.status == Accepted {
      assert l.redis.entries[0] in Remaining(m);
    } else {
      assert Remaining(m) == Remaining(l);
    }
  }

  lemma HeldByBystander(l: Lane, e: Event)
    requires Known(l) && Held(l) && (e.Join? || e.AcceptLost? || e.EnqueueTake? || e.EnqueueLost?)
    ensures Held(CallerNext(l, e))
  {
    assert Remaining(CallerNext(l, e)) == Remaining(l);
  }

  lemma HeldByCaller(l: Lane, e: Event)
    requires Known(l) && Held(l) && ByCaller(e)
    ensures Held(CallerNext(l, e))
  {
    if e.AcceptAppend? || e.EnqueueScript? { HeldByAppend(l, e); }
    else if e.AcceptMark? { HeldByMark(l, e.call); }
    else if e.EnqueueComplete? { HeldByEnqueue(l); }
    else { HeldByBystander(l, e); }
  }

  lemma HeldByPrepare(l: Lane, c: nat)
    requires Known(l) && Held(l)
    ensures Held(OperatorNext(l, ReplayPrepare(c)))
  {
    var m := OperatorNext(l, ReplayPrepare(c));
    assert Remaining(m) == Remaining(l);
  }

  lemma HeldByComplete(l: Lane, c: nat)
    requires Known(l) && Held(l) && CurrentGeneration(l, ReplayComplete(c))
    ensures Held(OperatorNext(l, ReplayComplete(c)))
  {
    var m := OperatorNext(l, ReplayComplete(c));
    assert Remaining(m) == Remaining(l);
  }

  lemma HeldByScript(l: Lane, c: nat, ticket: nat)
    requires Known(l) && Held(l)
    ensures Held(OperatorNext(l, ReplayScript(c, ticket)))
  {
    var m := OperatorNext(l, ReplayScript(c, ticket));
    if m != l { ReplayHolds(l, m, l.callers.replays[c].generation, ticket); }
  }

  lemma HeldByLoss(l: Lane, e: Event)
    requires Known(l) && Held(l) && (e.ReplayLost? || e.Discard?)
    ensures Held(OperatorNext(l, e))
  {
    assert Remaining(OperatorNext(l, e)) == Remaining(l);
  }

  lemma HeldByOperator(l: Lane, e: Event)
    requires Known(l) && Held(l) && ByOperator(e) && CurrentGeneration(l, e)
    ensures Held(OperatorNext(l, e))
  {
    if e.ReplayScript? { HeldByScript(l, e.call, e.ticket); }
    else if e.ReplayPrepare? { HeldByPrepare(l, e.call); }
    else if e.ReplayComplete? { HeldByComplete(l, e.call); }
    else { HeldByLoss(l, e); }
  }

  /** The worker moved and the row changed, Redis did not. */
  lemma HeldElsewhere(l: Lane, m: Lane)
    requires Held(l) && m.redis == l.redis && m.callers == l.callers
    requires ReplayCount(m.row) == ReplayCount(l.row)
    requires m.worker != Off ==> m.worker.entry in l.redis.unacked
    requires Live(m.row.status) ==> Remaining(m) != {}
    requires m.row.status == PendingEnqueue ==> l.row.status == PendingEnqueue && m.worker == Off
    requires m.row.status == ReplayPending ==> l.row.status == ReplayPending && Finishing(m.worker) <= Finishing(l.worker)
    ensures Held(m)
  {
  }

  lemma HeldByAck(l: Lane)
    requires Known(l) && Held(l)
    ensures Held(WorkerNext(l, Ack))
  {
    assert Remaining(WorkerNext(l, Ack)) == Remaining(l);
  }

  lemma HeldByMove(l: Lane, dead: nat)
    requires Known(l) && Held(l)
    ensures Held(WorkerNext(l, Move(dead)))
  {
    assert Remaining(WorkerNext(l, Move(dead))) == Remaining(l);
  }

  lemma HeldByLoad(l: Lane, e: Event)
    requires Known(l) && Held(l) && !ByCaller(e) && !ByOperator(e) && l.worker == Off
    ensures Held(WorkerNext(l, e))
  {
    var m := WorkerNext(l, e);
    assert Remaining(l) == l.redis.unacked;
    HeldElsewhere(l, m);
  }

  lemma HeldByBusy(l: Lane, e: Event)
    requires Known(l) && Held(l) && !ByCaller(e) && !ByOperator(e) && !e.Ack? && !e.Move? && l.worker != Off
    ensures Held(WorkerNext(l, e))
  {
    var m := WorkerNext(l, e);
    if m != l {
      assert Finishing(m.worker) == {} ==> l.worker.entry in Remaining(m);
      HeldElsewhere(l, m);
    }
  }

  lemma HeldByWorker(l: Lane, e: Event)
    requires Known(l) && Held(l) && !ByCaller(e) && !ByOperator(e)
    ensures Held(WorkerNext(l, e))
  {
    if e.Ack? { HeldByAck(l); }
    else if e.Move? { HeldByMove(l, e.dead); }
    else if l.worker == Off { HeldByLoad(l, e); }
    else { HeldByBusy(l, e); }
  }

  lemma KeptStep(l: Lane, e: Event)
    requires Kept(l) && CurrentGeneration(l, e)
    ensures Kept(Next(l, e))
  {
    CoreStep(l, e);
    if ByCaller(e) { HeldByCaller(l, e); }
    else if ByOperator(e) { HeldByOperator(l, e); }
    else { HeldByWorker(l, e); }
  }

  predicate GenerationsChecked(l: Lane, events: seq<Event>)
    decreases |events|
  {
    events == [] || (CurrentGeneration(l, events[0]) && GenerationsChecked(Next(l, events[0]), events[1..]))
  }

  lemma {:induction false} KeptRun(l: Lane, events: seq<Event>)
    requires Kept(l) && GenerationsChecked(l, events)
    ensures Kept(Run(l, events))
    decreases |events|
  {
    if events != [] {
      KeptStep(l, events[0]);
      KeptRun(Next(l, events[0]), events[1..]);
    }
  }

  // ------------------------------------------------ one ReplayDLQ call at a time

  /** No ReplayDLQ call prepares while another one on this delivery is in flight. */
  predicate Serial(l: Lane, events: seq<Event>)
    decreases |events|
  {
    events == []
    || ((events[0].ReplayPrepare? ==> l.callers.replays == map[]) && Serial(Next(l, events[0]), events[1..]))
  }

  predicate AllCurrent(l: Lane) {
    l.row.status == ReplayPending ==>
      forall c | c in l.callers.replays :: l.callers.replays[c].generation == ReplayCount(l.row)
  }

  lemma AllCurrentStep(l: Lane, e: Event)
    requires Core(l) && AllCurrent(l) && (e.ReplayPrepare? ==> l.callers.replays == map[])
    ensures AllCurrent(Next(l, e))
    ensures CurrentGeneration(l, e)
  {
    if !ByOperator(e) && !ByCaller(e) { assert WorkerNext(l, e).callers == l.callers; }
  }

  lemma {:induction false} SerialIsChecked(l: Lane, events: seq<Event>)
    requires Core(l) && AllCurrent(l) && Serial(l, events)
    ensures GenerationsChecked(l, events)
    decreases |events|
  {
    if events != [] {
      CoreStep(l, events[0]);
      AllCurrentStep(l, events[0]);
      SerialIsChecked(Next(l, events[0]), events[1..]);
    }
  }

  /** With one ReplayDLQ call at a time, over every run with losses of any
      process: a live delivery keeps an unacknowledged entry, and a service
      delivery that waits for one keeps its outbox row of that generation. */
  lemma NothingIsLost(maxAttempts: nat, service: bool, events: seq<Event>)
    requires maxAttempts > 0 && Serial(Created(maxAttempts, service), events)
    ensures var l := Run(Created(maxAttempts, service), events);
            && (Live(l.row.status) ==> l.redis.unacked != {})
            && (forall e | e in l.redis.unacked :: e in l.redis.entries)
            && (service && (l.row.status == PendingEnqueue || l.row.status == ReplayPending) ==>
                  l.row.outbox == Some(ReplayCount(l.row)))
  {
    var l := Created(maxAttempts, service);
    SerialIsChecked(l, events);
    KeptRun(l, events);
    ServiceIsFixed(l, events);
  }

  /** The outbox half needs no such discipline. */
  lemma OutboxWaits(maxAttempts: nat, events: seq<Event>)
    requires maxAttempts > 0
    ensures var l := Run(Created(maxAttempts, true), events);
            l.row.status == PendingEnqueue || l.row.status == ReplayPending ==>
              l.row.outbox == Some(ReplayCount(l.row))
  {
    CoreRun(Created(maxAttempts, true), events);
    ServiceIsFixed(Created(maxAttempts, true), events);
  }

  lemma {:induction false} ServiceIsFixed(l: Lane, events: seq<Event>)
    ensures Run(l, events).row.service == l.row.service
    decreases |events|
  {
    if events != [] {
      ServiceIsFixed(Next(l, events[0]), events[1..]);
    }
  }

  // --------------------------------------------------- two calls that overlap

  /** Completing with an older generation keeps an entry for the delivery
      exactly when some other entry was left over. */
  lemma StaleCompletion(l: Lane, c: nat)
    requires Kept(l) && l.row.status == ReplayPending && c in l.callers.replays && l.callers.replays[c].queued
    requires l.callers.replays[c].generation != ReplayCount(l.row)
    ensures Live(Next(l, ReplayComplete(c)).row.status)
    ensures Kept(Next(l, ReplayComplete(c))) <==> Remaining(l) != {}
  {
    var m := Next(l, ReplayComplete(c));
    CoreStep(l, ReplayComplete(c));
    assert Remaining(m) == Remaining(l);
  }

  /** Any one event of any process keeps the delivery undropped if and only if it
      completes no outdated generation or leaves an entry that would remain. */
  lemma KeptExactly(l: Lane, e: Event)
    requires Kept(l)
    ensures Kept(Next(l, e)) <==> CurrentGeneration(l, e) || Remaining(l) != {}
  {
    if CurrentGeneration(l, e) {
      KeptStep(l, e);
    } else {
      StaleCompletion(l, e.call);
    }
  }

  /** Accepted, with nothing left that would ever bring it to the worker. */
  predicate Stranded(l: Lane) {
    && l.row.status == Accepted && !l.row.service && l.row.outbox.None?
    && l.row.dlq.Some? && l.row.dlq.value.state == Replayed
    && l.redis.unacked == {} && l.redis.index.Some?
    && l.worker == Off && l.callers.replays == map[] && l.callers.enqueuer == Idle
  }

  lemma {:induction false} StrandedForEver(l: Lane, events: seq<Event>)
    requires Stranded(l)
    ensures Stranded(Run(l, events))
    ensures Run(l, events).log.calls == l.log.calls
    decreases |events|
  {
    if events != [] {
      StrandedForEver(Next(l, events[0]), events[1..]);
    }
  }

  const BURY := [Load(0, 0), Bury, Move(0)]
  const TWO_CALLS := [ReplayPrepare(1), ReplayPrepare(2), ReplayScript(1, 1)]
  const FIRST_DONE := [ReplayComplete(1), ReplayScript(2, 2), Load(1, 0)]
  const BURY_AGAIN := [Bury, Move(1), ReplayPrepare(3)]
  const SECOND_DONE := [ReplayComplete(2), ReplayLost(3), GiveUp]

  function DlqRowOf(status: Status, state: DlqState, count: nat): Row {
    Row(false, status, 0, [], None, Some(DlqRow(state, count)), None)
  }

  lemma BuriedOnce(l: Lane)
    requires l.worker == Off && l.redis == R.Slice([0], {0}, Some(0), map[], [], None)
    requires l.row == CreatedRow(false).(status := Accepted) && l.callers == NOBODY
    ensures var m := Run(l, BURY);
            && m.worker == Off && m.redis == R.Slice([0], {}, Some(0), map[], [0], Some(0))
            && m.row == DlqRowOf(DeadLettered, Active, 0) && m.callers == NOBODY
  {
    RunThree(l, BURY);
    var l1 := Next(l, BURY[0]);
    assert l1 == l.(worker := Loaded(0));
    var l2 := Next(l1, BURY[1]);
    assert l2 == l1.(worker := Moving(0), row := DlqRowOf(DeadLettered, Active, 0));
    assert l.redis.unacked - {0} == {};
  }

  lemma TwoCallsOnce(l: Lane)
    requires l.worker == Off && l.redis == R.Slice([0], {}, Some(0), map[], [0], Some(0))
    requires l.row == DlqRowOf(DeadLettered, Active, 0) && l.callers == NOBODY
    ensures var m := Run(l, TWO_CALLS);
            && m.worker == Off && m.redis == R.Slice([0, 1], {1}, Some(1), map[1 := 1], [0], None)
            && m.row == DlqRowOf(ReplayPending, AwaitingReplay, 1)
            && m.callers == NOBODY.(replays := map[1 := ReplayCall(1, true), 2 := ReplayCall(1, false)])
  {
    RunThree(l, TWO_CALLS);
    var l1 := Next(l, TWO_CALLS[0]);
    assert l1.row == DlqRowOf(ReplayPending, AwaitingReplay, 1) && l1.callers.replays == map[1 := ReplayCall(1, false)];
    var l2 := Next(l1, TWO_CALLS[1]);
    assert l2 == l1.(callers := NOBODY.(replays := map[1 := ReplayCall(1, false), 2 := ReplayCall(1, false)]));
    assert R.IsFresh(l2.redis, 1);
  }

  lemma FirstDoneOnce(l: Lane)
    requires l.worker == Off && l.redis == R.Slice([0, 1], {1}, Some(1), map[1 := 1], [0], None)
    requires l.row == DlqRowOf(ReplayPending, AwaitingReplay, 1)
    requires l.callers == NOBODY.(replays := map[1 := ReplayCall(1, true), 2 := ReplayCall(1, false)])
    ensures var m := Run(l, FIRST_DONE);
            && m.worker == Loaded(1) && m.redis == l.redis
            && m.row == DlqRowOf(Accepted, Replayed, 1)
            && m.callers == NOBODY.(replays := map[2 := ReplayCall(1, true)])
  {
    RunThree(l, FIRST_DONE);
    assert l.callers.replays - {1} == map[2 := ReplayCall(1, false)];
    var l1 := Next(l, FIRST_DONE[0]);
    assert l1 == l.(row := DlqRowOf(Accepted, Replayed, 1), callers := NOBODY.(replays := map[2 := ReplayCall(1, false)]));
    assert R.IsFresh(l1.redis, 2);
    var l2 := Next(l1, FIRST_DONE[1]);
    assert l2 == l1.(callers := NOBODY.(replays := map[2 := ReplayCall(1, true)]));
  }

  lemma BuriedAgain(l: Lane)
    requires l.worker == Loaded(1) && l.redis == R.Slice([0, 1], {1}, Some(1), map[1 := 1], [0], None)
    requires l.row == DlqRowOf(Accepted, Replayed, 1)
    requires l.callers == NOBODY.(replays := map[2 := ReplayCall(1, true)])
    ensures var m := Run(l, BURY_AGAIN);
            && m.worker == Off && m.redis == R.Slice([0, 1], {}, Some(1), map[1 := 1], [0, 1], Some(1))
            && m.row == DlqRowOf(ReplayPending, AwaitingReplay, 2)
            && m.callers == NOBODY.(replays := map[2 := ReplayCall(1, true), 3 := ReplayCall(2, false)])
  {
    RunThree(l, BURY_AGAIN);
    var l1 := Next(l, BURY_AGAIN[0]);
    assert l1 == l.(worker := Moving(1), row := DlqRowOf(DeadLettered, Active, 1));
    assert l.redis.unacked - {1} == {};
    var l2 := Next(l1, BURY_AGAIN[1]);
    assert l2.redis == R.Slice([0, 1], {}, Some(1), map[1 := 1], [0, 1], Some(1)) && l2.worker == Off;
  }

  lemma SecondDoneStrands(l: Lane)
    requires l.worker == Off && l.redis == R.Slice([0, 1], {}, Some(1), map[1 := 1], [0, 1], Some(1))
    requires l.row == DlqRowOf(ReplayPending, AwaitingReplay, 2)
    requires l.callers == NOBODY.(replays := map[2 := ReplayCall(1, true), 3 := ReplayCall(2, false)])
    ensures Stranded(Run(l, SECOND_DONE))
  {
    RunThree(l, SECOND_DONE);
    var l1 := Next(l, SECOND_DONE[0]);
    assert l1.row == DlqRowOf(Accepted, Replayed, 2) && l1.callers.replays == map[3 := ReplayCall(2, false)];
    var l2 := Next(l1, SECOND_DONE[1]);
    assert l2.callers.replays == map[];
  }

  /** Three ReplayDLQ calls, of which two overlap and the last is lost, strand
      an accepted delivery for ever: NothingIsLost needs its discipline. */
  lemma OverlapStrands()
    ensures Stranded(Run(Created(1, false), ACCEPT + BURY + TWO_CALLS + FIRST_DONE + BURY_AGAIN + SECOND_DONE))
  {
    var l0 := Created(1, false);
    AcceptedOnce(l0);
    AcceptedRedis();
    BuriedOnce(Run(l0, ACCEPT));
    RunAppends(l0, ACCEPT, BURY);
    TwoCallsOnce(Run(l0, ACCEPT + BURY));
    RunAppends(l0, ACCEPT + BURY, TWO_CALLS);
    FirstDoneOnce(Run(l0, ACCEPT + BURY + TWO_CALLS));
    RunAppends(l0, ACCEPT + BURY + TWO_CALLS, FIRST_DONE);
    BuriedAgain(Run(l0, ACCEPT + BURY + TWO_CALLS + FIRST_DONE));
    RunAppends(l0, ACCEPT + BURY + TWO_CALLS + FIRST_DONE, BURY_AGAIN);
    SecondDoneStrands(Run(l0, ACCEPT + BURY + TWO_CALLS + FIRST_DONE + BURY_AGAIN));
    RunAppends(l0, ACCEPT + BURY + TWO_CALLS + FIRST_DONE + BURY_AGAIN, SECOND_DONE);
  }

  lemma AcceptedRedis()
    ensures var l := Run(Created(1, false), ACCEPT);
            l.redis == R.Slice([0], {0}, Some(0), map[], [], None) && l.callers == NOBODY
  {
    var l := Created(1, false);
    RunThree(l, ACCEPT);
    var l1 := Next(l, ACCEPT[0]);
    assert l1 == l.(callers := NOBODY.(accepting := {0}));
    var l2 := Next(l1, ACCEPT[1]);
    assert l2.callers.enqueued == {0} && l2.callers.accepting == {};
    assert Next(l2, ACCEPT[2]).callers.enqueued == {};
  }
}
