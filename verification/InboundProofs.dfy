/** What the inbound queue keeps over every run. */
module InboundProofs {
  import opened Prelude
  import opened InboundLane
  import R = RedisQueue

  /** The delivery's status and its DLQ row, as the worker left them. */
  predicate Standing(r: Row) {
    && (r.dlq.Some? && r.dlq.value.state == Active <==> r.status == Dlq)
    && (r.dlq.Some? && r.dlq.value.state == AwaitingReplay ==> r.dlq.value.replayCount > 0)
    && (r.dlq.None? ==> r.status != ReplayPending && r.status != Discarded)
  }

  predicate Position(w: Worker, r: Row) {
    match w
    case Off => true
    case Loaded(_) => r.status != Dlq && r.status != Succeeded && !Rejected(r.status)
    case Begun(_, _) => r.status == Pending
    case Answered(_, _, _) => r.status == Pending
    case Failed(_) => r.status == Retrying
    case Acking(_) => r.status == Succeeded
    case Moving(_) =>
      && r.dlq.Some?
      && r.status == (match r.dlq.value.state
                      case Active => Dlq
                      case AwaitingReplay => ReplayPending
                      case Replayed => Pending
                      case Dropped => Discarded)
  }

  /** Nothing was appended yet. */
  predicate Untouched(l: Lane) {
    && l.worker == Off && l.row.stream.None? && l.row.dlq.None?
    && l.callers.queued == map[] && l.callers.replays == map[]
    && (l.row.status == Pending || (Rejected(l.row.status) && l.callers.ingesting == {}))
  }

  /** The facts that need no assumption on the operator. */
  predicate Core(l: Lane) {
    && R.SliceInv(l.redis)
    && Standing(l.row) && Position(l.worker, l.row)
    && (l.worker != Off ==> l.worker.entry in l.redis.unacked)
    && (l.redis.entries == [] ==> Untouched(l))
    && (Rejected(l.row.status) ==> l.redis.entries == [])
  }

  lemma CoreByIngest(l: Lane, e: Event)
    requires Core(l) && ByIngest(e)
    ensures Core(IngestNext(l, e))
  {
    if e.IngestAppend? && e.call in l.callers.ingesting && R.IsFresh(l.redis, e.ticket) {
      R.AppendedKeeps(l.redis, e.ticket);
    }
  }

  lemma CoreByOperator(l: Lane, e: Event)
    requires Core(l) && ByOperator(e)
    ensures Core(OperatorNext(l, e))
  {
    if e.ReplayScript? && e.call in l.callers.replays && R.IsFresh(l.redis, e.ticket) {
      R.ReplayedKeeps(l.redis, l.callers.replays[e.call].generation, e.ticket);
    }
  }

  lemma CoreByWorker(l: Lane, e: Event)
    requires Core(l) && !ByIngest(e) && !ByOperator(e)
    ensures Core(WorkerNext(l, e))
  {
  }

  lemma CoreStep(l: Lane, e: Event)
    requires Core(l)
    ensures Core(Next(l, e))
  {
    if ByIngest(e) { CoreByIngest(l, e); } else if ByOperator(e) { CoreByOperator(l, e); } else { CoreByWorker(l, e); }
  }

  lemma {:induction false} CoreRun(l: Lane, events: seq<Event>)
    requires Core(l)
    ensures Core(Run(l, events))
    decreases |events|
  {
    if events != [] {
      CoreStep(l, events[0]);
      CoreRun(Next(l, events[0]), events[1..]);
    }
  }

  predicate Fresh(s: Status) {
    s == Pending || Rejected(s)
  }

  // ------------------------------------------------------- when entries are acked

  /** The worker acknowledges outright only a delivery that has succeeded; and when
      it acknowledges by moving to the DLQ stream, the status is pending exactly if
      an operator's replay completed after the status DLQ was saved. */
  lemma AckedWhenSettled(maxAttempts: nat, adapter: bool, status: Status, events: seq<Event>)
    requires Fresh(status)
    ensures var l := Run(Created(maxAttempts, adapter, status), events);
            && (l.worker.Acking? ==> l.row.status == Succeeded)
            && (l.worker.Moving? ==>
                  l.row.dlq.Some? && l.row.status != Retrying
                  && (l.row.status == Pending <==> l.row.dlq.value.state == Replayed))
  {
    CoreRun(Created(maxAttempts, adapter, status), events);
  }

  // ------------------------------------------------------------- nothing is lost

  function Finishing(w: Worker): set<nat> {
    if w.Acking? || w.Moving? then {w.entry} else {}
  }

  function Remaining(l: Lane): set<nat> {
    l.redis.unacked - Finishing(l.worker)
  }

  predicate ReplaysKnow(l: Lane) {
    && (forall g | g in l.redis.replays :: 0 < g <= ReplayCount(l.row))
    && (forall c | c in l.callers.replays ::
          var call := l.callers.replays[c];
          0 < call.generation <= ReplayCount(l.row) && (call.queued.Some? ==> call.generation in l.redis.replays))
  }

  predicate Held(l: Lane) {
    && (Live(l.row.status) && l.redis.entries != [] ==> Remaining(l) != {})
    && ReplaysKnow(l)
    && (l.row.status == ReplayPending && ReplayCount(l.row) in l.redis.replays ==>
          l.redis.replays[ReplayCount(l.row)] in Remaining(l))
  }

  predicate Kept(l: Lane) {
    Core(l) && Held(l)
  }

  /** The call that completes is the one whose entry the replay waits for. */
  predicate CurrentGeneration(l: Lane, e: Event) {
    e.ReplayComplete? && e.call in l.callers.replays && l.row.status == ReplayPending ==>
      l.callers.replays[e.call].generation == ReplayCount(l.row)
  }

  lemma HeldByAppend(l: Lane, c: nat, ticket: nat)
    requires Kept(l)
    ensures Held(IngestNext(l, IngestAppend(c, ticket)))
  {
    var m := IngestNext(l, IngestAppend(c, ticket));
    if m != l {
      R.AppendedKeeps(l.redis, ticket);
      if l.redis.entries == [] {
        assert ticket in Remaining(m);
      } else {
        assert Remaining(m) == Remaining(l);
      }
    }
  }

  lemma HeldUnchanged(l: Lane, m: Lane)
    requires Held(l) && m.redis == l.redis && m.worker == l.worker && m.callers.replays == l.callers.replays
    requires m.row.status == l.row.status && m.row.dlq == l.row.dlq
    ensures Held(m)
  {
  }

  lemma IngestLeaves(l: Lane, e: Event)
    requires ByIngest(e) && !e.IngestAppend?
    ensures var m := IngestNext(l, e);
            && m.redis == l.redis && m.worker == l.worker && m.callers.replays == l.callers.replays
            && m.row.status == l.row.status && m.row.dlq == l.row.dlq
  {
  }

  lemma HeldByIngest(l: Lane, e: Event)
    requires Kept(l) && ByIngest(e)
    ensures Held(IngestNext(l, e))
  {
    if e.IngestAppend? {
      HeldByAppend(l, e.call, e.ticket);
    } else {
      IngestLeaves(l, e);
      HeldUnchanged(l, IngestNext(l, e));
    }
  }

  lemma HeldByScript(l: Lane, c: nat, ticket: nat)
    requires Kept(l)
    ensures Held(OperatorNext(l, ReplayScript(c, ticket)))
  {
    var m := OperatorNext(l, ReplayScript(c, ticket));
    if m != l {
      var g := l.callers.replays[c].generation;
      R.ReplayedKeeps(l.redis, g, ticket);
      assert Remaining(l) <= Remaining(m);
      if g !in l.redis.replays { assert ticket !in l.redis.entries; }
    }
  }

  lemma HeldByPrepare(l: Lane, c: nat)
    requires Kept(l)
    ensures Held(OperatorNext(l, ReplayPrepare(c)))
  {
    assert Remaining(OperatorNext(l, ReplayPrepare(c))) == Remaining(l);
  }

  lemma HeldByOperator(l: Lane, e: Event)
    requires Kept(l) && ByOperator(e) && CurrentGeneration(l, e)
    ensures Held(OperatorNext(l, e))
  {
    if e.ReplayScript? {
      HeldByScript(l, e.call, e.ticket);
    } else if e.ReplayPrepare? {
      HeldByPrepare(l, e.call);
    } else {
      assert Remaining(OperatorNext(l, e)) == Remaining(l);
    }
  }

  lemma HeldByRelease(l: Lane, e: Event)
    requires Kept(l) && (e.Ack? || e.Move?)
    ensures Held(WorkerNext(l, e))
  {
    assert Remaining(WorkerNext(l, e)) == Remaining(l);
  }

  lemma HeldByWork(l: Lane, e: Event)
    requires Kept(l) && !ByIngest(e) && !ByOperator(e) && !e.Ack? && !e.Move?
    ensures Held(WorkerNext(l, e))
  {
    var m := WorkerNext(l, e);
    if m != l {
      if l.worker == Off {
        assert Remaining(l) == l.redis.unacked;
      } else {
        assert Finishing(m.worker) == {} ==> l.worker.entry in Remaining(m);
      }
    }
  }

  lemma KeptStep(l: Lane, e: Event)
    requires Kept(l) && CurrentGeneration(l, e)
    ensures Kept(Next(l, e))
  {
    CoreStep(l, e);
    if ByIngest(e) { HeldByIngest(l, e); }
    else if ByOperator(e) { HeldByOperator(l, e); }
    else if e.Ack? || e.Move? { HeldByRelease(l, e); }
    else { HeldByWork(l, e); }
  }

  /** No ReplayDLQ call prepares while another one on this delivery is in flight. */
  predicate Serial(l: Lane, events: seq<Event>)
    decreases |events|
  {
    events == []
    || ((events[0].ReplayPrepare? ==> l.callers.replays == map[]) && Serial(Next(l, events[0]), events[1..]))
  }

  predicate AllCurrent(l: Lane) {
    l.row.status == ReplayPending ==>
      forall c | c in l.callers.replays :: l.callers.replays[c].generation == ReplayCount(l.row)
  }

  lemma AllCurrentStep(l: Lane, e: Event)
    requires Core(l) && AllCurrent(l) && (e.ReplayPrepare? ==> l.callers.replays == map[])
    ensures AllCurrent(Next(l, e)) && CurrentGeneration(l, e)
  {
    if !ByOperator(e) && !ByIngest(e) { assert WorkerNext(l, e).callers == l.callers; }
  }

  lemma {:induction false} KeptRun(l: Lane, events: seq<Event>)
    requires Kept(l) && AllCurrent(l) && Serial(l, events)
    ensures Kept(Run(l, events))
    decreases |events|
  {
    if events != [] {
      AllCurrentStep(l, events[0]);
      KeptStep(l, events[0]);
      KeptRun(Next(l, events[0]), events[1..]);
    }
  }

  /** With one ReplayDLQ call at a time, over every run with losses of any process:
      a delivery that is pending or retrying and was appended, or whose ingestion
      saved a stream ID, keeps an unacknowledged entry; in particular the move that
      acknowledges the entry of a pending delivery leaves another one behind. */
  lemma NothingIsLost(maxAttempts: nat, adapter: bool, status: Status, events: seq<Event>)
    requires Fresh(status) && Serial(Created(maxAttempts, adapter, status), events)
    ensures var l := Run(Created(maxAttempts, adapter, status), events);
            && (Live(l.row.status) && l.redis.entries != [] ==> Remaining(l) != {})
            && (l.row.stream.Some? ==> l.redis.entries != [])
            && (forall e | e in Remaining(l) :: e in l.redis.unacked && e in l.redis.entries)
  {
    KeptRun(Created(maxAttempts, adapter, status), events);
  }

  // ---------------------------------------------------------------- durability

  /** A durable record covers its update: rejected for good, or in the stream. */
  predicate Covered(l: Lane) {
    Rejected(l.row.status) || l.redis.entries != []
  }

  lemma CoveredStays(l: Lane, e: Event)
    requires Core(l) && Covered(l)
    ensures Covered(Next(l, e))
  {
    if e.IngestAppend? && R.IsFresh(l.redis, e.ticket) { R.AppendedKeeps(l.redis, e.ticket); }
    if e.ReplayScript? && e.call in l.callers.replays && R.IsFresh(l.redis, e.ticket) {
      R.ReplayedKeeps(l.redis, l.callers.replays[e.call].generation, e.ticket);
    }
  }

  /** Whenever IngestUpdate may answer without error, the update is covered. */
  lemma SettledIsCovered(l: Lane)
    requires Core(l) && Settled(l.row)
    ensures Covered(l)
  {
  }

  // ------------------------------- an entry acknowledged while still pending

  const INGEST := [Join(0), IngestAppend(0, 0), IngestSet(0)]
  const ATTEMPT := [Load(0, 0), Begin, Answer(false)]
  const EXHAUST := [Fail(5), Bury, ReplayPrepare(1)]
  const REPLAY := [ReplayScript(1, 1), ReplayComplete(1), IngestLost(0)]

  lemma RunThree(l: Lane, events: seq<Event>)
    requires |events| == 3
    ensures Run(l, events) == Next(Next(Next(l, events[0]), events[1]), events[2])
  {
    var two, one := events[1..], events[2..];
    assert two[0] == events[1] && two[1..] == one;
    assert one[0] == events[2] && one[1..] == [];
    var l2 := Next(Next(l, events[0]), events[1]);
    assert Run(Next(l, events[0]), two) == Run(l2, one);
    assert Run(l2, one) == Run(Next(l2, one[0]), []);
  }

  lemma {:induction false} RunAppends(l: Lane, first: seq<Event>, second: seq<Event>)
    ensures Run(l, first + second) == Run(Run(l, first), second)
    decreases |first|
  {
    if first == [] {
      assert first + second == second;
    } else {
      assert (first + second)[1..] == first[1..] + second;
      RunAppends(Next(l, first[0]), first[1..], second);
    }
  }

  function Pinned(status: Status, attempts: nat, next: Option<int>, dlq: Option<DlqRow>): Row {
    Row(false, status, Some(0), attempts, next, dlq)
  }

  const ONE_ENTRY := R.Slice([0], {0}, Some(0), map[], [], None)

  lemma Ingested()
    ensures var l := Run(Created(1, false, Pending), INGEST);
            l == Lane(1, Pinned(Pending, 0, None, None), ONE_ENTRY, Off, NOBODY)
  {
    var l := Created(1, false, Pending);
    RunThree(l, INGEST);
    var l1 := Next(l, INGEST[0]);
    assert l1.callers == Callers({0}, map[], map[]);
    var l2 := Next(l1, INGEST[1]);
    assert l2.redis == ONE_ENTRY && l2.callers == Callers({}, map[0 := 0], map[]);
    assert Next(l2, INGEST[2]).callers == NOBODY;
  }

  lemma Attempted(l: Lane)
    requires l == Lane(1, Pinned(Pending, 0, None, None), ONE_ENTRY, Off, NOBODY)
    ensures Run(l, ATTEMPT) == l.(row := Pinned(Pending, 1, None, None), worker := Answered(0, 1, false))
  {
    RunThree(l, ATTEMPT);
  }

  lemma Exhausted(l: Lane)
    requires l == Lane(1, Pinned(Pending, 1, None, None), ONE_ENTRY, Answered(0, 1, false), NOBODY)
    ensures Run(l, EXHAUST) == Lane(1, Pinned(ReplayPending, 1, None, Some(DlqRow(AwaitingReplay, 1))), ONE_ENTRY, Moving(0),
                                    Callers({}, map[], map[1 := ReplayCall(1, None)]))
  {
    RunThree(l, EXHAUST);
    var l2 := Next(Next(l, EXHAUST[0]), EXHAUST[1]);
    assert l2 == l.(row := Pinned(Dlq, 1, None, Some(DlqRow(Active, 0))), worker := Moving(0));
  }

  lemma ReplayedOnce(l: Lane)
    requires l == Lane(1, Pinned(ReplayPending, 1, None, Some(DlqRow(AwaitingReplay, 1))), ONE_ENTRY, Moving(0),
                       Callers({}, map[], map[1 := ReplayCall(1, None)]))
    ensures var m := Run(l, REPLAY);
            && m.row.status == Pending && m.worker == Moving(0) && m.redis.unacked == {0, 1}
  {
    RunThree(l, REPLAY);
    var l1 := Next(l, REPLAY[0]);
    assert R.IsFresh(l.redis, 1);
    assert l1.redis.unacked == {0, 1} && l1.callers.replays == map[1 := ReplayCall(1, Some(1))];
    var l2 := Next(l1, REPLAY[1]);
    assert l2.row.status == Pending && l2.redis == l1.redis && l2.worker == Moving(0);
  }

  const ANSWERED := Lane(1, Pinned(Pending, 1, None, None), ONE_ENTRY, Answered(0, 1, false), NOBODY)

  lemma AnsweredOnce()
    ensures Run(Created(1, false, Pending), INGEST + ATTEMPT) == ANSWERED
  {
    var l0 := Created(1, false, Pending);
    Ingested();
    Attempted(Run(l0, INGEST));
    RunAppends(l0, INGEST, ATTEMPT);
  }

  lemma MovesWhilePending(l: Lane)
    requires l == ANSWERED
    ensures var m := Run(l, EXHAUST + REPLAY);
            && m.row.status == Pending && m.worker == Moving(0) && m.redis.unacked == {0, 1}
  {
    Exhausted(l);
    ReplayedOnce(Run(l, EXHAUST));
    RunAppends(l, EXHAUST, REPLAY);
  }

  /** A replay that completes between the saved status DLQ and the move makes the
      worker acknowledge an entry while the delivery is pending; the entry of the
      replay is what remains. */
  lemma EntryMovedWhilePending()
    ensures var l := Run(Created(1, false, Pending), INGEST + ATTEMPT + (EXHAUST + REPLAY));
            var m := Next(l, Move(0));
            && l.row.status == Pending && m.row.status == Pending
            && l.redis.unacked == {0, 1} && m.redis.unacked == {1}
  {
    AnsweredOnce();
    MovesWhilePending(ANSWERED);
    RunAppends(Created(1, false, Pending), INGEST + ATTEMPT, EXHAUST + REPLAY);
    assert {0, 1} - {0} == {1};
  }
}
