/** What every run of an outbound delivery keeps. */
module OutboundProofs {
  import opened Prelude
  import opened OutboundLane
  import R = RedisQueue

  // ------------------------------------------------------ safety of every run

  /** The DLQ row and the delivery row agree. */
  predicate Ledger(r: Row) {
    && (r.dlq.None? ==> r.status != DeadLettered && r.status != ReplayPending && r.status != Discarded)
    && (r.status == DeadLettered <==> r.dlq.Some? && r.dlq.value.state == Active)
    && (r.status == ReplayPending ==> r.dlq.value.state == AwaitingReplay)
    && (r.dlq.Some? && r.dlq.value.state == AwaitingReplay ==> r.dlq.value.replayCount > 0)
    && (r.status == Discarded ==> r.dlq.value.state == Dropped)
    && (r.status == PendingEnqueue ==> r.dlq.None? && r.attempts == 0)
  }

  /** What the worker's program counter says about the row and the history. */
  predicate Position(w: Worker, r: Row, h: History) {
    match w
    case Off => true
    case Loaded(_) => CanBegin(r.status) || r.status == ReplayPending || r.status == Discarded
    case Begun(_, n) => r.status == Processing && n == r.attempts && h.landed == 0 && h.calls < r.attempts
    case Calling(_, n) => r.status == Processing && n == r.attempts && h.landed == 0
    case Delivered(_, _) => r.status == Processing && h.landed == 1
    case Ambiguous(_) => r.status == Processing && h.landed == 1
    case Transient(_, n) => r.status == Processing && n == r.attempts && h.landed == 0
    case Rejected(_) => r.status == Processing && h.landed == 0
    case Orphan(_) => r.status == Processing
    case Acking(_) => r.status == Succeeded || r.status == Reconciling
    case Moving(_) => r.status == DeadLettered || r.status == ReplayPending || r.status == Accepted || r.status == Discarded
  }

  predicate Landing(r: Row, h: History) {
    && h.landed <= 1
    && (h.landed == 1 ==> r.status == Processing || r.status == Succeeded || r.status == Reconciling)
    && (r.status == Succeeded ==> h.landed == 1)
    && h.calls <= r.attempts
  }

  /** Attempts stay within the retry limit plus one per replay and per revival,
      with one to spare whenever another attempt may begin. */
  predicate Budget(maxAttempts: nat, r: Row, h: History) {
    var limit := maxAttempts + ReplayCount(r) + h.revived;
    && r.attempts <= limit
    && (CanBegin(r.status) || r.status == PendingEnqueue || r.status == ReplayPending ==> r.attempts < limit)
  }

  predicate Numbered(r: Row) {
    && |r.attemptRows| == r.attempts
    && forall i | 0 <= i < r.attempts :: r.attemptRows[i] == i + 1
  }

  /** A service delivery that waits for its queue entry has the outbox row for it. */
  predicate OutboxRow(r: Row) {
    && (!r.service ==> r.outbox.None?)
    && (r.outbox.Some? ==> r.outbox.value <= ReplayCount(r))
    && (r.service && (r.status == PendingEnqueue || r.status == ReplayPending) ==> r.outbox == Some(ReplayCount(r)))
  }

  predicate Core(l: Lane) {
    && l.maxAttempts > 0
    && OutboxRow(l.row)
    && Ledger(l.row)
    && Position(l.worker, l.row, l.log)
    && Landing(l.row, l.log)
    && Budget(l.maxAttempts, l.row, l.log)
    && Numbered(l.row)
  }

  /** What one event keeps, and that a landed call is the last one. */
  predicate StepKeeps(l: Lane, m: Lane) {
    && Core(m)
    && (l.log.landed == 1 ==> m.log.landed == 1 && m.log.calls == l.log.calls)
    && m.maxAttempts == l.maxAttempts
  }

  lemma CoreCallerStep(l: Lane, e: Event)
    requires Core(l) && ByCaller(e)
    ensures StepKeeps(l, CallerNext(l, e))
  {
  }

  lemma CoreOperatorStep(l: Lane, e: Event)
    requires Core(l) && ByOperator(e)
    ensures StepKeeps(l, OperatorNext(l, e))
  {
  }

  lemma CoreWorkerStep(l: Lane, e: Event)
    requires Core(l) && !ByCaller(e) && !ByOperator(e)
    ensures StepKeeps(l, WorkerNext(l, e))
  {
  }

  lemma CoreStep(l: Lane, e: Event)
    requires Core(l)
    ensures StepKeeps(l, Next(l, e))
  {
    if ByCaller(e) { CoreCallerStep(l, e); }
    else if ByOperator(e) { CoreOperatorStep(l, e); }
    else { CoreWorkerStep(l, e); }
  }

  lemma {:induction false} CoreRun(l: Lane, events: seq<Event>)
    requires Core(l)
    ensures StepKeeps(l, Run(l, events))
    decreases |events|
  {
    if events != [] {
      CoreStep(l, events[0]);
      CoreRun(Next(l, events[0]), events[1..]);
    }
  }

  /** At most one Telegram call of a delivery ever ends as a success, ambiguous
      or interrupted in flight, over every run from its creation. */
  lemma AtMostOneLanding(maxAttempts: nat, service: bool, events: seq<Event>)
    requires maxAttempts > 0
    ensures var l := Run(Created(maxAttempts, service), events);
            && l.log.landed <= 1
            && (l.log.landed == 1 ==> l.row.status in {Processing, Succeeded, Reconciling})
            && (l.row.status == Succeeded ==> l.log.landed == 1)
            && l.log.calls <= l.row.attempts
  {
    CoreRun(Created(maxAttempts, service), events);
  }

  /** Once a call has landed the status stays in three values for ever and no
      further call is made, whatever happens next. */
  lemma LandedForEver(maxAttempts: nat, service: bool, before: seq<Event>, after: seq<Event>)
    requires maxAttempts > 0
    requires Run(Created(maxAttempts, service), before).log.landed > 0
    ensures var l := Run(Created(maxAttempts, service), before);
            var m := Run(l, after);
            && m.row.status in {Processing, Succeeded, Reconciling}
            && m.log.calls == l.log.calls
            && m.log.landed == 1
  {
    CoreRun(Created(maxAttempts, service), before);
    CoreRun(Run(Created(maxAttempts, service), before), after);
  }

  /** Attempt rows are numbered 1 to the attempt count, and the count never
      passes the limit by more than the replays and the revivals. */
  lemma AttemptsAreBudgeted(maxAttempts: nat, service: bool, events: seq<Event>)
    requires maxAttempts > 0
    ensures var l := Run(Created(maxAttempts, service), events);
            && l.row.attempts <= maxAttempts + ReplayCount(l.row) + l.log.revived
            && |l.row.attemptRows| == l.row.attempts
            && forall i | 0 <= i < l.row.attempts :: l.row.attemptRows[i] == i + 1
  {
    CoreRun(Created(maxAttempts, service), events);
  }

  // --------------------------------------- when the plain retry limit is kept

  /** The budget without the allowance for revivals. */
  predicate PlainBudget(l: Lane) {
    Budget(l.maxAttempts, l.row, NOTHING)
  }

  /** A closed bot gate is about to put a discarded delivery, whose attempts are
      used up, back to retrying. */
  predicate Revives(l: Lane, e: Event) {
    && e.GateClosed? && l.worker.Loaded? && l.row.status == Discarded
    && l.row.attempts == l.maxAttempts + ReplayCount(l.row)
  }

  /** One event breaks the plain limit exactly when it is such a revival. */
  lemma PlainBudgetStep(l: Lane, e: Event)
    requires Core(l) && PlainBudget(l)
    ensures PlainBudget(Next(l, e)) <==> !Revives(l, e)
  {
    CoreStep(l, e);
  }

  predicate NeverRevives(l: Lane, events: seq<Event>)
    decreases |events|
  {
    events == [] || (!Revives(l, events[0]) && NeverRevives(Next(l, events[0]), events[1..]))
  }

  lemma {:induction false} PlainBudgetRun(l: Lane, events: seq<Event>)
    requires Core(l) && PlainBudget(l) && NeverRevives(l, events)
    ensures PlainBudget(Run(l, events))
    decreases |events|
  {
    if events != [] {
      CoreStep(l, events[0]);
      PlainBudgetStep(l, events[0]);
      PlainBudgetRun(Next(l, events[0]), events[1..]);
    }
  }

  /** Without a revival the attempts never pass the limit plus the replays. */
  lemma AttemptsWithoutRevival(maxAttempts: nat, service: bool, events: seq<Event>)
    requires maxAttempts > 0 && NeverRevives(Created(maxAttempts, service), events)
    ensures var l := Run(Created(maxAttempts, service), events);
            l.row.attempts <= maxAttempts + ReplayCount(l.row)
  {
    PlainBudgetRun(Created(maxAttempts, service), events);
    CoreRun(Created(maxAttempts, service), events);
  }

  /** After any revival the next two worker steps pass that limit. */
  lemma RevivalBreaksTheLimit(l: Lane, until: int)
    requires Core(l) && Revives(l, GateClosed(until)) && l.worker.entry in l.redis.unacked
    ensures var m := Run(l, [GateClosed(until), Load(l.worker.entry, until), Begin]);
            m.row.attempts > m.maxAttempts + ReplayCount(m.row)
  {
    var events := [GateClosed(until), Load(l.worker.entry, until), Begin];
    var l1 := Next(l, events[0]);
    var l2 := Next(l1, events[1]);
    assert l2.worker == Loaded(l.worker.entry);
    RunThree(l, events);
  }

  lemma RunThree(l: Lane, events: seq<Event>)
    requires |events| == 3
    ensures Run(l, events) == Next(Next(Next(l, events[0]), events[1]), events[2])
  {
    var two, one := events[1..], events[2..];
    assert two[0] == events[1] && two[1..] == one;
    assert one[0] == events[2] && one[1..] == [];
    var l1 := Next(l, events[0]);
    var l2 := Next(l1, events[1]);
    assert Run(l1, two) == Run(l2, one);
    assert Run(l2, one) == Run(Next(l2, one[0]), []);
  }

  lemma {:induction false} RunAppends(l: Lane, first: seq<Event>, second: seq<Event>)
    ensures Run(l, first + second) == Run(Run(l, first), second)
    decreases |first|
  {
    if first == [] {
      assert first + second == second;
    } else {
      assert (first + second)[1..] == first[1..] + second;
      RunAppends(Next(l, first[0]), first[1..], second);
    }
  }

  const ACCEPT := [Join(0), AcceptAppend(0, 0), AcceptMark(0)]
  const ATTEMPT := [Load(0, 0), Begin, Call]
  const EXHAUST := [Return(DefiniteTransient), Bury, GiveUp]
  const REVIVE := [Discard, Load(0, 0), GateClosed(9)]
  const AGAIN := [Load(0, 9), Begin, GiveUp]

  lemma AcceptedOnce(l: Lane)
    requires l == Created(1, false)
    ensures var m := Run(l, ACCEPT);
            m.maxAttempts == 1 && m.worker == Off && m.redis.unacked == {0}
            && m.row == l.row.(status := Accepted)
  {
    RunThree(l, ACCEPT);
    var l1 := Next(l, ACCEPT[0]);
    assert l1 == l.(callers := NOBODY.(accepting := {0}));
    var l2 := Next(l1, ACCEPT[1]);
    assert l2.callers.enqueued == {0} && l2.redis.unacked == {0} && l2.row == l.row;
  }

  lemma CalledOnce(l: Lane)
    requires l.maxAttempts == 1 && l.worker == Off && l.redis.unacked == {0}
    requires l.row == CreatedRow(false).(status := Accepted)
    ensures var m := Run(l, ATTEMPT);
            && m.maxAttempts == 1 && m.worker == Calling(0, 1) && m.redis == l.redis
            && m.row == Row(false, Processing, 1, [1], None, None, None)
  {
    RunThree(l, ATTEMPT);
    var l1 := Next(l, ATTEMPT[0]);
    assert l1 == l.(worker := Loaded(0));
    var l2 := Next(l1, ATTEMPT[1]);
    assert l2.row.attemptRows == [1];
  }

  lemma ExhaustedOnce(l: Lane)
    requires l.maxAttempts == 1 && l.worker == Calling(0, 1)
    requires l.row == Row(false, Processing, 1, [1], None, None, None)
    ensures var m := Run(l, EXHAUST);
            && m.maxAttempts == 1 && m.worker == Off && m.redis == l.redis
            && m.row == Row(false, DeadLettered, 1, [1], None, Some(DlqRow(Active, 0)), None)
  {
    RunThree(l, EXHAUST);
    var l1 := Next(l, EXHAUST[0]);
    assert l1 == l.(worker := Transient(0, 1), log := l1.log);
    var l2 := Next(l1, EXHAUST[1]);
    assert l2.worker == Moving(0);
  }

  lemma RevivedOnce(l: Lane)
    requires l.maxAttempts == 1 && l.worker == Off && l.redis.unacked == {0}
    requires l.row == Row(false, DeadLettered, 1, [1], None, Some(DlqRow(Active, 0)), None)
    ensures var m := Run(l, REVIVE);
            && m.maxAttempts == 1 && m.worker == Off && m.redis == l.redis
            && m.row == Row(false, Retrying, 1, [1], Some(9), Some(DlqRow(Dropped, 0)), None)
  {
    RunThree(l, REVIVE);
    var l1 := Next(l, REVIVE[0]);
    assert l1 == l.(row := Row(false, Discarded, 1, [1], None, Some(DlqRow(Dropped, 0)), None));
    var l2 := Next(l1, REVIVE[1]);
    assert l2 == l1.(worker := Loaded(0));
  }

  lemma BegunAgain(l: Lane)
    requires l.maxAttempts == 1 && l.worker == Off && l.redis.unacked == {0}
    requires l.row == Row(false, Retrying, 1, [1], Some(9), Some(DlqRow(Dropped, 0)), None)
    ensures var m := Run(l, AGAIN);
            m.row.attempts == 2 && m.maxAttempts == 1 && ReplayCount(m.row) == 0
  {
    RunThree(l, AGAIN);
    var l1 := Next(l, AGAIN[0]);
    assert l1 == l.(worker := Loaded(0));
    var l2 := Next(l1, AGAIN[1]);
    assert l2.row.attempts == 2 && l2.worker == Begun(0, 2);
  }

  /** Such a revival is reachable: one attempt is allowed, the rate-limited
      failure closes the gate, the Redis move fails and the operator discards. */
  lemma LimitPassedWithoutReplay()
    ensures var l := Run(Created(1, false), ACCEPT + ATTEMPT + EXHAUST + REVIVE + AGAIN);
            l.row.attempts == 2 && l.maxAttempts + ReplayCount(l.row) == 1
  {
    var l0 := Created(1, false);
    AcceptedOnce(l0);
    CalledOnce(Run(l0, ACCEPT));
    RunAppends(l0, ACCEPT, ATTEMPT);
    ExhaustedOnce(Run(l0, ACCEPT + ATTEMPT));
    RunAppends(l0, ACCEPT + ATTEMPT, EXHAUST);
    RevivedOnce(Run(l0, ACCEPT + ATTEMPT + EXHAUST));
    RunAppends(l0, ACCEPT + ATTEMPT + EXHAUST, REVIVE);
    BegunAgain(Run(l0, ACCEPT + ATTEMPT + EXHAUST + REVIVE));
    RunAppends(l0, ACCEPT + ATTEMPT + EXHAUST + REVIVE, AGAIN);
  }
}
