/** What the backend's answers lead to, over every run: only an accepted delivery is
    succeeded, only an exhausted one is dead-lettered, and no retry comes early. */
module InboundAnswers {
  import opened Prelude
  import opened InboundLane
  import opened InboundProofs
  import R = RedisQueue

  /** No more attempts are allowed; the adapter's own end is final at once. */
  predicate Exhausted(l: Lane) {
    l.row.adapter || l.row.attempts >= l.maxAttempts
  }

  /** The worker acts on the answer it got; past holds the events so far. */
  predicate Judged(past: seq<Event>, l: Lane) {
    && (l.worker.Begun? ==> l.worker.attempt == l.row.attempts)
    && (l.worker.Answered? ==> l.worker.attempt == l.row.attempts && Answer(l.worker.ok) in past)
    && (l.worker.Failed? ==> Answer(false) in past && Exhausted(l))
    && (l.row.status == Succeeded ==> Answer(true) in past)
    && (l.row.status == Retrying ==> Answer(false) in past)
    && (l.row.dlq.Some? ==> Answer(false) in past && Exhausted(l))
  }

  lemma JudgedLonger(past: seq<Event>, e: Event, l: Lane)
    requires Judged(past, l)
    ensures Judged(past + [e], l)
  {
    assert forall ok :: Answer(ok) in past ==> Answer(ok) in past + [e];
  }

  lemma JudgedStep(past: seq<Event>, l: Lane, e: Event)
    requires Core(l) && Judged(past, l) && e in past
    ensures Judged(past, Next(l, e))
  {
    if ByIngest(e) {
      assert IngestNext(l, e).worker == l.worker;
    } else if ByOperator(e) {
      assert OperatorNext(l, e).worker == l.worker;
    }
  }

  lemma {:induction false} JudgedRun(past: seq<Event>, l: Lane, events: seq<Event>)
    requires Core(l) && Judged(past, l)
    ensures Judged(past + events, Run(l, events))
    decreases |events|
  {
    if events == [] {
      assert past + events == past;
    } else {
      var e := events[0];
      CoreStep(l, e);
      JudgedLonger(past, e, l);
      JudgedStep(past + [e], l, e);
      JudgedRun(past + [e], Next(l, e), events[1..]);
      assert past + [e] + events[1..] == past + events;
    }
  }

  /** A delivery is succeeded only if the backend, or the adapter, accepted it, and
      retrying only if it did not. */
  lemma OnlyAcceptedSucceeds(maxAttempts: nat, adapter: bool, status: Status, events: seq<Event>)
    requires Fresh(status)
    ensures var l := Run(Created(maxAttempts, adapter, status), events);
            && (l.row.status == Succeeded ==> Answer(true) in events)
            && (l.row.status == Retrying ==> Answer(false) in events)
  {
    JudgedRun([], Created(maxAttempts, adapter, status), events);
    assert [] + events == events;
  }

  /** It is dead-lettered only after a failure with all attempts used, or a failure of
      the adapter. */
  lemma BuriedWhenExhausted(maxAttempts: nat, adapter: bool, status: Status, events: seq<Event>)
    requires Fresh(status)
    ensures var l := Run(Created(maxAttempts, adapter, status), events);
            l.row.dlq.Some? ==> Answer(false) in events && (adapter || l.row.attempts >= maxAttempts)
  {
    JudgedRun([], Created(maxAttempts, adapter, status), events);
    assert [] + events == events;
    KindIsFixed(Created(maxAttempts, adapter, status), events);
  }

  lemma {:induction false} KindIsFixed(l: Lane, events: seq<Event>)
    ensures Run(l, events).row.adapter == l.row.adapter && Run(l, events).maxAttempts == l.maxAttempts
    decreases |events|
  {
    if events != [] { KindIsFixed(Next(l, events[0]), events[1..]); }
  }

  predicate AllBefore(events: seq<Event>, at: int) {
    forall e :: e in events && e.Load? ==> e.now < at
  }

  /** A retry never begins before its time. */
  lemma {:induction false} NoAttemptBeforeItsTime(l: Lane, at: int, events: seq<Event>)
    requires Core(l) && l.row.status == Retrying && l.row.nextAttempt == Some(at) && l.worker == Off
    requires AllBefore(events, at)
    ensures var m := Run(l, events);
            && m.row.attempts == l.row.attempts && m.worker == Off
            && m.row.status == Retrying && m.row.nextAttempt == Some(at)
    decreases |events|
  {
    if events != [] {
      assert events[0] in events;
      CoreStep(l, events[0]);
      NoAttemptBeforeItsTime(Next(l, events[0]), at, events[1..]);
    }
  }

  // ------------------------------------------- turns in which no process is lost

  lemma RunTwo(l: Lane, a: Event, b: Event)
    ensures Run(l, [a, b]) == Next(Next(l, a), b)
  {
    assert [a, b][1..] == [b];
    assert Run(Next(l, a), [b]) == Run(Next(Next(l, a), b), [][..]);
  }

  predicate Released(l: Lane, m: Lane, entry: nat) {
    m.redis.unacked == l.redis.unacked - {entry} && m.redis.entries == l.redis.entries && m.worker == Off
  }

  predicate Due(l: Lane, entry: nat, now: int) {
    && l.worker == Off && entry in l.redis.unacked && Live(l.row.status)
    && (l.row.nextAttempt.Some? ==> l.row.nextAttempt.value <= now)
  }

  /** A due delivery is attempted, whatever comes of it. */
  lemma DueIsAttempted(l: Lane, entry: nat, now: int, ok: bool)
    requires Due(l, entry, now)
    ensures var m := Run(l, [Load(entry, now), Begin, Answer(ok)]);
            m == l.(row := m.row, worker := Answered(entry, l.row.attempts + 1, ok))
            && m.row == l.row.(attempts := l.row.attempts + 1, status := Pending)
  {
    RunThree(l, [Load(entry, now), Begin, Answer(ok)]);
  }

  /** What the answer makes of it when the worker can save it. */
  lemma AnswerDecides(l: Lane, at: int, dead: nat)
    requires l.worker.Answered? && l.worker.attempt == l.row.attempts
    ensures var entry := l.worker.entry;
            if l.worker.ok then
              var m := Run(l, [Complete, Ack]);
              m.row.status == Succeeded && Released(l, m, entry)
            else if !Exhausted(l) then
              var m := Next(l, Fail(at));
              && m.row.status == Retrying && m.row.nextAttempt == Some(at) && m.row.dlq == l.row.dlq
              && m.redis == l.redis && m.worker == Off
            else
              var m := Run(l, [Fail(at), Bury, Move(dead)]);
              && m.row.status == Dlq && m.row.dlq == Some(DlqRow(Active, ReplayCount(l.row)))
              && Released(l, m, entry) && m.redis.dlqIndex.Some?
  {
    RunTwo(l, Complete, Ack);
    RunThree(l, [Fail(at), Bury, Move(dead)]);
  }

  /** The entry of a settled delivery leaves the stream; the adapter's unfinished work
      leaves everything as it is. */
  lemma EntryIsHandled(l: Lane, entry: nat, now: int, dead: nat)
    requires l.worker == Off && entry in l.redis.unacked
    ensures l.row.status == Succeeded || Rejected(l.row.status) ==>
              var m := Run(l, [Load(entry, now), Ack]); Released(l, m, entry) && m.row == l.row
    ensures l.row.status == Dlq ==>
              var m := Run(l, [Load(entry, now), Move(dead)]);
              Released(l, m, entry) && m.row == l.row && m.redis.dlqIndex.Some?
    ensures Due(l, entry, now) && l.row.adapter ==> Run(l, [Load(entry, now), NotDone]) == l
  {
    RunTwo(l, Load(entry, now), Ack);
    RunTwo(l, Load(entry, now), Move(dead));
    RunTwo(l, Load(entry, now), NotDone);
  }

  /** Ingestion brings a pending delivery into the stream and leaves a rejected one out. */
  lemma IngestDelivers(maxAttempts: nat, adapter: bool, status: Status, call: nat, ticket: nat)
    requires Fresh(status)
    ensures var l := Created(maxAttempts, adapter, status);
            var m := Run(l, [Join(call), IngestAppend(call, ticket), IngestSet(call)]);
            if Rejected(status) then m == l
            else m.row == l.row.(stream := Some(ticket)) && m.redis.unacked == {ticket} && m.callers == NOBODY
  {
    var l, e := Created(maxAttempts, adapter, status), [Join(call), IngestAppend(call, ticket), IngestSet(call)];
    RunThree(l, e);
    if !Rejected(status) {
      var l1 := Next(l, e[0]);
      assert l1 == l.(callers := NOBODY.(ingesting := {call}));
      var l2 := Next(l1, e[1]);
      assert l2.callers == Callers({}, map[call := ticket], map[]) && l2.redis.unacked == {ticket};
    }
  }

  /** A replay that is carried through brings a dead-lettered delivery back once. */
  lemma ReplayRevives(l: Lane, call: nat, ticket: nat)
    requires Kept(l) && l.row.status == Dlq && call !in l.callers.replays && R.IsFresh(l.redis, ticket)
    ensures var m := Run(l, [ReplayPrepare(call), ReplayScript(call, ticket), ReplayComplete(call)]);
            && m.row.status == Pending && m.row.stream == Some(ticket) && m.row.nextAttempt.None?
            && m.row.dlq == Some(DlqRow(Replayed, ReplayCount(l.row) + 1))
            && m.redis.unacked == l.redis.unacked + {ticket} && m.callers == l.callers
            && Next(m, ReplayPrepare(call)) == m
  {
    var g := ReplayCount(l.row) + 1;
    NewGeneration(l);
    RunThree(l, [ReplayPrepare(call), ReplayScript(call, ticket), ReplayComplete(call)]);
    PreparedLane(l, call);
    ScriptAndComplete(Next(l, ReplayPrepare(call)), call, ticket, g);
    assert l.callers.replays[call := ReplayCall(g, None)] - {call} == l.callers.replays;
  }

  /** The generation a replay opens has no entry yet. */
  lemma NewGeneration(l: Lane)
    requires Kept(l)
    ensures ReplayCount(l.row) + 1 !in l.redis.replays
  {
  }

  lemma PreparedLane(l: Lane, call: nat)
    requires Core(l) && l.row.status == Dlq && call !in l.callers.replays
    ensures var g := ReplayCount(l.row) + 1;
            Next(l, ReplayPrepare(call))
            == l.(row := l.row.(status := ReplayPending, nextAttempt := None, dlq := Some(DlqRow(AwaitingReplay, g))),
                  callers := l.callers.(replays := l.callers.replays[call := ReplayCall(g, None)]))
  {
  }

  lemma ScriptAndComplete(l: Lane, call: nat, ticket: nat, g: nat)
    requires call in l.callers.replays && l.callers.replays[call] == ReplayCall(g, None)
    requires R.IsFresh(l.redis, ticket) && g !in l.redis.replays
    requires l.row.status == ReplayPending && l.row.dlq == Some(DlqRow(AwaitingReplay, g))
    ensures var m := Next(Next(l, ReplayScript(call, ticket)), ReplayComplete(call));
            && m.redis == R.Replayed(l.redis, g, ticket) && m.worker == l.worker && m.maxAttempts == l.maxAttempts
            && m.row == l.row.(status := Pending, stream := Some(ticket), dlq := Some(DlqRow(Replayed, g)))
            && m.callers == l.callers.(replays := l.callers.replays - {call})
  {
    var l1 := Next(l, ReplayScript(call, ticket));
    assert l1.callers.replays - {call} == l.callers.replays - {call};
    assert l1.callers.replays[call] == ReplayCall(g, Some(ticket));
  }

  /** A discard takes a dead-lettered delivery out of the operator's hands. */
  lemma DiscardEnds(l: Lane, call: nat)
    requires Core(l)
    ensures var m := Next(l, Discard);
            if l.row.status == Dlq
            then m.row.status == Discarded && m.row.dlq == Some(DlqRow(Dropped, ReplayCount(l.row)))
                 && Next(m, ReplayPrepare(call)) == m
            else m == l
  {
  }
}
