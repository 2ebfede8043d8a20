/** The bytes an adapter offers for its two replies never change while every
    process runs one job fingerprint, so a crash between creating a reply and
    saving the stage can neither conflict nor produce a second reply. */
module AdapterReplies {
  import opened Prelude
  import opened AdapterSteps
  import opened AdapterFence

  const CHANGED := ResultText("failed", "ADAPTER_CONFIG_CHANGED", None)

  /** Whether every claim of the run is made by a process with fingerprint f. */
  predicate Uses(e: Event, f: nat) {
    e.Claim? ==> e.fingerprint == f
  }

  /** The result text of x can no longer change; matches says that the row carries
      the fingerprint the processes use. */
  predicate Decided(matches: bool, x: Execution) {
    !matches || 7 <= Rank(x.stage)
  }

  function Final(x: Execution): Payload {
    if 7 <= Rank(x.stage) then FinalPayload(x) else CHANGED
  }

  predicate Plain(x: Execution) {
    Rank(x.stage) < 7 ==> x.payload.None?
  }

  /** What a worker holds says the same as what its claimed row had decided. */
  predicate Faithful(w: Worker) {
    && Plain(w.base) && Plain(w.x)
    && (Decided(w.matches, w.base) ==> Decided(w.matches, w.x) && Final(w.x) == Final(w.base))
    && match w.step
       case Offering(phase, payload) =>
         if phase == AckPhase then payload == AckText && w.matches && Rank(w.base.stage) < 7 && Rank(w.x.stage) < 7
         else w.x.stage == Terminal && Decided(w.matches, w.base) && payload == Final(w.base)
       case SavingIntent => w.matches && Rank(w.base.stage) < 7 && Rank(w.x.stage) < 7
       case Posting => w.matches && Rank(w.base.stage) < 7 && Rank(w.x.stage) < 7
       case Claimed => w.x.stage == w.base.stage
       case Saving(_) => true
  }

  predicate WorkerFits(f: nat, s: Sys, o: nat, w: Worker) {
    && s.row.Some? && o in s.used && Faithful(w)
    && w.matches == (s.row.value.fingerprint == f)
    && (Decided(w.matches, w.base) ==>
          Decided(w.matches, s.row.value.state) && Final(s.row.value.state) == Final(w.base))
    && (s.row.value.owner == o && s.row.value.leaseUntil > 0 ==> w.base == s.row.value.state)
  }

  predicate RowFits(f: nat, s: Sys) {
    && s.past.conflicts == 0
    && (s.row.None? ==> s.result.None?)
    && (s.ack.Some? ==> s.ack.value.payload == AckText)
    && (s.row.Some? ==> Plain(s.row.value.state))
    && (s.row.Some? && s.result.Some? ==>
          && Decided(s.row.value.fingerprint == f, s.row.value.state)
          && s.result.value.payload == Final(s.row.value.state))
    && (forall p :: p in s.past.offers ==> s.result.Some? && p == s.result.value.payload)
  }

  predicate Fits(f: nat, s: Sys) {
    RowFits(f, s) && forall o :: o in s.workers ==> WorkerFits(f, s, o, s.workers[o])
  }

  // ------------------------------------------------------------ one worker's poll

  lemma FinishedFaithful(c: Config, w: Worker, i: Inputs)
    requires Faithful(w) && w.step.Claimed? && w.x.stage != Done
    requires w.matches && Rank(w.x.stage) < 7 && Rank(w.base.stage) < 7
    ensures var plan := Dispatch(c, Prepared(c, w.x, true, i), i);
            && Plain(plan.x) && (plan.Submit? ==> Rank(plan.x.stage) < 7)
            && (plan.Offer? ==> plan.phase == AckPhase && plan.payload == AckText && Rank(plan.x.stage) < 7)
  {
  }

  lemma StartedFaithful(c: Config, w: Worker, i: Inputs)
    requires Faithful(w) && w.step.Claimed? && i.now <= i.mid <= i.late
    ensures Faithful(Started(c, w, i))
  {
    if w.x.stage != Done && i.now >= w.x.nextPollAt {
      if w.matches && Rank(w.x.stage) < 7 { FinishedFaithful(c, w, i); }
    }
  }

  lemma OfferedFaithful(c: Config, w: Worker, status: ReplyState, at: nat)
    requires Faithful(w) && w.step.Offering?
    ensures Faithful(w.(x := AfterOffer(c, w.x, w.step.phase, status, at), step := Saving(true), last := at))
  {
  }

  lemma SubmittedFaithful(w: Worker, answer: TriggerAnswer, at: nat)
    requires Faithful(w) && w.step.Posting?
    ensures Faithful(w.(x := AfterSubmit(w.x, answer, at), step := Saving(true), last := at))
  {
  }

  // ---------------------------------------------------------------- the invariant

  /** Everything but the workers, the clock, the counters and the statuses stays. */
  predicate SameRow(s: Sys, s': Sys) {
    s'.row == s.row && s'.used == s.used
  }

  /** Worker o moves on its own; row and replies still fit. */
  lemma WorkerMoves(f: nat, s: Sys, s': Sys, o: nat, w: Worker)
    requires Fits(f, s) && RowFits(f, s') && SameRow(s, s') && o in s.workers
    requires s'.workers == s.workers[o := w]
    requires Faithful(w) && w.base == s.workers[o].base && w.matches == s.workers[o].matches
    ensures Fits(f, s')
  {
    assert WorkerFits(f, s, o, s.workers[o]);
    forall p | p in s'.workers ensures WorkerFits(f, s', p, s'.workers[p]) {
      if p != o { assert WorkerFits(f, s, p, s.workers[p]); }
    }
  }

  lemma StartMoves(f: nat, s: Sys, o: nat, w: Worker)
    requires Fits(f, s) && o in s.workers && Faithful(w)
    requires w.base == s.workers[o].base && w.matches == s.workers[o].matches
    ensures Fits(f, s.(workers := s.workers[o := w]))
  {
    WorkerMoves(f, s, s.(workers := s.workers[o := w]), o, w);
  }

  lemma StartedFrame(c: Config, w: Worker, i: Inputs)
    requires w.step.Claimed? && i.now <= i.mid <= i.late
    ensures var w' := Started(c, w, i); w'.base == w.base && w'.matches == w.matches
  {
  }

  lemma StartFits(c: Config, f: nat, s: Sys, o: nat, i: Inputs)
    requires Fits(f, s)
    ensures Fits(f, StartNext(c, s, o, i))
  {
    if o in s.workers && s.workers[o].step.Claimed? && s.workers[o].last <= i.now <= i.mid <= i.late {
      assert WorkerFits(f, s, o, s.workers[o]);
      StartedFaithful(c, s.workers[o], i);
      StartedFrame(c, s.workers[o], i);
      StartMoves(f, s, o, Started(c, s.workers[o], i));
    }
  }

  /** Creating the reply a fitting worker offers finds either nothing or the same bytes. */
  lemma CreatedFits(f: nat, s: Sys, o: nat)
    requires Fits(f, s) && o in s.workers && s.workers[o].step.Offering?
    ensures var step := s.workers[o].step;
            var s' := Created(s, step.phase, step.payload);
            && RowFits(f, s') && SameRow(s, s') && s'.workers == s.workers
            && Stored(s', step.phase).Some? && Stored(s', step.phase).value.payload == step.payload
  {
    assert WorkerFits(f, s, o, s.workers[o]);
  }

  lemma OfferFits(c: Config, f: nat, s: Sys, o: nat, outcome: OfferOutcome, at: nat)
    requires Fits(f, s) && o in s.workers
    ensures Fits(f, OfferNext(c, s, o, outcome, at))
  {
    var w := s.workers[o];
    if w.step.Offering? && at >= w.last {
      assert WorkerFits(f, s, o, w);
      CreatedFits(f, s, o);
      var s1 := Created(s, w.step.phase, w.step.payload);
      var status := Stored(s1, w.step.phase).value.status;
      OfferedFaithful(c, w, status, at);
      var stopped := w.(step := Saving(false), last := at);
      var done := w.(x := AfterOffer(c, w.x, w.step.phase, status, at), step := Saving(true), last := at);
      assert Faithful(stopped);
      WorkerMoves(f, s, s.(workers := s.workers[o := stopped]), o, stopped);
      WorkerMoves(f, s, s1.(workers := s.workers[o := stopped]), o, stopped);
      WorkerMoves(f, s, s1.(workers := s.workers[o := done]), o, done);
    }
  }

  lemma PostFits(f: nat, s: Sys, o: nat, answer: TriggerAnswer, at: nat)
    requires Fits(f, s) && o in s.workers
    ensures Fits(f, PostNext(s, o, answer, at))
  {
    var w := s.workers[o];
    if w.step.Posting? && at >= w.last {
      assert WorkerFits(f, s, o, w);
      SubmittedFaithful(w, answer, at);
      var s' := PostNext(s, o, answer, at);
      WorkerMoves(f, s, s', o, s'.workers[o]);
    }
  }

  /** The current worker o writes y over the row it holds. */
  lemma RowMoves(f: nat, s: Sys, s': Sys, o: nat, y: Execution)
    requires Fits(f, s) && s.row.Some? && o in s.workers && s.row.value.owner == o && s.row.value.leaseUntil > 0
    requires y == s.workers[o].x
    requires s'.row.Some? && s'.row.value.state == y && s'.row.value.fingerprint == s.row.value.fingerprint
    requires s'.row.value.owner == o && s'.used == s.used
    requires s'.ack == s.ack && s'.result == s.result
    requires s'.past.offers == s.past.offers && s'.past.conflicts == s.past.conflicts
    ensures RowFits(f, s')
    ensures forall p :: p in s.workers && p != o ==> WorkerFits(f, s', p, s.workers[p])
  {
    assert WorkerFits(f, s, o, s.workers[o]);
    forall p | p in s.workers && p != o ensures WorkerFits(f, s', p, s.workers[p]) {
      assert WorkerFits(f, s, p, s.workers[p]);
    }
  }

  lemma IntentFits(f: nat, s: Sys, o: nat, now: nat, works: bool)
    requires Fits(f, s) && o in s.workers
    ensures Fits(f, IntentNext(s, o, now, works))
  {
    var w := s.workers[o];
    if w.step.SavingIntent? && now >= s.clock && now >= w.last {
      assert WorkerFits(f, s, o, w);
      var s' := IntentNext(s, o, now, works);
      if works && Fenced(s, o, now) {
        RowMoves(f, s, s', o, w.x);
        assert WorkerFits(f, s', o, s'.workers[o]);
      } else {
        WorkerMoves(f, s, s', o, s'.workers[o]);
      }
    }
  }

  lemma WorkerGone(f: nat, s: Sys, s': Sys, o: nat)
    requires Fits(f, s) && RowFits(f, s') && SameRow(s, s') && s'.workers == s.workers - {o}
    ensures Fits(f, s')
  {
    forall p | p in s'.workers ensures WorkerFits(f, s', p, s'.workers[p]) {
      assert WorkerFits(f, s, p, s.workers[p]);
    }
  }

  lemma SaveFits(f: nat, s: Sys, o: nat, now: nat, works: bool)
    requires Fits(f, s) && o in s.workers
    ensures Fits(f, SaveNext(s, o, now, works))
  {
    var w := s.workers[o];
    if w.step.Saving? && now >= s.clock && now >= w.last {
      var s' := SaveNext(s, o, now, works);
      if works && Fenced(s, o, now) {
        RowMoves(f, s, s', o, w.x);
      } else {
        WorkerGone(f, s, s', o);
      }
    }
  }

  lemma ClaimFits(f: nat, s: Sys, o: nat, now: nat, lease: nat)
    requires Fits(f, s)
    ensures Fits(f, ClaimNext(s, o, now, lease, f))
  {
    var s' := ClaimNext(s, o, now, lease, f);
    if s' != s {
      assert RowFits(f, s');
      forall p | p in s'.workers ensures WorkerFits(f, s', p, s'.workers[p]) {
        if p != o { assert WorkerFits(f, s, p, s.workers[p]); }
      }
    }
  }

  lemma StepFits(c: Config, f: nat, s: Sys, e: Event)
    requires Fits(f, s) && Uses(e, f)
    ensures Fits(f, Next(c, s, e))
  {
    match e
    case Claim(o, now, lease, fingerprint) => ClaimFits(f, s, o, now, lease);
    case Start(o, i) => StartFits(c, f, s, o, i);
    case OfferReply(o, outcome, at) => if o in s.workers { OfferFits(c, f, s, o, outcome, at); }
    case Intent(o, now, works) => if o in s.workers { IntentFits(f, s, o, now, works); }
    case Post(o, answer, at) => if o in s.workers { PostFits(f, s, o, answer, at); }
    case Save(o, now, works) => if o in s.workers { SaveFits(f, s, o, now, works); }
    case Crash(o) => WorkerGone(f, s, Next(c, s, e), o);
    case ReplyMoves(phase, status) => ReplyMoveFits(f, s, phase, status);
  }

  lemma ReplyMoveFits(f: nat, s: Sys, phase: Phase, status: ReplyState)
    requires Fits(f, s)
    ensures Fits(f, ReplyNext(s, phase, status))
  {
    var s' := ReplyNext(s, phase, status);
    assert RowFits(f, s');
    forall p | p in s'.workers ensures WorkerFits(f, s', p, s'.workers[p]) {
      assert WorkerFits(f, s, p, s.workers[p]);
    }
  }

  lemma {:induction false} RunFits(c: Config, f: nat, s: Sys, events: seq<Event>)
    requires Fits(f, s) && forall e :: e in events ==> Uses(e, f)
    ensures Fits(f, Run(c, s, events))
    decreases |events|
  {
    if events != [] {
      StepFits(c, f, s, events[0]);
      RunFits(c, f, Next(c, s, events[0]), events[1..]);
    }
  }

  // ------------------------------------------------------------------ main results

  /** Under one fingerprint every offer of the result reply carries the same bytes,
      which are the bytes stored, and no offer of either reply ever conflicts. */
  lemma OffersAreIdentical(c: Config, f: nat, events: seq<Event>)
    requires forall e :: e in events ==> Uses(e, f)
    ensures var s := Run(c, INIT, events);
            && s.past.conflicts == 0
            && (s.ack.Some? ==> s.ack.value.payload == AckText)
            && forall p :: p in s.past.offers ==> s.result.Some? && p == s.result.value.payload
  {
    assert Fits(f, INIT);
    RunFits(c, f, INIT, events);
  }

  /** When the processes are restarted with another fingerprint, the invariant
      carries over unless a result is stored that the row has not come to yet. */
  lemma RestartFits(f: nat, g: nat, s: Sys)
    requires Fits(f, s) && s.workers == map[]
    ensures Fits(g, s) <==>
            !(s.row.Some? && s.result.Some? && s.row.value.fingerprint == g && Rank(s.row.value.state.stage) < 7)
  {
  }

  // --------------------------------------------- why one fingerprint is needed

  function Tick(t: nat, parse: Parse): Inputs {
    Inputs(t, t, t, true, parse, FindFailed, QueueFailed, BuildFailed, ResultFailed)
  }

  const QUICK := Config(1, 1, 1, 1, 1)

  const STALL := [Claim(1, 0, 1, 0), Crash(1), Claim(2, 1, 1, 5), Start(2, Tick(1, Malformed))]

  const TERMINATE := [Claim(3, 2, 1, 0), Start(3, Tick(2, Malformed)), Save(3, 2, true)]

  const ANSWER := [Claim(4, 3, 1, 0), Start(4, Tick(3, Malformed)), OfferReply(4, Reads, 3)]

  const INVALID := ResultText("failed", "INVALID_REQUEST", None)

  /** Worker 2 is about to offer other bytes than the row will. */
  predicate Stalled(s: Sys) {
    && 2 in s.workers && s.workers[2].step == Offering(ResultPhase, CHANGED) && s.workers[2].last <= 3
    && s.past.conflicts == 0 && s.row.Some? && s.row.value.fingerprint == 0 && 4 !in s.used
  }

  lemma RunThree(c: Config, s: Sys, a: Event, b: Event, d: Event)
    ensures Run(c, s, [a, b, d]) == Next(c, Next(c, Next(c, s, a), b), d)
  {
    var s1 := Next(c, s, a);
    var s2 := Next(c, s1, b);
    assert [a, b, d][1..] == [b, d] && [b, d][1..] == [d] && [d][1..] == [];
    assert Run(c, s2, [d]) == Next(c, s2, d);
    assert Run(c, s1, [b, d]) == Run(c, s2, [d]);
  }

  lemma {:induction false} RunAppends(c: Config, s: Sys, first: seq<Event>, second: seq<Event>)
    ensures Run(c, s, first + second) == Run(c, Run(c, s, first), second)
    decreases |first|
  {
    if first == [] {
      assert first + second == second;
    } else {
      assert (first + second)[1..] == first[1..] + second;
      RunAppends(c, Next(c, s, first[0]), first[1..], second);
    }
  }

  lemma Stalls()
    ensures var s := Run(QUICK, INIT, STALL);
            && Stalled(s) && s.row == Some(Row(Initial(0), 0, 2, 2)) && s.result.None? && s.clock <= 2 && 3 !in s.used
  {
    assert STALL[1..][1..][1..] == [STALL[3]];
  }

  lemma Terminates(s: Sys)
    requires Stalled(s) && s.row == Some(Row(Initial(0), 0, 2, 2)) && s.result.None? && s.clock <= 2 && 3 !in s.used
    ensures var s' := Run(QUICK, s, TERMINATE);
            && Stalled(s') && s'.result.None? && s'.clock <= 3 && s'.row.value.leaseUntil == 0
            && s'.row.value.state.stage == Terminal && s'.row.value.state.nextPollAt <= 3
            && FinalPayload(s'.row.value.state) == INVALID
  {
    RunThree(QUICK, s, TERMINATE[0], TERMINATE[1], TERMINATE[2]);
    var s2 := Next(QUICK, Next(QUICK, s, TERMINATE[0]), TERMINATE[1]);
    assert s2.workers[3].step == Saving(true) && s2.workers[3].x.stage == Terminal;
  }

  lemma Answers(s: Sys)
    requires Stalled(s) && s.result.None? && s.clock <= 3 && s.row.value.leaseUntil == 0
    requires s.row.value.state.stage == Terminal && s.row.value.state.nextPollAt <= 3
    requires FinalPayload(s.row.value.state) == INVALID
    ensures var s' := Run(QUICK, s, ANSWER);
            Stalled(s'.(used := s.used)) && s'.result.Some? && s'.result.value.payload == INVALID
  {
    RunThree(QUICK, s, ANSWER[0], ANSWER[1], ANSWER[2]);
    var s2 := Next(QUICK, Next(QUICK, s, ANSWER[0]), ANSWER[1]);
    assert s2.workers[4].step == Offering(ResultPhase, INVALID);
  }

  lemma LateOfferConflicts(s: Sys)
    requires 2 in s.workers && s.workers[2].step == Offering(ResultPhase, CHANGED) && s.workers[2].last <= 3
    requires s.past.conflicts == 0 && s.result.Some? && s.result.value.payload == INVALID
    ensures Run(QUICK, s, [OfferReply(2, Reads, 3)]).past.conflicts == 1
  {
    assert Run(QUICK, s, [OfferReply(2, Reads, 3)]) == Next(QUICK, s, OfferReply(2, Reads, 3));
  }

  /** A process with another fingerprint claims and stalls before creating its
      reply; the two processes then offer different bytes. */
  lemma OverlapConflicts()
    ensures Run(QUICK, INIT, STALL + TERMINATE + ANSWER + [OfferReply(2, Reads, 3)]).past.conflicts == 1
  {
    Stalls();
    Terminates(Run(QUICK, INIT, STALL));
    Answers(Run(QUICK, Run(QUICK, INIT, STALL), TERMINATE));
    RunAppends(QUICK, INIT, STALL, TERMINATE);
    RunAppends(QUICK, INIT, STALL + TERMINATE, ANSWER);
    RunAppends(QUICK, INIT, STALL + TERMINATE + ANSWER, [OfferReply(2, Reads, 3)]);
    LateOfferConflicts(Run(QUICK, INIT, STALL + TERMINATE + ANSWER));
  }
}
