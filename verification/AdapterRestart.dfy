/** A restart with another job fingerprint: exactly which rows a later run can lead
    to offering other bytes than the stored ones. Leases may have any length, clock
    readings within a call are free, and so are the moves of the replies' statuses. */
module AdapterRestart {
  import opened Prelude
  import opened AdapterSteps
  import opened AdapterFence
  import opened AdapterReplies

  predicate AllUse(events: seq<Event>, g: nat) {
    forall e :: e in events ==> Uses(e, g)
  }

  /** Some run of processes with fingerprint g has an offer that meets other bytes. */
  ghost predicate CanConflict(c: Config, g: nat, s: Sys) {
    exists events :: AllUse(events, g) && Run(c, s, events).past.conflicts > 0
  }

  /** When the next claim of the row can succeed at the earliest. */
  function Claimable(s: Sys): nat
    requires s.row.Some?
  {
    Max(s.clock, s.row.value.leaseUntil)
  }

  /** A poll that can come from time t on may still leave the stage for the job's
      result. Where the acknowledgement is not stored yet, one worker has to create
      it and the claim of another one has to find it sent. */
  predicate Passable(c: Config, acked: bool, x: Execution, t: nat) {
    match x.stage
    case New => acked || c.replyTimeout > 1
    case Acknowledging => Max(t + (if acked then 0 else 1), x.nextPollAt) < x.stageStartedAt + c.replyTimeout
    case Ready => true
    case Fetching => true
    case Terminal => false
    case Done => false
    case _ => Max(t, x.nextPollAt) < x.stageStartedAt + Limit(c, x.stage)
  }

  /** A result reply is stored, yet the row is of the running fingerprint, has not
      ended, and its stage can still be passed in time. */
  predicate Exposed(c: Config, g: nat, s: Sys) {
    && s.row.Some? && s.row.value.fingerprint == g && s.result.Some?
    && Passable(c, s.ack.Some?, s.row.value.state, Claimable(s))
  }

  // ------------------------------------------------ what keeps the bytes the same

  predicate Doomed(c: Config, acked: bool, x: Execution, t: nat) {
    Rank(x.stage) < 7 && x.payload.None? && !Passable(c, acked, x, t)
  }

  /** Ended, or ending with the stored bytes p, or bound to end by a timeout. */
  predicate Harmless(c: Config, p: Payload, acked: bool, x: Execution, t: nat) {
    || x.stage == Done
    || (x.stage == Terminal && (x.payload.None? || x.payload.value == p))
    || Doomed(c, acked, x, t)
  }

  lemma HarmlessLater(c: Config, p: Payload, acked: bool, x: Execution, t: nat, acked': bool, t': nat)
    requires Harmless(c, p, acked, x, t) && t <= t' && (acked' ==> acked)
    ensures Harmless(c, p, acked', x, t')
  {
  }

  /** The worker may still be the one that creates the acknowledgement. */
  predicate MayAck(w: Worker) {
    (w.step.Offering? && w.step.phase == AckPhase) || (w.step.Claimed? && w.x.stage == Acknowledging)
  }

  /** The acknowledgement is stored, or a worker other than o may store it. */
  predicate AckedBesides(s: Sys, o: Option<nat>) {
    s.ack.Some? || exists q :: q in s.workers && o != Some(q) && MayAck(s.workers[q])
  }

  /** Any worker, holding the lease or not: it can offer nothing but the stored bytes. */
  predicate Quiet(p: Payload, w: Worker) {
    && w.matches
    && match w.step
       case Claimed =>
         if Rank(w.x.stage) < 7 then w.x.payload.None? && w.x.stage != Ready && w.x.stage != Fetching
         else w.x.stage == Terminal ==> w.x.payload == Some(p)
       case Offering(phase, payload) =>
         if phase == AckPhase then payload == AckText && w.x.stage == Acknowledging && w.x.payload.None?
         else payload == p && w.x.stage == Terminal && w.x.payload == Some(p)
       case Saving(_) => true
       case SavingIntent => false
       case Posting => false
  }

  /** The worker that holds the lease: what it will write is harmless. */
  predicate WritesHarmless(c: Config, p: Payload, acked: bool, w: Worker) {
    match w.step
    case Claimed => Harmless(c, p, acked, w.x, w.last)
    case Saving(_) => Harmless(c, p, acked, w.x, w.last)
    case Offering(phase, _) =>
      phase == AckPhase ==>
        Doomed(c, true, w.x, w.last) && (acked ==> Expired(w.x, c.replyTimeout, w.last))
    case _ => false
  }

  predicate Holds(s: Sys, o: nat) {
    s.row.Some? && s.row.value.owner == o && s.row.value.leaseUntil > 0
  }

  predicate WorkerSpent(c: Config, p: Payload, s: Sys, o: nat, w: Worker) {
    o in s.used && Quiet(p, w) && (Holds(s, o) ==> WritesHarmless(c, p, AckedBesides(s, Some(o)), w))
  }

  predicate RowSpent(c: Config, g: nat, p: Payload, s: Sys) {
    && s.row.Some? && s.row.value.fingerprint == g && s.result.Some? && s.result.value.payload == p
    && s.past.conflicts == 0 && (s.ack.Some? ==> s.ack.value.payload == AckText)
    && Harmless(c, p, AckedBesides(s, None), s.row.value.state, Claimable(s))
  }

  predicate Spent(c: Config, g: nat, p: Payload, s: Sys) {
    RowSpent(c, g, p, s) && forall o :: o in s.workers ==> WorkerSpent(c, p, s, o, s.workers[o])
  }

  /** Worker o moves on, or is gone; the row stays. */
  predicate Beside(s: Sys, s': Sys, o: nat) {
    && o in s.workers && s'.row == s.row && s'.used == s.used && s'.clock >= s.clock
    && s'.workers - {o} == s.workers - {o}
    && (s'.ack.Some? ==> s.ack.Some? || MayAck(s.workers[o]))
    && (o in s'.workers && MayAck(s'.workers[o]) ==> MayAck(s.workers[o]))
  }

  lemma BesideAcks(s: Sys, s': Sys, o: nat, q: Option<nat>)
    requires Beside(s, s', o) && q != Some(o) && AckedBesides(s', q)
    ensures AckedBesides(s, q)
  {
    if s.ack.None? && !MayAck(s.workers[o]) {
      var r :| r in s'.workers && q != Some(r) && MayAck(s'.workers[r]);
      assert r in s'.workers - {o} && (s'.workers - {o})[r] == (s.workers - {o})[r];
      assert r in s.workers && MayAck(s.workers[r]);
    }
  }

  lemma OtherStays(c: Config, p: Payload, s: Sys, s': Sys, o: nat, q: nat)
    requires Beside(s, s', o) && q != o && q in s.workers && WorkerSpent(c, p, s, q, s.workers[q])
    ensures WorkerSpent(c, p, s', q, s.workers[q])
  {
    if AckedBesides(s', Some(q)) { BesideAcks(s, s', o, Some(q)); }
    var w := s.workers[q];
    if Holds(s, q) && !w.step.Offering? {
      HarmlessLater(c, p, AckedBesides(s, Some(q)), w.x, w.last, AckedBesides(s', Some(q)), w.last);
    }
  }

  lemma BesideSpent(c: Config, g: nat, p: Payload, s: Sys, s': Sys, o: nat)
    requires Spent(c, g, p, s) && Beside(s, s', o)
    requires s'.result.Some? && s'.result.value.payload == p && s'.past.conflicts == 0
    requires s'.ack.Some? ==> s'.ack.value.payload == AckText
    requires o in s'.workers ==> WorkerSpent(c, p, s', o, s'.workers[o])
    ensures Spent(c, g, p, s')
  {
    if AckedBesides(s', None) { BesideAcks(s, s', o, None); }
    HarmlessLater(c, p, AckedBesides(s, None), s.row.value.state, Claimable(s), AckedBesides(s', None), Claimable(s'));
    forall q | q in s'.workers ensures WorkerSpent(c, p, s', q, s'.workers[q]) {
      if q != o {
        assert q in s'.workers - {o} && (s'.workers - {o})[q] == (s.workers - {o})[q];
        OtherStays(c, p, s, s', o, q);
      }
    }
  }

  // ------------------------------------------------------------ one worker's poll

  lemma StartedQuiet(c: Config, p: Payload, w: Worker, i: Inputs)
    requires Quiet(p, w) && w.step.Claimed? && i.now <= i.mid <= i.late
    ensures var w' := Started(c, w, i); Quiet(p, w') && (MayAck(w') ==> MayAck(w))
  {
  }

  lemma StartedWrites(c: Config, p: Payload, acked: bool, w: Worker, i: Inputs)
    requires ValidConfig(c) && Quiet(p, w) && w.step.Claimed? && WritesHarmless(c, p, acked, w)
    requires w.last <= i.now <= i.mid <= i.late
    ensures WritesHarmless(c, p, acked, Started(c, w, i))
  {
    if w.x.stage != Done && i.now >= w.x.nextPollAt && w.x.stage != Terminal {
      var y := Prepared(c, w.x, w.matches, i);
      assert Doomed(c, acked, w.x, w.last);
      if i.accountLoaded {
        if w.x.stage == New {
          assert !acked && c.replyTimeout == 1;
        } else if w.x.stage == Acknowledging {
          assert Started(c, w, i).x == y;
        } else {
          assert Expired(y, Limit(c, y.stage), i.mid);
        }
      }
    }
  }

  lemma StartSpent(c: Config, g: nat, p: Payload, s: Sys, o: nat, i: Inputs)
    requires ValidConfig(c) && Spent(c, g, p, s)
    ensures Spent(c, g, p, StartNext(c, s, o, i))
  {
    if o in s.workers && s.workers[o].step.Claimed? && s.workers[o].last <= i.now <= i.mid <= i.late {
      var w, s' := s.workers[o], StartNext(c, s, o, i);
      assert WorkerSpent(c, p, s, o, w);
      StartedQuiet(c, p, w, i);
      if Holds(s, o) { StartedWrites(c, p, AckedBesides(s, Some(o)), w, i); }
      SameBesides(s, s', o);
      BesideSpent(c, g, p, s, s', o);
    }
  }

  /** What o itself does with the acknowledgement unchanged is nothing to it. */
  lemma SameBesides(s: Sys, s': Sys, o: nat)
    requires s'.ack.Some? == s.ack.Some? && s'.workers - {o} == s.workers - {o}
    ensures AckedBesides(s', Some(o)) == AckedBesides(s, Some(o))
  {
    forall q | q != o ensures (q in s'.workers <==> q in s.workers) && (q in s.workers ==> s'.workers[q] == s.workers[q]) {
      assert q in s'.workers - {o} <==> q in s.workers - {o};
      if q in s.workers { assert (s'.workers - {o})[q] == (s.workers - {o})[q]; }
    }
  }

  /** The offer finds the stored bytes, or creates the acknowledgement. */
  lemma OfferStores(p: Payload, s: Sys, w: Worker)
    requires w.step.Offering? && Quiet(p, w)
    requires s.result.Some? && s.result.value.payload == p && s.past.conflicts == 0
    requires s.ack.Some? ==> s.ack.value.payload == AckText
    ensures var s' := Created(s, w.step.phase, w.step.payload);
            && s'.result == s.result && s'.past.conflicts == 0 && s'.row == s.row && s'.used == s.used
            && s'.workers == s.workers && s'.clock == s.clock
            && (s'.ack.Some? ==> s'.ack.value.payload == AckText)
            && Stored(s', w.step.phase).Some? && Stored(s', w.step.phase).value.payload == w.step.payload
            && (if w.step.phase == AckPhase then s'.ack.Some? && (s.ack.None? ==> s'.ack.value.status == ReplyWaiting)
                else s'.ack == s.ack)
  {
  }

  lemma OfferedWrites(c: Config, p: Payload, acked: bool, w: Worker, reply: ReplyState, at: nat, acked': bool)
    requires Quiet(p, w) && w.step.Offering? && WritesHarmless(c, p, acked, w) && at >= w.last
    requires w.step.phase == AckPhase && !acked ==> reply == ReplyWaiting
    ensures Harmless(c, p, acked', w.x, at)
    ensures Harmless(c, p, acked', AfterOffer(c, w.x, w.step.phase, reply, at), at)
  {
    if w.step.phase == AckPhase {
      HarmlessLater(c, p, true, w.x, w.last, acked', at);
      if acked { assert Expired(w.x, c.replyTimeout, at); }
    }
  }

  lemma OfferSpent(c: Config, g: nat, p: Payload, s: Sys, o: nat, outcome: OfferOutcome, at: nat)
    requires Spent(c, g, p, s) && o in s.workers
    ensures Spent(c, g, p, OfferNext(c, s, o, outcome, at))
  {
    var w := s.workers[o];
    if w.step.Offering? && at >= w.last {
      assert WorkerSpent(c, p, s, o, w);
      OfferStores(p, s, w);
      var s', kept := OfferNext(c, s, o, outcome, at), Created(s, w.step.phase, w.step.payload);
      if Holds(s, o) {
        var acked := AckedBesides(s, Some(o));
        var reply := if w.step.phase == AckPhase && !acked then ReplyWaiting else Stored(kept, w.step.phase).value.status;
        OfferedWrites(c, p, acked, w, reply, at, AckedBesides(s', Some(o)));
      }
      assert s'.workers - {o} == s.workers - {o};
      BesideSpent(c, g, p, s, s', o);
    }
  }

  // ----------------------------------------------------------- claims and saves

  lemma ClaimedBesides(s: Sys, s': Sys, o: nat)
    requires o !in s.workers && s'.ack == s.ack && o in s'.workers && s'.workers == s.workers[o := s'.workers[o]]
    ensures AckedBesides(s', Some(o)) == AckedBesides(s, None)
    ensures !MayAck(s'.workers[o]) ==> AckedBesides(s', None) == AckedBesides(s, None)
  {
  }

  /** A claim takes time: what was doomed at its start stays so for the next one,
      even if this worker stores the acknowledgement. */
  lemma ClaimedHarmless(c: Config, p: Payload, acked: bool, x: Execution, t: nat, acked': bool, t': nat)
    requires Harmless(c, p, acked, x, t) && t < t' && (acked' ==> acked || x.stage == Acknowledging)
    ensures Harmless(c, p, acked', x, t')
  {
  }

  lemma ClaimSpent(c: Config, g: nat, p: Payload, s: Sys, o: nat, now: nat, lease: nat)
    requires Spent(c, g, p, s)
    ensures Spent(c, g, p, ClaimNext(s, o, now, lease, g))
  {
    var s' := ClaimNext(s, o, now, lease, g);
    if s' != s {
      assert o !in s.workers;
      var x, acked := s.row.value.state, AckedBesides(s, None);
      ClaimedBesides(s, s', o);
      ClaimedHarmless(c, p, acked, x, Claimable(s), AckedBesides(s', None), Claimable(s'));
      HarmlessLater(c, p, acked, x, Claimable(s), acked, now);
      forall q | q in s'.workers ensures WorkerSpent(c, p, s', q, s'.workers[q]) {
        if q != o { assert WorkerSpent(c, p, s, q, s.workers[q]); }
      }
    }
  }

  lemma SaveSpent(c: Config, g: nat, p: Payload, s: Sys, o: nat, now: nat, works: bool)
    requires Spent(c, g, p, s) && o in s.workers
    ensures Spent(c, g, p, SaveNext(s, o, now, works))
  {
    var w := s.workers[o];
    if w.step.Saving? && now >= s.clock && now >= w.last {
      var s' := SaveNext(s, o, now, works);
      assert WorkerSpent(c, p, s, o, w);
      assert s'.workers - {o} == s.workers - {o};
      if works && Fenced(s, o, now) {
        WrittenSpent(c, g, p, s, s', o);
      } else {
        BesideSpent(c, g, p, s, s', o);
      }
    }
  }

  lemma WrittenSpent(c: Config, g: nat, p: Payload, s: Sys, s': Sys, o: nat)
    requires Spent(c, g, p, s) && o in s.workers && Holds(s, o) && s.workers[o].step.Saving?
    requires s'.workers == s.workers - {o} && s'.used == s.used && s'.clock >= s.workers[o].last
    requires s'.row == Some(s.row.value.(state := s.workers[o].x, leaseUntil := 0))
    requires s'.ack == s.ack && s'.result == s.result && s'.past.conflicts == s.past.conflicts
    ensures Spent(c, g, p, s')
  {
    var w := s.workers[o];
    assert WorkerSpent(c, p, s, o, w);
    assert AckedBesides(s', None) ==> AckedBesides(s, Some(o));
    HarmlessLater(c, p, AckedBesides(s, Some(o)), w.x, w.last, AckedBesides(s', None), Claimable(s'));
    forall q | q in s'.workers ensures WorkerSpent(c, p, s', q, s'.workers[q]) {
      assert WorkerSpent(c, p, s, q, s.workers[q]);
    }
  }

  lemma ReplySpent(c: Config, g: nat, p: Payload, s: Sys, phase: Phase, status: ReplyState)
    requires Spent(c, g, p, s)
    ensures Spent(c, g, p, ReplyNext(s, phase, status))
  {
    var s' := ReplyNext(s, phase, status);
    assert AckedBesides(s', None) == AckedBesides(s, None);
    forall q | q in s'.workers ensures WorkerSpent(c, p, s', q, s'.workers[q]) {
      assert WorkerSpent(c, p, s, q, s.workers[q]);
      assert AckedBesides(s', Some(q)) == AckedBesides(s, Some(q));
    }
  }

  lemma StepSpent(c: Config, g: nat, p: Payload, s: Sys, e: Event)
    requires ValidConfig(c) && Spent(c, g, p, s) && Uses(e, g)
    ensures Spent(c, g, p, Next(c, s, e))
  {
    match e
    case Claim(o, now, lease, fingerprint) => ClaimSpent(c, g, p, s, o, now, lease);
    case Start(o, i) => StartSpent(c, g, p, s, o, i);
    case OfferReply(o, outcome, at) => if o in s.workers { OfferSpent(c, g, p, s, o, outcome, at); }
    case Intent(o, now, works) => if o in s.workers { assert WorkerSpent(c, p, s, o, s.workers[o]); }
    case Post(o, answer, at) => if o in s.workers { assert WorkerSpent(c, p, s, o, s.workers[o]); }
    case Save(o, now, works) => if o in s.workers { SaveSpent(c, g, p, s, o, now, works); }
    case Crash(o) => CrashSpent(c, g, p, s, o);
    case ReplyMoves(phase, status) => ReplySpent(c, g, p, s, phase, status);
  }

  lemma CrashSpent(c: Config, g: nat, p: Payload, s: Sys, o: nat)
    requires Spent(c, g, p, s)
    ensures Spent(c, g, p, s.(workers := s.workers - {o}))
  {
    var s' := s.(workers := s.workers - {o});
    if o in s.workers {
      assert s'.workers - {o} == s.workers - {o};
      BesideSpent(c, g, p, s, s', o);
    } else {
      assert s'.workers == s.workers;
    }
  }

  lemma {:induction false} RunSpent(c: Config, g: nat, p: Payload, s: Sys, events: seq<Event>)
    requires ValidConfig(c) && Spent(c, g, p, s) && AllUse(events, g)
    ensures Run(c, s, events).past.conflicts == 0
    decreases |events|
  {
    if events != [] {
      StepSpent(c, g, p, s, events[0]);
      RunSpent(c, g, p, Next(c, s, events[0]), events[1..]);
    }
  }

  // ---------------------------------------------- the run that offers other bytes

  /** What a forthcoming world answers: every stage is left for the next one. */
  function Forward(now: nat, late: nat): Inputs {
    Inputs(now, now, late, true, Request, Found(0, 1), Waiting(1), Built(true), Fetched("", "", 0))
  }

  const FETCHED := ResultText("", "", Some(0))

  /** A workerless row of fingerprint g that can still be polled for the job. */
  predicate Ripe(c: Config, g: nat, s: Sys) {
    && ValidConfig(c) && Exposed(c, g, s) && s.workers == map[]
    && s.row.value.state.payload.None? && s.result.value.payload == CHANGED
    && (s.ack.Some? ==> s.ack.value.payload == AckText)
  }

  /** The earliest due poll. */
  function Due(s: Sys): nat
    requires s.row.Some?
  {
    Max(Claimable(s), s.row.value.state.nextPollAt)
  }

  /** Nothing but the row and its owner's traces changed, and the row is due at t. */
  predicate Turned(s: Sys, s': Sys, x: Execution, t: nat)
    requires s.row.Some?
  {
    && s'.workers == map[] && s'.clock == t && s'.result == s.result
    && s'.row.Some? && s'.row.value.fingerprint == s.row.value.fingerprint && s'.row.value.leaseUntil == 0
    && s'.row.value.state == x
  }

  lemma NewOwner(used: set<nat>) returns (o: nat)
    ensures forall u :: u in used ==> u < o
    decreases |used|
  {
    if used == {} {
      o := 0;
    } else {
      var u :| u in used;
      o := NewOwner(used - {u});
      if o <= u { o := u + 1; }
      assert forall v :: v in used ==> v == u || v in used - {u};
    }
  }

  lemma RunFour(c: Config, s: Sys, a: Event, b: Event, d: Event, e: Event)
    ensures Run(c, s, [a, b, d, e]) == Next(c, Next(c, Next(c, Next(c, s, a), b), d), e)
  {
    assert [a, b, d, e][1..] == [b, d, e];
    RunThree(c, Next(c, s, a), b, d, e);
  }

  /** The poll of a stage that is left without a reply or a submission. */
  function PollEvents(c: Config, g: nat, s: Sys, o: nat): seq<Event>
    requires s.row.Some?
  {
    var t := Due(s);
    [Claim(o, t, c.poll + 1, g), Start(o, Forward(t, t + c.poll)), Save(o, t + c.poll, true)]
  }

  function PollLeaves(c: Config, x: Execution, t: nat): Execution {
    var y := x.(nextPollAt := t + c.poll);
    match x.stage
    case New => Advanced(y, Acknowledging, t + c.poll)
    case Building => Advanced(y.(failures := 0, buildSucceeded := true), Fetching, t + c.poll)
    case Fetching => Terminated(y, "", "", t + c.poll).(payload := Some(FETCHED))
    case _ => Advanced(y.(failures := 0, buildNumber := 1), Building, t + c.poll)
  }

  lemma PollMoves(c: Config, g: nat, s: Sys, o: nat)
    requires Ripe(c, g, s) && o !in s.used
    requires s.row.value.state.stage != Acknowledging && s.row.value.state.stage != Ready
    ensures var s' := Run(c, s, PollEvents(c, g, s, o));
            && s'.ack == s.ack && Turned(s, s', PollLeaves(c, s.row.value.state, Due(s)), Due(s) + c.poll)
  {
    var t, e := Due(s), PollEvents(c, g, s, o);
    RunThree(c, s, e[0], e[1], e[2]);
    var x := s.row.value.state;
    var s1 := Next(c, s, e[0]);
    assert s1.workers == map[o := Worker(x, x, x, true, t, Claimed)];
    var s2 := Next(c, s1, e[1]);
    assert s2.workers[o].x == PollLeaves(c, x, t) && s2.workers[o].step == Saving(true);
    var s3 := Next(c, s2, e[2]);
    assert s3.workers == map[];
  }

  function SubmitEvents(c: Config, g: nat, s: Sys, o: nat): seq<Event>
    requires s.row.Some?
  {
    var t := Due(s);
    var u := t + c.poll;
    [Claim(o, t, c.poll + 1, g), Start(o, Forward(t, u)), Intent(o, u, true)] + [Post(o, Submitted(0), u), Save(o, u, true)]
  }

  lemma SubmitMoves(c: Config, g: nat, s: Sys, o: nat)
    requires Ripe(c, g, s) && o !in s.used && s.row.value.state.stage == Ready
    ensures var s', u := Run(c, s, SubmitEvents(c, g, s, o)), Due(s) + c.poll;
            var y := s.row.value.state.(nextPollAt := u);
            s'.ack == s.ack && Turned(s, s', Advanced(Advanced(y, Triggering, u).(queueId := 0), Queued, u), u)
  {
    var t, x := Due(s), s.row.value.state;
    var u := t + c.poll;
    var a, b, d := Claim(o, t, c.poll + 1, g), Start(o, Forward(t, u)), Intent(o, u, true);
    RunAppends(c, s, [a, b, d], [Post(o, Submitted(0), u), Save(o, u, true)]);
    RunThree(c, s, a, b, d);
    var s1 := Next(c, s, a);
    assert s1.workers == map[o := Worker(x, x, x, true, t, Claimed)];
    var s2 := Next(c, s1, b);
    var z := Advanced(x.(nextPollAt := u), Triggering, u);
    assert s2.workers[o].x == z && s2.workers[o].step == SavingIntent;
    var s3 := Next(c, s2, d);
    assert s3.workers == map[o := Worker(x, z, z, true, u, Posting)];
    var e, f := Post(o, Submitted(0), u), Save(o, u, true);
    assert [e, f][1..] == [f] && [f][1..] == [];
    var s4 := Next(c, s3, e);
    assert Run(c, s3, [e, f]) == Run(c, s4, [f]) == Run(c, Next(c, s4, f), []);
    assert Next(c, s4, f).workers == map[];
  }

  /** A first worker stores the acknowledgement and dies before it saves. */
  function StoreEvents(g: nat, s: Sys, o: nat): seq<Event>
    requires s.row.Some?
  {
    [Claim(o, Claimable(s), 1, g), Start(o, Forward(Due(s), Due(s))), OfferReply(o, Reads, Due(s)), Crash(o)]
  }

  lemma StoreMoves(c: Config, g: nat, s: Sys, o: nat)
    requires Ripe(c, g, s) && o !in s.used && s.row.value.state.stage == Acknowledging && s.ack.None?
    ensures var s' := Run(c, s, StoreEvents(g, s, o));
            Ripe(c, g, s') && s'.row.value.state == s.row.value.state && s'.ack.Some?
  {
    var e, x := StoreEvents(g, s, o), s.row.value.state;
    RunFour(c, s, e[0], e[1], e[2], e[3]);
    var s1 := Next(c, s, e[0]);
    assert s1.workers == map[o := Worker(x, x, x, true, Claimable(s), Claimed)];
    var s2 := Next(c, s1, e[1]);
    assert s2.workers[o].step == Offering(AckPhase, AckText);
    var s3 := Next(c, s2, e[2]);
    assert s3.ack == Some(Reply(AckText, ReplyWaiting)) && s3.workers.Keys == {o};
    assert Next(c, s3, e[3]).workers == map[];
  }

  /** The acknowledgement was sent, and a worker finds that in time. */
  function PassEvents(g: nat, s: Sys, o: nat): seq<Event>
    requires s.row.Some?
  {
    [ReplyMoves(AckPhase, ReplySucceeded)]
    + [Claim(o, Due(s), 1, g), Start(o, Forward(Due(s), Due(s))), OfferReply(o, Reads, Due(s)), Save(o, Due(s), true)]
  }

  lemma PassMoves(c: Config, g: nat, s: Sys, o: nat)
    requires Ripe(c, g, s) && o !in s.used && s.row.value.state.stage == Acknowledging && s.ack.Some?
    ensures var s', t := Run(c, s, PassEvents(g, s, o)), Due(s);
            && s'.ack.Some? && s'.ack.value.payload == AckText
            && Turned(s, s', Advanced(s.row.value.state.(nextPollAt := t + c.poll), Ready, t), t)
  {
    var t, x := Due(s), s.row.value.state;
    var r := ReplyMoves(AckPhase, ReplySucceeded);
    var a, b, d, e := Claim(o, t, 1, g), Start(o, Forward(t, t)), OfferReply(o, Reads, t), Save(o, t, true);
    RunAppends(c, s, [r], [a, b, d, e]);
    var s0 := Next(c, s, r);
    assert [r][1..] == [] && Run(c, s, [r]) == s0;
    RunFour(c, s0, a, b, d, e);
    var s1 := Next(c, s0, a);
    assert s1.workers == map[o := Worker(x, x, x, true, t, Claimed)];
    var s2 := Next(c, s1, b);
    assert s2.workers[o].x == x.(nextPollAt := t + c.poll) && s2.workers[o].step == Offering(AckPhase, AckText);
    var s3 := Next(c, s2, d);
    assert s3.workers[o].step == Saving(true) && s3.workers[o].x.stage == Ready;
    assert Next(c, s3, e).workers == map[];
  }

  /** A terminal row with other bytes than the stored ones is claimed and offered. */
  lemma OtherBytesConflict(c: Config, g: nat, s: Sys) returns (events: seq<Event>)
    requires s.row.Some? && s.row.value.fingerprint == g && s.workers == map[]
    requires s.row.value.state.stage == Terminal && s.row.value.state.payload == Some(FETCHED)
    requires s.result.Some? && s.result.value.payload == CHANGED
    ensures AllUse(events, g) && Run(c, s, events).past.conflicts > 0
  {
    var o := NewOwner(s.used);
    var t, x := Due(s), s.row.value.state;
    var a, b, d := Claim(o, t, 1, g), Start(o, Forward(t, t)), OfferReply(o, Reads, t);
    events := [a, b, d];
    RunThree(c, s, a, b, d);
    var s1 := Next(c, s, a);
    assert s1.workers == map[o := Worker(x, x, x, true, t, Claimed)];
    assert Next(c, s1, b).workers[o].step == Offering(ResultPhase, FETCHED);
  }

  /** From an exposed row some run goes stage by stage up to other bytes. */
  lemma {:induction false} ExposedConflicts(c: Config, g: nat, s: Sys) returns (events: seq<Event>)
    requires Ripe(c, g, s)
    ensures AllUse(events, g) && Run(c, s, events).past.conflicts > 0
    decreases 7 - Rank(s.row.value.state.stage), if s.ack.None? then 1 else 0
  {
    var o := NewOwner(s.used);
    var stage := s.row.value.state.stage;
    var first, rest;
    if stage == Acknowledging && s.ack.None? {
      first := StoreEvents(g, s, o);
      StoreMoves(c, g, s, o);
      rest := ExposedConflicts(c, g, Run(c, s, first));
    } else if stage == Acknowledging {
      first := PassEvents(g, s, o);
      PassMoves(c, g, s, o);
      rest := ExposedConflicts(c, g, Run(c, s, first));
    } else if stage == Ready {
      first := SubmitEvents(c, g, s, o);
      SubmitMoves(c, g, s, o);
      rest := ExposedConflicts(c, g, Run(c, s, first));
    } else {
      first := PollEvents(c, g, s, o);
      PollMoves(c, g, s, o);
      if stage == Fetching {
        rest := OtherBytesConflict(c, g, Run(c, s, first));
      } else {
        rest := ExposedConflicts(c, g, Run(c, s, first));
      }
    }
    RunAppends(c, s, first, rest);
    events := first + rest;
  }

  // ------------------------------------------------------------------ main result

  lemma UnexposedIsSpent(c: Config, f: nat, g: nat, s: Sys)
    requires Fits(f, s) && s.workers == map[] && !Fits(g, s) && !Exposed(c, g, s)
    ensures s.result.Some? && Spent(c, g, s.result.value.payload, s)
  {
    RestartFits(f, g, s);
  }

  /** When the processes are restarted with another fingerprint, some later offer can
      meet other bytes if and only if the row is exposed. */
  lemma RestartConflicts(c: Config, f: nat, g: nat, s: Sys)
    requires ValidConfig(c) && Fits(f, s) && s.workers == map[]
    ensures CanConflict(c, g, s) <==> Exposed(c, g, s)
  {
    if Exposed(c, g, s) {
      var events := ExposedConflicts(c, g, s);
      assert AllUse(events, g) && Run(c, s, events).past.conflicts > 0;
    } else {
      forall events | AllUse(events, g) ensures Run(c, s, events).past.conflicts == 0 {
        if Fits(g, s) {
          RunFits(c, g, s, events);
        } else {
          UnexposedIsSpent(c, f, g, s);
          RunSpent(c, g, s.result.value.payload, s, events);
        }
      }
    }
  }

  // --------------------------------------------- going back without any overlap

  const CUT := [Claim(1, 0, 1, 0), Crash(1)]
  const CHANGE := [Claim(2, 1, 1, 5), Start(2, Tick(1, Malformed)), OfferReply(2, Reads, 1), Crash(2)]

  lemma AfterCut(c: Config)
    ensures var s := Run(c, INIT, CUT);
            && s.row == Some(Row(Initial(0), 0, 1, 1)) && s.workers == map[] && s.used == {1} && s.clock == 0
            && s.ack.None? && s.result.None? && s.past == INIT.past
  {
    var s1 := Next(c, INIT, CUT[0]);
    assert CUT[1..] == [CUT[1]] && CUT[1..][1..] == [];
    assert Run(c, INIT, CUT) == Run(c, s1, CUT[1..]) == Run(c, Next(c, s1, CUT[1]), []);
    assert Next(c, s1, CUT[1]).workers == map[];
  }

  lemma AfterChange(c: Config, s: Sys)
    requires s.row == Some(Row(Initial(0), 0, 1, 1)) && s.workers == map[] && s.used == {1} && s.clock == 0
    requires s.ack.None? && s.result.None?
    ensures var s' := Run(c, s, CHANGE);
            && s'.row.Some? && s'.row.value.fingerprint == 0 && s'.row.value.state == Initial(0)
            && s'.workers == map[] && s'.ack.None? && s'.result.Some?
  {
    RunFour(c, s, CHANGE[0], CHANGE[1], CHANGE[2], CHANGE[3]);
    var s1 := Next(c, s, CHANGE[0]);
    assert s1.workers == map[2 := Worker(Initial(0), Initial(0), Initial(0), false, 1, Claimed)];
    var s2 := Next(c, s1, CHANGE[1]);
    assert s2.workers[2].step == Offering(ResultPhase, CHANGED);
    var s3 := Next(c, s2, CHANGE[2]);
    assert s3.workers.Keys == {2};
    assert Next(c, s3, CHANGE[3]).workers == map[];
  }

  /** Processes of fingerprint 0, then only ones of 5, then only ones of 0 again: the
      second kind has stored its reply but not its stage. Unless the acknowledgement
      has no time at all, the third kind can offer other bytes. */
  lemma ReturningConflicts(c: Config)
    requires ValidConfig(c)
    ensures CanConflict(c, 0, Run(c, INIT, CUT + CHANGE)) <==> c.replyTimeout > 1
  {
    RunAppends(c, INIT, CUT, CHANGE);
    AfterCut(c);
    var s1 := Run(c, INIT, CUT);
    assert Fits(0, INIT);
    RunFits(c, 0, INIT, CUT);
    RestartFits(0, 5, s1);
    RunFits(c, 5, s1, CHANGE);
    AfterChange(c, s1);
    RestartConflicts(c, 5, 0, Run(c, s1, CHANGE));
  }
}
