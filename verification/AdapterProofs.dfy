/** What every run of the adapter keeps, over any number of workers and crashes. */
module AdapterProofs {
  import opened Prelude
  import opened AdapterSteps
  import opened AdapterFence

  /** The stages between the acknowledged request and the end of the job. */
  predicate Mid(stage: Stage) {
    2 <= Rank(stage) <= 6
  }

  predicate Current(s: Sys, o: nat) {
    s.row.Some? && s.row.value.owner == o && s.row.value.leaseUntil > 0
  }

  /** x is what a worker may write over base, having claimed origin. */
  predicate Onward(c: Config, w: Worker)
    requires ValidConfig(c)
  {
    && Rank(w.origin.stage) <= Rank(w.base.stage) <= Rank(w.x.stage)
    && Left(c, w.base) <= Left(c, w.origin)
    && Left(c, w.x) <= Left(c, w.origin)
    && w.base.stageStartedAt <= w.last && w.x.stageStartedAt <= w.last
    && match w.step
       case Claimed => w.x.stage == w.base.stage && w.x == w.base.(payload := w.x.payload) && w.base == w.origin
       case Offering(phase, payload) =>
         && w.x.stage == (if phase == AckPhase then Acknowledging else Terminal)
         && w.base == w.origin && w.x.stageStartedAt <= w.last
         && (Left(c, w.x) < Left(c, w.origin) || Expired(w.x, c.replyTimeout, w.last))
       case SavingIntent => w.base.stage == Ready && w.x.stage == Triggering && w.base == w.origin
       case Posting => w.base == w.x && w.x.stage == Triggering && w.origin.stage == Ready
       case Saving(polled) => polled ==> Left(c, w.x) < Left(c, w.origin)
  }

  predicate WorkerOk(c: Config, s: Sys, o: nat, w: Worker)
    requires ValidConfig(c)
  {
    && o in s.used && s.row.Some? && Onward(c, w)
    && (Current(s, o) ==> w.base == s.row.value.state && s.past.polls + Left(c, w.origin) <= Bound(c))
    && (Mid(w.base.stage) || Mid(w.x.stage) ==> s.past.acked)
    && (w.step.Posting? ==> s.past.intents == [o] && s.past.posts == 0)
  }

  predicate RowOk(c: Config, s: Sys)
    requires ValidConfig(c)
  {
    && s.past.posts <= |s.past.intents| <= 1
    && (s.past.intents != [] ==> s.past.acked)
    && (s.ack.Some? && s.ack.value.status == ReplySucceeded ==> s.past.acked)
    && (s.row.None? ==> s.past.intents == [] && s.past.polls == 0)
    && (s.row.Some? ==>
          var x := s.row.value.state;
          && x.stageStartedAt <= s.clock
          && s.past.polls + Left(c, x) <= Bound(c)
          && (Mid(x.stage) ==> s.past.acked)
          && (Rank(x.stage) < 3 ==> s.past.intents == []))
  }

  predicate Inv(c: Config, s: Sys)
    requires ValidConfig(c)
  {
    RowOk(c, s) && forall o :: o in s.workers ==> WorkerOk(c, s, o, s.workers[o])
  }

  // ----------------------------------------------------------- one worker's poll

  lemma PreparedKeeps(c: Config, w: Worker, i: Inputs)
    requires ValidConfig(c) && Onward(c, w) && w.step.Claimed? && w.x.stage != Done
    requires w.last <= i.now <= i.mid <= i.late && w.x.nextPollAt <= i.now
    ensures var y := Prepared(c, w.x, w.matches, i);
            && Left(c, y) <= Left(c, w.origin) && y.stageStartedAt <= i.mid
            && (y.stage == w.x.stage || (y.stage == Terminal && Left(c, y) < Left(c, w.origin)))
  {
    var y := Prepared(c, w.x, w.matches, i);
    if y.stage == w.x.stage { PostponingIsNoMore(c, w.x, y); } else { LaterIsLess(c, w.origin, y); }
  }

  /** A due poll that stays in a timed stage found it unexpired and moved time on. */
  lemma StayedIsLess(c: Config, w: Worker, y: Execution, i: Inputs)
    requires ValidConfig(c) && Onward(c, w) && w.step.Claimed?
    requires w.last <= i.now <= i.mid && w.x.nextPollAt <= i.now
    requires Timed(w.x.stage) && y.stage == w.x.stage && y.stageStartedAt == w.x.stageStartedAt
    requires y.nextPollAt == i.now + c.poll
    requires !Expired(w.x, Limit(c, w.x.stage), i.mid)
    ensures Left(c, y) < Left(c, w.origin)
  {
    StayingIsLess(c, w.x, y, i.now);
  }

  /** What the switch can do to the stage, when it ends the poll itself. */
  predicate Moved(c: Config, y: Execution, z: Execution, i: Inputs) {
    && Rank(y.stage) <= Rank(z.stage)
    && z.stageStartedAt <= Max(y.stageStartedAt, i.late)
    && (Mid(z.stage) ==> Mid(y.stage))
    && (z.stage == y.stage && y.stage != Done ==>
          && z.nextPollAt == y.nextPollAt && z.stageStartedAt == y.stageStartedAt
          && if Timed(y.stage) then !Expired(y, Limit(c, y.stage), i.mid)
             else y.stage == Fetching && z.failures == y.failures + 1 < c.maxFailures)
  }

  lemma LocatedMoves(c: Config, y: Execution, found: FindAnswer, i: Inputs)
    requires found.Found? && (y.stage == Triggering || y.stage == Queued)
    requires !Expired(y, c.queueTimeout, i.mid)
    ensures Moved(c, y, Located(y, found, i.late), i)
  {
  }

  lemma NetworkFailedMoves(c: Config, y: Execution, i: Inputs)
    requires 3 <= Rank(y.stage) <= 6
    requires Timed(y.stage) ==> !Expired(y, Limit(c, y.stage), i.mid)
    ensures Moved(c, y, NetworkFailed(c, y, i.late), i)
  {
  }

  lemma WaitingMoves(c: Config, y: Execution, i: Inputs)
    requires y.stage == Triggering || y.stage == Queued
    ensures Dispatch(c, y, i).Finish? && Moved(c, y, Dispatch(c, y, i).x, i)
  {
    if !Expired(y, c.queueTimeout, i.mid) {
      NetworkFailedMoves(c, y, i);
      if y.stage == Triggering {
        if i.find.Found? { LocatedMoves(c, y, i.find, i); }
      } else if i.queue.Waiting? {
        LocatedMoves(c, y, Found(0, i.queue.build), i);
      } else if i.queue.Missing? && i.queue.find.Found? {
        LocatedMoves(c, y, i.queue.find, i);
      }
    }
  }

  lemma BuildingMoves(c: Config, y: Execution, i: Inputs)
    requires y.stage == Building || y.stage == Fetching
    ensures Dispatch(c, y, i).Finish? && Moved(c, y, Dispatch(c, y, i).x, i)
  {
    if y.stage == Building && Expired(y, c.buildTimeout, i.mid) {
    } else {
      NetworkFailedMoves(c, y, i);
    }
  }

  lemma DispatchMoves(c: Config, y: Execution, i: Inputs)
    ensures Dispatch(c, y, i).Finish? ==> Moved(c, y, Dispatch(c, y, i).x, i)
  {
    match y.stage
    case Triggering => WaitingMoves(c, y, i);
    case Queued => WaitingMoves(c, y, i);
    case Building => BuildingMoves(c, y, i);
    case Fetching => BuildingMoves(c, y, i);
    case _ =>
  }

  lemma MovedIsLess(c: Config, w: Worker, y: Execution, z: Execution, i: Inputs)
    requires ValidConfig(c) && Onward(c, w) && w.step.Claimed? && w.x.stage != Done
    requires w.last <= i.now <= i.mid <= i.late && w.x.nextPollAt <= i.now
    requires y == Prepared(c, w.x, w.matches, i) && Moved(c, y, z, i)
    ensures Left(c, z) < Left(c, w.origin) && z.stageStartedAt <= i.late
    ensures Rank(w.x.stage) <= Rank(z.stage) && (Mid(z.stage) ==> Mid(w.x.stage))
  {
    if Rank(w.x.stage) < Rank(z.stage) {
      LaterIsLess(c, w.origin, z);
    } else if Timed(w.x.stage) {
      StayedIsLess(c, w, z, i);
    }
  }

  lemma FinishedKeeps(c: Config, w: Worker, z: Execution, i: Inputs)
    requires ValidConfig(c) && Onward(c, w) && w.step.Claimed? && w.x.stage != Done
    requires w.last <= i.now <= i.mid <= i.late && w.x.nextPollAt <= i.now
    requires Moved(c, Prepared(c, w.x, w.matches, i), z, i)
    ensures Onward(c, w.(x := z, step := Saving(true), last := i.late)) && (Mid(z.stage) ==> Mid(w.x.stage))
  {
    MovedIsLess(c, w, Prepared(c, w.x, w.matches, i), z, i);
  }

  lemma OfferingKeeps(c: Config, w: Worker, y: Execution, z: Execution, phase: Phase, payload: Payload, i: Inputs)
    requires ValidConfig(c) && Onward(c, w) && w.step.Claimed? && w.x.stage != Done
    requires w.last <= i.now <= i.mid <= i.late && w.x.nextPollAt <= i.now
    requires y == Prepared(c, w.x, w.matches, i) && z == y.(payload := z.payload)
    requires y.stage == if phase == AckPhase then Acknowledging else Terminal
    ensures Onward(c, w.(x := z, step := Offering(phase, payload), last := i.late))
  {
    PreparedKeeps(c, w, i);
    assert Left(c, z) == Left(c, y);
    if y.stage == w.x.stage && !Expired(z, c.replyTimeout, i.late) { StayedIsLess(c, w, z, i); }
  }

  lemma SubmitKeeps(c: Config, w: Worker, z: Execution, i: Inputs)
    requires ValidConfig(c) && Onward(c, w) && w.step.Claimed? && w.x.stage == Ready
    requires w.last <= i.now <= i.mid <= i.late && z.stage == Triggering && z.stageStartedAt == i.late
    ensures Onward(c, w.(x := z, step := SavingIntent, last := i.late))
  {
    LaterIsLess(c, w.origin, z);
  }

  lemma DispatchOffers(c: Config, y: Execution, i: Inputs)
    ensures var plan := Dispatch(c, y, i);
            && (plan.Offer? ==> plan.x == y.(payload := plan.x.payload))
            && (plan.Offer? ==> y.stage == if plan.phase == AckPhase then Acknowledging else Terminal)
            && (plan.Submit? ==> y.stage == Ready && plan.x.stage == Triggering && plan.x.stageStartedAt == i.late)
  {
  }

  /** One poll, up to its next transaction, keeps to the worker's bounds. */
  lemma StartedKeeps(c: Config, w: Worker, i: Inputs)
    requires ValidConfig(c) && Onward(c, w) && w.step.Claimed?
    requires w.last <= i.now <= i.mid <= i.late
    ensures Onward(c, Started(c, w, i))
    ensures Mid(Started(c, w, i).x.stage) ==> Mid(w.x.stage)
  {
    if w.x.stage != Done && i.now >= w.x.nextPollAt {
      PreparedKeeps(c, w, i);
      var y := Prepared(c, w.x, w.matches, i);
      if i.accountLoaded {
        DispatchMoves(c, y, i);
        DispatchOffers(c, y, i);
        match Dispatch(c, y, i) {
          case Finish(z) => FinishedKeeps(c, w, z, i);
          case Offer(z, phase, payload) => OfferingKeeps(c, w, y, z, phase, payload, i);
          case Submit(z) => SubmitKeeps(c, w, z, i);
        }
      }
    }
  }

  lemma OfferedKeeps(c: Config, w: Worker, reply: ReplyState, at: nat)
    requires ValidConfig(c) && Onward(c, w) && w.step.Offering? && at >= w.last
    ensures Onward(c, w.(x := AfterOffer(c, w.x, w.step.phase, reply, at), step := Saving(true), last := at))
    ensures Mid(AfterOffer(c, w.x, w.step.phase, reply, at).stage) ==> w.step.phase == AckPhase && reply == ReplySucceeded
  {
    var z := AfterOffer(c, w.x, w.step.phase, reply, at);
    if z.stage != w.x.stage { LaterIsLess(c, w.x, z); }
  }

  lemma SubmittedKeeps(c: Config, w: Worker, answer: TriggerAnswer, at: nat)
    requires ValidConfig(c) && Onward(c, w) && w.step.Posting? && at >= w.last
    ensures Onward(c, w.(x := AfterSubmit(w.x, answer, at), step := Saving(true), last := at))
  {
    var z := AfterSubmit(w.x, answer, at);
    LaterIsLess(c, w.origin, z);
  }

  // ------------------------------------------------------------- the invariant

  lemma InitHolds(c: Config)
    requires ValidConfig(c)
    ensures Inv(c, INIT)
  {
  }

  lemma ClaimKeeps(c: Config, s: Sys, o: nat, now: nat, lease: nat, fingerprint: nat)
    requires ValidConfig(c) && Inv(c, s)
    ensures Inv(c, ClaimNext(s, o, now, lease, fingerprint))
  {
    var s' := ClaimNext(s, o, now, lease, fingerprint);
    if s' != s {
      BoundIsFull(c);
      var x := s'.row.value.state;
      assert Left(c, Recalled(x, s.result)) == Left(c, x);
      assert RowOk(c, s');
      forall p | p in s'.workers ensures WorkerOk(c, s', p, s'.workers[p]) {
        if p != o { ClaimLeaves(c, s, s', o, p, s.workers[p]); }
      }
    }
  }

  /** A claim takes the row from every other worker. */
  lemma ClaimLeaves(c: Config, s: Sys, s': Sys, o: nat, p: nat, w: Worker)
    requires ValidConfig(c) && RowOk(c, s) && WorkerOk(c, s, p, w) && p != o
    requires s'.row.Some? && s'.row.value.owner == o && s.used <= s'.used && s'.past == s.past
    ensures WorkerOk(c, s', p, w)
  {
  }

  /** Reply rows, clock and offers may move; the row and the counters stay. */
  predicate SameRow(s: Sys, s': Sys) {
    && s'.row == s.row && s'.used == s.used && s'.clock >= s.clock
    && s'.past.intents == s.past.intents && s'.past.posts == s.past.posts
    && s'.past.polls == s.past.polls && s'.past.acked == s.past.acked
  }

  lemma WorkerStays(c: Config, s: Sys, s': Sys, o: nat, w: Worker)
    requires ValidConfig(c) && WorkerOk(c, s, o, w) && SameRow(s, s')
    ensures WorkerOk(c, s', o, w)
  {
  }

  lemma WorkerMoves(c: Config, s: Sys, s': Sys, o: nat, w: Worker)
    requires ValidConfig(c) && Inv(c, s) && o in s.workers
    requires SameRow(s, s') && s'.workers == s.workers[o := w]
    requires s'.ack.Some? && s'.ack.value.status == ReplySucceeded ==> s.past.acked
    requires Onward(c, w) && w.base == s.workers[o].base && w.origin == s.workers[o].origin && !w.step.Posting?
    requires Mid(w.x.stage) ==> s.past.acked
    ensures Inv(c, s')
  {
    assert WorkerOk(c, s, o, s.workers[o]);
    assert RowOk(c, s');
    forall p | p in s'.workers ensures WorkerOk(c, s', p, s'.workers[p]) {
      if p != o { WorkerStays(c, s, s', p, s.workers[p]); }
    }
  }

  lemma StartedFrame(c: Config, w: Worker, i: Inputs)
    requires w.step.Claimed? && i.now <= i.mid <= i.late
    ensures var w' := Started(c, w, i); w'.base == w.base && w'.origin == w.origin && !w'.step.Posting?
  {
  }

  lemma StartMoves(c: Config, s: Sys, o: nat, w: Worker)
    requires ValidConfig(c) && Inv(c, s) && o in s.workers
    requires Onward(c, w) && w.base == s.workers[o].base && w.origin == s.workers[o].origin && !w.step.Posting?
    requires Mid(w.x.stage) ==> s.past.acked
    ensures Inv(c, s.(workers := s.workers[o := w]))
  {
    WorkerMoves(c, s, s.(workers := s.workers[o := w]), o, w);
  }

  lemma StartKeeps(c: Config, s: Sys, o: nat, i: Inputs)
    requires ValidConfig(c) && Inv(c, s)
    ensures Inv(c, StartNext(c, s, o, i))
  {
    if o in s.workers && s.workers[o].step.Claimed? && s.workers[o].last <= i.now <= i.mid <= i.late {
      assert WorkerOk(c, s, o, s.workers[o]);
      StartedKeeps(c, s.workers[o], i);
      StartedFrame(c, s.workers[o], i);
      StartMoves(c, s, o, Started(c, s.workers[o], i));
    }
  }

  lemma CreatedFrame(s: Sys, phase: Phase, payload: Payload)
    ensures var s' := Created(s, phase, payload);
            && SameRow(s, s') && s'.workers == s.workers
            && (s'.ack.Some? && s'.ack.value.status == ReplySucceeded ==> s.ack.Some? && s.ack.value.status == ReplySucceeded)
            && (phase == ResultPhase ==> s'.ack == s.ack)
            && Stored(s', phase).Some?
  {
  }

  lemma OfferKeeps(c: Config, s: Sys, o: nat, outcome: OfferOutcome, at: nat)
    requires ValidConfig(c) && Inv(c, s) && o in s.workers
    ensures Inv(c, OfferNext(c, s, o, outcome, at))
  {
    var w := s.workers[o];
    assert WorkerOk(c, s, o, w);
    if w.step.Offering? && at >= w.last {
      var s1 := Created(s, w.step.phase, w.step.payload);
      CreatedFrame(s, w.step.phase, w.step.payload);
      var status := Stored(s1, w.step.phase).value.status;
      OfferedKeeps(c, w, status, at);
      OfferMoves(c, s, s, o, w.(step := Saving(false), last := at));
      OfferMoves(c, s, s1, o, w.(step := Saving(false), last := at));
      OfferMoves(c, s, s1, o, w.(x := AfterOffer(c, w.x, w.step.phase, status, at), step := Saving(true), last := at));
    }
  }

  lemma OfferMoves(c: Config, s: Sys, s1: Sys, o: nat, w: Worker)
    requires ValidConfig(c) && Inv(c, s) && o in s.workers && SameRow(s, s1)
    requires s1.ack.Some? && s1.ack.value.status == ReplySucceeded ==> s.past.acked
    requires Onward(c, w) && w.base == s.workers[o].base && w.origin == s.workers[o].origin && !w.step.Posting?
    requires Mid(w.x.stage) ==> s.past.acked
    ensures Inv(c, s1.(workers := s.workers[o := w]))
  {
    WorkerMoves(c, s, s1.(workers := s.workers[o := w]), o, w);
  }

  lemma IntentSaved(c: Config, s: Sys, o: nat, now: nat)
    requires ValidConfig(c) && Inv(c, s) && o in s.workers && s.workers[o].step.SavingIntent?
    requires now >= s.clock && now >= s.workers[o].last && Fenced(s, o, now)
    ensures Inv(c, IntentNext(s, o, now, true))
  {
    var w := s.workers[o];
    var s' := IntentNext(s, o, now, true);
    assert WorkerOk(c, s, o, w);
    assert s'.past.intents == [o];
    LaterIsLess(c, w.base, w.x);
    assert WorkerOk(c, s', o, s'.workers[o]);
    forall p | p in s'.workers ensures WorkerOk(c, s', p, s'.workers[p]) {
      if p != o { assert WorkerOk(c, s, p, s.workers[p]); }
    }
  }

  lemma IntentKeeps(c: Config, s: Sys, o: nat, now: nat, works: bool)
    requires ValidConfig(c) && Inv(c, s) && o in s.workers
    ensures Inv(c, IntentNext(s, o, now, works))
  {
    var w := s.workers[o];
    assert WorkerOk(c, s, o, w);
    if w.step.SavingIntent? && now >= s.clock && now >= w.last {
      if works && Fenced(s, o, now) {
        IntentSaved(c, s, o, now);
      } else {
        var s' := IntentNext(s, o, now, works);
        WorkerMoves(c, s, s', o, s'.workers[o]);
      }
    }
  }

  lemma PostKeeps(c: Config, s: Sys, o: nat, answer: TriggerAnswer, at: nat)
    requires ValidConfig(c) && Inv(c, s) && o in s.workers
    ensures Inv(c, PostNext(s, o, answer, at))
  {
    var w := s.workers[o];
    assert WorkerOk(c, s, o, w);
    if w.step.Posting? && at >= w.last {
      SubmittedKeeps(c, w, answer, at);
    }
  }

  lemma SaveKeeps(c: Config, s: Sys, o: nat, now: nat, works: bool)
    requires ValidConfig(c) && Inv(c, s) && o in s.workers
    ensures Inv(c, SaveNext(s, o, now, works))
  {
    var w := s.workers[o];
    assert WorkerOk(c, s, o, w);
  }

  lemma CrashKeeps(c: Config, s: Sys, o: nat)
    requires ValidConfig(c) && Inv(c, s)
    ensures Inv(c, s.(workers := s.workers - {o}))
  {
    var s' := s.(workers := s.workers - {o});
    forall p | p in s'.workers ensures WorkerOk(c, s', p, s'.workers[p]) {
      WorkerStays(c, s, s', p, s.workers[p]);
    }
  }

  lemma ReplyKeeps(c: Config, s: Sys, phase: Phase, status: ReplyState)
    requires ValidConfig(c) && Inv(c, s)
    ensures Inv(c, ReplyNext(s, phase, status))
  {
    var s' := ReplyNext(s, phase, status);
    assert RowOk(c, s');
    forall p | p in s'.workers ensures WorkerOk(c, s', p, s'.workers[p]) {
      assert WorkerOk(c, s, p, s.workers[p]);
    }
  }

  lemma StepKeeps(c: Config, s: Sys, e: Event)
    requires ValidConfig(c) && Inv(c, s)
    ensures Inv(c, Next(c, s, e))
  {
    match e
    case Claim(o, now, lease, fingerprint) => ClaimKeeps(c, s, o, now, lease, fingerprint);
    case Start(o, i) => StartKeeps(c, s, o, i);
    case OfferReply(o, outcome, at) => if o in s.workers { OfferKeeps(c, s, o, outcome, at); }
    case Intent(o, now, works) => if o in s.workers { IntentKeeps(c, s, o, now, works); }
    case Post(o, answer, at) => if o in s.workers { PostKeeps(c, s, o, answer, at); }
    case Save(o, now, works) => if o in s.workers { SaveKeeps(c, s, o, now, works); }
    case Crash(o) => CrashKeeps(c, s, o);
    case ReplyMoves(phase, status) => ReplyKeeps(c, s, phase, status);
  }

  lemma {:induction false} RunKeeps(c: Config, s: Sys, events: seq<Event>)
    requires ValidConfig(c) && Inv(c, s)
    ensures Inv(c, Run(c, s, events))
    decreases |events|
  {
    if events != [] {
      StepKeeps(c, s, events[0]);
      RunKeeps(c, Next(c, s, events[0]), events[1..]);
    }
  }

  // --------------------------------------------------------------- main results

  /** Over every run the job is submitted at most once, only by the worker whose
      triggering stage was saved first, and only after the acknowledgement landed. */
  lemma PostedAtMostOnce(c: Config, events: seq<Event>)
    requires ValidConfig(c)
    ensures var past := Run(c, INIT, events).past;
            past.posts <= |past.intents| <= 1 && (past.posts > 0 ==> past.acked)
  {
    InitHolds(c);
    RunKeeps(c, INIT, events);
  }

  /** A worker about to submit has its own triggering stage saved, nobody has
      submitted before it, and no other worker is about to. */
  lemma PostingIsExclusive(c: Config, events: seq<Event>, o: nat)
    requires ValidConfig(c)
    requires var s := Run(c, INIT, events); o in s.workers && s.workers[o].step.Posting?
    ensures var s := Run(c, INIT, events);
            && s.past.intents == [o] && s.past.posts == 0 && s.past.acked
            && Rank(Triggering) <= SavedRank(s)
            && forall p :: p in s.workers && s.workers[p].step.Posting? ==> p == o
  {
    InitHolds(c);
    RunKeeps(c, INIT, events);
    var s := Run(c, INIT, events);
    assert WorkerOk(c, s, o, s.workers[o]);
    forall p | p in s.workers && s.workers[p].step.Posting? ensures p == o {
      assert WorkerOk(c, s, p, s.workers[p]);
      assert s.past.intents[0] == p;
    }
  }

  function SavedRank(s: Sys): nat {
    if s.row.None? then 0 else Rank(s.row.value.state.stage)
  }

  lemma SaveMovesOn(c: Config, s: Sys, o: nat, now: nat, works: bool)
    requires ValidConfig(c) && Inv(c, s) && o in s.workers
    ensures SavedRank(s) <= SavedRank(SaveNext(s, o, now, works))
    ensures SavedRank(s) <= SavedRank(IntentNext(s, o, now, works))
  {
    assert WorkerOk(c, s, o, s.workers[o]);
  }

  lemma OfferLeavesRow(c: Config, s: Sys, o: nat, outcome: OfferOutcome, at: nat)
    requires o in s.workers
    ensures OfferNext(c, s, o, outcome, at).row == s.row
  {
  }

  lemma StageStepKeeps(c: Config, s: Sys, e: Event)
    requires ValidConfig(c) && Inv(c, s)
    ensures SavedRank(s) <= SavedRank(Next(c, s, e))
  {
    match e
    case Intent(o, now, works) => if o in s.workers { SaveMovesOn(c, s, o, now, works); }
    case Save(o, now, works) => if o in s.workers { SaveMovesOn(c, s, o, now, works); }
    case OfferReply(o, outcome, at) => if o in s.workers { OfferLeavesRow(c, s, o, outcome, at); }
    case _ =>
  }

  /** The saved stage never moves backwards. */
  lemma {:induction false} StageNeverMovesBack(c: Config, s: Sys, events: seq<Event>)
    requires ValidConfig(c) && Inv(c, s)
    ensures SavedRank(s) <= SavedRank(Run(c, s, events))
    decreases |events|
  {
    if events != [] {
      StageStepKeeps(c, s, events[0]);
      StepKeeps(c, s, events[0]);
      StageNeverMovesBack(c, Next(c, s, events[0]), events[1..]);
    }
  }

  /** No run has more than Bound error-free polls, and Bound of them end in Done. */
  lemma DoneWithinBound(c: Config, events: seq<Event>)
    requires ValidConfig(c)
    ensures Run(c, INIT, events).past.polls <= Bound(c)
    ensures var s := Run(c, INIT, events);
            s.past.polls == Bound(c) ==> s.row.Some? && s.row.value.state.stage == Done
  {
    InitHolds(c);
    RunKeeps(c, INIT, events);
    var s := Run(c, INIT, events);
    if s.row.Some? { StageLeftIsFull(c, s.row.value.state); }
  }
}
