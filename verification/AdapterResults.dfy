/** What the adapter reports is what happened: every result, build number, queue
    number and verdict in the row or in the stored reply goes back to an answer the
    run was given. Only the events say what was answered. */
module AdapterResults {
  import opened Prelude
  import opened AdapterSteps
  import opened AdapterFence
  import opened AdapterReplies

  // ------------------------------------------------------- what the run was told

  /** Some poll fetched this result. */
  predicate FetchedIn(past: seq<Event>, status: string, code: string, output: nat) {
    exists e :: e in past && e.Start? && e.inputs.result == Fetched(status, code, output)
  }

  predicate FetchedAny(past: seq<Event>, status: string, code: string) {
    exists e :: e in past && e.Start? && e.inputs.result.Fetched? && e.inputs.result.status == status && e.inputs.result.code == code
  }

  predicate NamesBuild(i: Inputs, build: nat) {
    || (i.find.Found? && i.find.build == build)
    || i.queue == Waiting(build)
    || (i.queue.Missing? && i.queue.find.Found? && i.queue.find.build == build)
  }

  /** Jenkins named this build. */
  predicate BuildIn(past: seq<Event>, build: nat) {
    exists e :: e in past && e.Start? && NamesBuild(e.inputs, build)
  }

  /** The submission was answered with this queue item, or a search found it. */
  predicate QueueIn(past: seq<Event>, queueId: nat) {
    exists e :: e in past && (|| (e.Post? && e.answer == Submitted(queueId))
                              || (e.Start? && e.inputs.find.Found? && e.inputs.find.queueId == queueId))
  }

  predicate VerdictIn(past: seq<Event>, succeeded: bool) {
    exists e :: e in past && e.Start? && e.inputs.build == Built(succeeded)
  }

  // ------------------------------------------------------------------- the invariant

  /** Bytes of a result reply: with an output they are a fetched result. */
  predicate Honest(past: seq<Event>, p: Payload) {
    p.ResultText? && (p.output.Some? ==> FetchedIn(past, p.status, p.code, p.output.value))
  }

  predicate Grounded(past: seq<Event>, x: Execution) {
    && (x.stage == Queued ==> QueueIn(past, x.queueId))
    && (x.stage == Building || x.stage == Fetching ==> x.buildNumber > 0 && BuildIn(past, x.buildNumber))
    && (x.stage == Fetching ==> VerdictIn(past, x.buildSucceeded))
    && (x.stage == Terminal ==>
          || x.resultStatus == "failed" || x.resultStatus == "timeout"
          || FetchedAny(past, x.resultStatus, x.resultCode))
    && (x.payload.Some? ==>
          && Honest(past, x.payload.value)
          && x.payload.value.status == x.resultStatus && x.payload.value.code == x.resultCode)
  }

  predicate WorkerGrounded(past: seq<Event>, w: Worker) {
    && Grounded(past, w.x)
    && (w.step.Offering? && w.step.phase == ResultPhase ==> w.x.payload == Some(w.step.payload))
  }

  predicate Sound(past: seq<Event>, s: Sys) {
    && (s.row.Some? ==> Grounded(past, s.row.value.state))
    && (s.result.Some? ==> Honest(past, s.result.value.payload))
    && forall o :: o in s.workers ==> WorkerGrounded(past, s.workers[o])
  }

  lemma HonestLonger(past: seq<Event>, e: Event, p: Payload)
    requires Honest(past, p)
    ensures Honest(past + [e], p)
  {
    if p.output.Some? {
      var d :| d in past && d.Start? && d.inputs.result == Fetched(p.status, p.code, p.output.value);
      assert d in past + [e];
    }
  }

  lemma GroundedLonger(past: seq<Event>, e: Event, x: Execution)
    requires Grounded(past, x)
    ensures Grounded(past + [e], x)
  {
    assert forall d :: d in past ==> d in past + [e];
    if x.payload.Some? { HonestLonger(past, e, x.payload.value); }
    if x.stage == Terminal && FetchedAny(past, x.resultStatus, x.resultCode) {
      var d :| d in past && d.Start? && d.inputs.result.Fetched? && d.inputs.result.status == x.resultStatus
               && d.inputs.result.code == x.resultCode;
      assert d in past + [e];
    }
    if x.stage == Building || x.stage == Fetching {
      var d :| d in past && d.Start? && NamesBuild(d.inputs, x.buildNumber);
      assert d in past + [e];
    }
    if x.stage == Fetching {
      var d :| d in past && d.Start? && d.inputs.build == Built(x.buildSucceeded);
      assert d in past + [e];
    }
    if x.stage == Queued { QueueLonger(past, e, x.queueId); }
  }

  lemma QueueLonger(past: seq<Event>, e: Event, queueId: nat)
    requires QueueIn(past, queueId)
    ensures QueueIn(past + [e], queueId)
  {
    var d :| d in past && (|| (d.Post? && d.answer == Submitted(queueId))
                           || (d.Start? && d.inputs.find.Found? && d.inputs.find.queueId == queueId));
    assert d in past + [e];
  }

  lemma SoundLonger(past: seq<Event>, e: Event, s: Sys)
    requires Sound(past, s)
    ensures Sound(past + [e], s)
  {
    if s.row.Some? { GroundedLonger(past, e, s.row.value.state); }
    if s.result.Some? { HonestLonger(past, e, s.result.value.payload); }
    forall o | o in s.workers ensures WorkerGrounded(past + [e], s.workers[o]) {
      GroundedLonger(past, e, s.workers[o].x);
    }
  }

  // ------------------------------------------------------------------------ one poll

  /** The stages in which a plan is grounded, with the inputs it was made from in past. */
  lemma LocatedGrounded(past: seq<Event>, e: Event, x: Execution, found: FindAnswer, t: nat)
    requires e in past && e.Start? && Grounded(past, x) && (x.stage == Triggering || x.stage == Queued) && x.payload.None?
    requires found.Found? && (found.build > 0 ==> NamesBuild(e.inputs, found.build))
    requires x.stage == Triggering ==> found == e.inputs.find
    ensures Grounded(past, Located(x, found, t))
  {
    if found.build > 0 {
      assert BuildIn(past, found.build);
    } else if found.queueId > 0 && x.stage == Triggering {
      assert QueueIn(past, found.queueId);
    }
  }

  lemma FetchGrounded(c: Config, past: seq<Event>, e: Event, x: Execution)
    requires e in past && e.Start? && Grounded(past, x) && x.stage == Fetching && x.payload.None?
    ensures Dispatch(c, x, e.inputs).Finish? && Grounded(past, Dispatch(c, x, e.inputs).x)
  {
    if e.inputs.result.Fetched? {
      var r := e.inputs.result;
      assert FetchedIn(past, r.status, r.code, r.output) && FetchedAny(past, r.status, r.code);
    }
  }

  lemma BuildGrounded(c: Config, past: seq<Event>, e: Event, x: Execution)
    requires e in past && e.Start? && Grounded(past, x) && x.stage == Building && x.payload.None?
    ensures Dispatch(c, x, e.inputs).Finish? && Grounded(past, Dispatch(c, x, e.inputs).x)
  {
    if e.inputs.build.Built? { assert VerdictIn(past, e.inputs.build.succeeded); }
  }

  lemma WaitGrounded(c: Config, past: seq<Event>, e: Event, x: Execution)
    requires e in past && e.Start? && Grounded(past, x) && (x.stage == Triggering || x.stage == Queued) && x.payload.None?
    ensures Dispatch(c, x, e.inputs).Finish? && Grounded(past, Dispatch(c, x, e.inputs).x)
  {
    var i := e.inputs;
    if !Expired(x, c.queueTimeout, i.mid) {
      if x.stage == Triggering {
        if i.find.Found? { LocatedGrounded(past, e, x, i.find, i.late); }
      } else if i.queue.Waiting? {
        LocatedGrounded(past, e, x, Found(0, i.queue.build), i.late);
      } else if i.queue.Missing? && i.queue.find.Found? {
        LocatedGrounded(past, e, x, i.queue.find, i.late);
      }
    }
  }

  lemma DispatchGrounded(c: Config, past: seq<Event>, e: Event, x: Execution)
    requires e in past && e.Start? && Grounded(past, x) && Plain(x)
    ensures var plan := Dispatch(c, x, e.inputs);
            Grounded(past, plan.x) && (plan.Offer? && plan.phase == ResultPhase ==> plan.x.payload == Some(plan.payload))
  {
    match x.stage
    case Triggering => WaitGrounded(c, past, e, x);
    case Queued => WaitGrounded(c, past, e, x);
    case Building => BuildGrounded(c, past, e, x);
    case Fetching => FetchGrounded(c, past, e, x);
    case _ =>
  }

  lemma PreparedGrounded(c: Config, past: seq<Event>, x: Execution, matches: bool, i: Inputs)
    requires Grounded(past, x) && Plain(x) && x.stage != Done
    ensures Grounded(past, Prepared(c, x, matches, i)) && Plain(Prepared(c, x, matches, i))
  {
  }

  lemma StartedGrounded(c: Config, past: seq<Event>, e: Event, w: Worker)
    requires e in past && e.Start? && w.step.Claimed? && WorkerGrounded(past, w) && Plain(w.x)
    requires e.inputs.now <= e.inputs.mid <= e.inputs.late
    ensures WorkerGrounded(past, Started(c, w, e.inputs))
  {
    var i := e.inputs;
    if w.x.stage != Done && i.now >= w.x.nextPollAt {
      PreparedGrounded(c, past, w.x, w.matches, i);
      if i.accountLoaded { DispatchGrounded(c, past, e, Prepared(c, w.x, w.matches, i)); }
    }
  }

  // ----------------------------------------------------------------------- the steps

  /** Worker o moves on, or is gone. */
  lemma MovedSound(past: seq<Event>, s: Sys, s': Sys, o: nat)
    requires Sound(past, s) && s'.workers - {o} == s.workers - {o}
    requires s'.row.Some? ==> Grounded(past, s'.row.value.state)
    requires s'.result.Some? ==> Honest(past, s'.result.value.payload)
    requires o in s'.workers ==> WorkerGrounded(past, s'.workers[o])
    ensures Sound(past, s')
  {
    forall q | q in s'.workers ensures WorkerGrounded(past, s'.workers[q]) {
      if q != o {
        assert q in s'.workers - {o} && (s'.workers - {o})[q] == (s.workers - {o})[q];
        assert WorkerGrounded(past, s.workers[q]);
      }
    }
  }

  lemma InitialGrounded(past: seq<Event>, now: nat)
    ensures Grounded(past, Initial(now))
  {
  }

  /** The bytes recalled at a claim are those of the row's own result. */
  lemma RecalledGrounded(past: seq<Event>, f: nat, s: Sys)
    requires Fits(f, s) && Sound(past, s) && s.row.Some?
    ensures Grounded(past, Recalled(s.row.value.state, s.result))
  {
  }

  lemma ClaimSound(past: seq<Event>, f: nat, s: Sys, o: nat, now: nat, lease: nat)
    requires Fits(f, s) && Sound(past, s)
    ensures Sound(past, ClaimNext(s, o, now, lease, f))
  {
    var s' := ClaimNext(s, o, now, lease, f);
    if s' != s {
      InitialGrounded(past, now);
      if s.row.Some? { RecalledGrounded(past, f, s); }
      assert s'.workers - {o} == s.workers - {o};
      MovedSound(past, s, s', o);
    }
  }

  lemma OfferSound(c: Config, past: seq<Event>, f: nat, s: Sys, o: nat, outcome: OfferOutcome, at: nat)
    requires Fits(f, s) && Sound(past, s) && o in s.workers
    ensures Sound(past, OfferNext(c, s, o, outcome, at))
  {
    var w, s' := s.workers[o], OfferNext(c, s, o, outcome, at);
    if s' != s {
      assert WorkerGrounded(past, w) && WorkerFits(f, s, o, w);
      CreatedFits(f, s, o);
      OfferedGrounded(c, past, w, Stored(Created(s, w.step.phase, w.step.payload), w.step.phase).value.status, at);
      assert s'.workers - {o} == s.workers - {o};
      MovedSound(past, s, s', o);
    }
  }

  lemma OfferedGrounded(c: Config, past: seq<Event>, w: Worker, reply: ReplyState, at: nat)
    requires WorkerGrounded(past, w) && w.step.Offering? && Faithful(w)
    ensures Grounded(past, AfterOffer(c, w.x, w.step.phase, reply, at))
    ensures w.step.phase == ResultPhase ==> Honest(past, w.step.payload)
  {
  }

  lemma StepSound(c: Config, past: seq<Event>, f: nat, s: Sys, e: Event)
    requires Fits(f, s) && Uses(e, f) && Sound(past, s)
    ensures Sound(past + [e], Next(c, s, e))
  {
    SoundLonger(past, e, s);
    var now := past + [e];
    assert e in now;
    match e
    case Claim(o, t, lease, _) => ClaimSound(now, f, s, o, t, lease);
    case OfferReply(o, outcome, at) => if o in s.workers { OfferSound(c, now, f, s, o, outcome, at); }
    case ReplyMoves(phase, status) => ReplySound(now, s, phase, status);
    case Crash(o) => MovedSound(now, s, Next(c, s, e), o);
    case _ => if e.o in s.workers { WorkSound(c, now, f, s, e); }
  }

  lemma ReplySound(past: seq<Event>, s: Sys, phase: Phase, status: ReplyState)
    requires Sound(past, s)
    ensures Sound(past, ReplyNext(s, phase, status))
  {
    assert ReplyNext(s, phase, status).workers == s.workers;
  }

  /** The steps a worker takes on its own. */
  lemma WorkSound(c: Config, past: seq<Event>, f: nat, s: Sys, e: Event)
    requires Fits(f, s) && Sound(past, s) && e in past
    requires (e.Start? || e.Intent? || e.Post? || e.Save?) && e.o in s.workers
    ensures Sound(past, Next(c, s, e))
  {
    var w, s' := s.workers[e.o], Next(c, s, e);
    assert WorkerFits(f, s, e.o, w) && WorkerGrounded(past, w);
    if s' != s {
      assert s'.workers - {e.o} == s.workers - {e.o};
      match e {
        case Start(o, i) => StartedGrounded(c, past, e, w);
        case Post(o, answer, at) => PostGrounded(past, e, w);
        case _ =>
      }
      MovedSound(past, s, s', e.o);
    }
  }

  lemma PostGrounded(past: seq<Event>, e: Event, w: Worker)
    requires e in past && e.Post? && w.step.Posting? && Faithful(w) && WorkerGrounded(past, w)
    ensures Grounded(past, AfterSubmit(w.x, e.answer, e.at))
  {
    if e.answer.Submitted? { assert QueueIn(past, e.answer.queueId); }
  }

  lemma {:induction false} RunSound(c: Config, past: seq<Event>, f: nat, s: Sys, events: seq<Event>)
    requires Fits(f, s) && Sound(past, s) && forall e :: e in events ==> Uses(e, f)
    ensures Sound(past + events, Run(c, s, events)) && Fits(f, Run(c, s, events))
    decreases |events|
  {
    if events == [] {
      assert past + events == past;
    } else {
      assert events[0] in events;
      StepFits(c, f, s, events[0]);
      StepSound(c, past, f, s, events[0]);
      RunSound(c, past + [events[0]], f, Next(c, s, events[0]), events[1..]);
      assert past + [events[0]] + events[1..] == past + events;
    }
  }

  // -------------------------------------------------------------------- main results

  /** A stored result reply with an output carries status, code and output of a result
      some poll of the run fetched; and it says what the row says. */
  lemma ReplyIsTheJobs(c: Config, f: nat, events: seq<Event>)
    requires forall e :: e in events ==> Uses(e, f)
    ensures var s := Run(c, INIT, events);
            && (s.result.Some? ==> Honest(events, s.result.value.payload))
            && (s.result.Some? && s.row.Some? && Rank(s.row.value.state.stage) >= 7 ==>
                  && s.result.value.payload.status == s.row.value.state.resultStatus
                  && s.result.value.payload.code == s.row.value.state.resultCode)
  {
    assert Fits(f, INIT);
    RunSound(c, [], f, INIT, events);
    assert [] + events == events;
  }

  /** A terminal row never reports what the job did not say: its status is failed or
      timeout, or was fetched with its code; and its payload, once built, carries the
      row's own status and code. */
  lemma RowIsTheJobs(c: Config, f: nat, events: seq<Event>)
    requires forall e :: e in events ==> Uses(e, f)
    ensures var s := Run(c, INIT, events);
            s.row.Some? ==>
              var x := s.row.value.state;
              && (x.stage == Terminal ==>
                    x.resultStatus == "failed" || x.resultStatus == "timeout" || FetchedAny(events, x.resultStatus, x.resultCode))
              && (x.payload.Some? ==>
                    && Honest(events, x.payload.value)
                    && x.payload.value.status == x.resultStatus && x.payload.value.code == x.resultCode)
  {
    assert Fits(f, INIT);
    RunSound(c, [], f, INIT, events);
    assert [] + events == events;
  }

  /** Only a queue item and a build that Jenkins named are followed, and the result is
      fetched only of a build that Jenkins called finished, with that verdict. */
  lemma FollowsTheJob(c: Config, f: nat, events: seq<Event>)
    requires forall e :: e in events ==> Uses(e, f)
    ensures var s := Run(c, INIT, events);
            s.row.Some? ==>
              var x := s.row.value.state;
              && (x.stage == Queued ==> QueueIn(events, x.queueId))
              && (x.stage == Building || x.stage == Fetching ==> x.buildNumber > 0 && BuildIn(events, x.buildNumber))
              && (x.stage == Fetching ==> VerdictIn(events, x.buildSucceeded))
  {
    assert Fits(f, INIT);
    RunSound(c, [], f, INIT, events);
    assert [] + events == events;
  }

  // ------------------------------------------------------ nothing fetched is dropped

  /** A fetched result ends the execution with exactly these bytes to be sent. */
  lemma FetchedIsSent(c: Config, x: Execution, i: Inputs, status: string, code: string, output: nat)
    requires x.stage == Fetching && i.result == Fetched(status, code, output)
    ensures var plan := Dispatch(c, x, i);
            && plan.Finish? && plan.x.stage == Terminal && plan.x.resultStatus == status && plan.x.resultCode == code
            && FinalPayload(plan.x) == ResultText(status, code, Some(output))
  {
  }

  predicate Ended(f: nat, s: Sys, p: Payload) {
    s.row.Some? && s.row.value.fingerprint == f && Rank(s.row.value.state.stage) >= 7 && FinalPayload(s.row.value.state) == p
  }

  lemma EndedStep(c: Config, f: nat, s: Sys, e: Event, p: Payload)
    requires Fits(f, s) && Uses(e, f) && Ended(f, s, p)
    ensures Ended(f, Next(c, s, e), p)
  {
    match e
    case Claim(_, _, _, _) =>
    case ReplyMoves(_, _) =>
    case Crash(_) =>
    case _ =>
      if e.o in s.workers { assert WorkerFits(f, s, e.o, s.workers[e.o]); }
  }

  /** Once an execution has ended, the reply that is ever stored carries the bytes of
      that end, whatever crashes and repeats follow. */
  lemma {:induction false} EndIsTheReply(c: Config, f: nat, s: Sys, events: seq<Event>, p: Payload)
    requires Fits(f, s) && Ended(f, s, p) && forall e :: e in events ==> Uses(e, f)
    ensures var t := Run(c, s, events); Ended(f, t, p) && (t.result.Some? ==> t.result.value.payload == p)
    decreases |events|
  {
    if events != [] {
      assert events[0] in events;
      EndedStep(c, f, s, events[0], p);
      StepFits(c, f, s, events[0]);
      EndIsTheReply(c, f, Next(c, s, events[0]), events[1..], p);
    }
  }

  // --------------------------------------------------------- why an execution ended

  /** The poll found a stage with a time limit over it; the code names the stage. */
  lemma TimeoutNamesItsStage(c: Config, x: Execution, i: Inputs)
    requires x.stage != Terminal && x.stage != Fetching && Dispatch(c, x, i).x.stage == Terminal
    ensures var z := Dispatch(c, x, i).x;
            && (z.resultStatus == "timeout" <==>
                  (x.stage == Triggering || x.stage == Queued || x.stage == Building) && i.mid >= x.stageStartedAt + Limit(c, x.stage))
            && (z.resultStatus == "timeout" ==>
                  && (z.resultCode == "JENKINS_TRIGGER_UNCERTAIN" <==> x.stage == Triggering)
                  && (z.resultCode == "JENKINS_QUEUE_TIMEOUT" <==> x.stage == Queued)
                  && (z.resultCode == "JENKINS_BUILD_TIMEOUT" <==> x.stage == Building))
  {
  }

  /** What a failed execution reports names what failed. */
  lemma FailureNamesItsCause(c: Config, x: Execution, i: Inputs)
    requires x.stage != Terminal && Dispatch(c, x, i).x.stage == Terminal && Dispatch(c, x, i).x.resultStatus == "failed"
    requires x.stage == Fetching ==> !i.result.Fetched?
    ensures var code := Dispatch(c, x, i).x.resultCode;
            && (code == "INVALID_REQUEST" <==> x.stage == New || x.stage == Ready)
            && (code == "JENKINS_TRIGGER_FAILED" <==> x.stage == Queued && i.queue == Cancelled)
            && (code == "RESULT_LIMIT_EXCEEDED" <==> x.stage == Fetching && i.result == TooLarge)
            && (code == "RESULT_UNAVAILABLE" <==> x.stage == Fetching && i.result == Unavailable && x.buildSucceeded)
            && (code == "JENKINS_BUILD_FAILED" <==> x.stage == Fetching && i.result == Unavailable && !x.buildSucceeded)
            && (code == "JENKINS_UNAVAILABLE" ==> x.failures + 1 >= c.maxFailures && x.stage != New && x.stage != Ready)
  {
  }

  /** An acknowledgement opens the way only if it was sent in time; a reply that failed
      or came too late ends the execution under its own class, a sent result under the
      class of the result. */
  lemma ReplyDecides(c: Config, x: Execution, phase: Phase, reply: ReplyState, t: nat)
    requires x.stage == if phase == AckPhase then Acknowledging else Terminal
    ensures var z, late := AfterOffer(c, x, phase, reply, t), t >= x.stageStartedAt + Limit(c, x.stage);
            && (phase == AckPhase ==>
                  && (z.stage == Ready <==> reply == ReplySucceeded && !late)
                  && (z.stage == Done <==> reply == ReplyFailed || late)
                  && (z.stage == Done ==> z.errorClass == "adapter_ack_failed"))
            && (phase == ResultPhase ==>
                  && (z.stage == Done <==> reply != ReplyWaiting || late)
                  && (z.stage == Done ==>
                        z.errorClass == if reply == ReplySucceeded then x.errorClass else "adapter_reply_failed"))
            && (z.stage == x.stage ==> z == x)
  {
  }

  /** A refused submission has failed, an accepted one is followed in the queue, and
      after an unclear one the stage stays what the saved intent says. */
  lemma SubmissionDecides(x: Execution, answer: TriggerAnswer, t: nat)
    requires x.stage == Triggering
    ensures var z := AfterSubmit(x, answer, t);
            && (z.stage == Terminal <==> answer == Refused)
            && (answer == Refused ==> z.resultStatus == "failed" && z.resultCode == "JENKINS_TRIGGER_FAILED")
            && (z.stage == Queued <==> answer.Submitted?) && (answer.Submitted? ==> z.queueId == answer.queueId)
            && (answer == Unclear ==> z == x)
  {
  }
}
