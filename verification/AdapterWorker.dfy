/** The adapter in the form it runs in: an execution object changed field by field
    by Process, and the tables its three transactions update. Every method is tied
    to the step of the state machine it carries out. */
module AdapterWorker {
  import opened Prelude
  import opened AdapterSteps
  import opened AdapterFence

  class ExecutionState {
    var stage: Stage
    var queueId: nat
    var buildNumber: nat
    var buildSucceeded: bool
    var stageStartedAt: nat
    var nextPollAt: nat
    var failures: nat
    var errorClass: string
    var resultStatus: string
    var resultCode: string
    var payload: Option<Payload>

    constructor (x: Execution)
      ensures View() == x
    {
      stage, queueId, buildNumber, buildSucceeded := x.stage, x.queueId, x.buildNumber, x.buildSucceeded;
      stageStartedAt, nextPollAt, failures := x.stageStartedAt, x.nextPollAt, x.failures;
      errorClass, resultStatus, resultCode, payload := x.errorClass, x.resultStatus, x.resultCode, x.payload;
    }

    function View(): Execution
      reads this
    {
      Execution(stage, queueId, buildNumber, buildSucceeded, stageStartedAt, nextPollAt, failures,
                errorClass, resultStatus, resultCode, payload)
    }

    method Advance(next: Stage, t: nat)
      modifies this
      ensures View() == Advanced(old(View()), next, t)
    {
      stage := next;
      stageStartedAt := t;
      failures := 0;
    }

    method Terminate(status: string, code: string, t: nat)
      modifies this
      ensures View() == Terminated(old(View()), status, code, t)
    {
      Advance(Terminal, t);
      resultStatus := status;
      resultCode := code;
      errorClass := Lower(code);
    }

    method NetworkFailure(c: Config, t: nat)
      modifies this
      ensures View() == NetworkFailed(c, old(View()), t)
    {
      failures := failures + 1;
      errorClass := "jenkins_unavailable";
      if failures >= c.maxFailures {
        Terminate("failed", "JENKINS_UNAVAILABLE", t);
      }
    }

    method Locate(found: FindAnswer, t: nat)
      requires found.Found?
      modifies this
      ensures View() == Located(old(View()), found, t)
    {
      failures := 0;
      if found.build > 0 {
        buildNumber := found.build;
        Advance(Building, t);
      } else if found.queueId > 0 && stage == Triggering {
        queueId := found.queueId;
        Advance(Queued, t);
      }
    }

    method PollTriggering(c: Config, i: Inputs)
      requires stage == Triggering
      modifies this
      ensures Finish(View()) == Dispatch(c, old(View()), i)
    {
      if i.mid - stageStartedAt >= c.queueTimeout {
        Terminate("timeout", "JENKINS_TRIGGER_UNCERTAIN", i.late);
        return;
      }
      if i.find.FindFailed? {
        NetworkFailure(c, i.late);
        return;
      }
      Locate(i.find, i.late);
    }

    method PollQueued(c: Config, i: Inputs)
      requires stage == Queued
      modifies this
      ensures Finish(View()) == Dispatch(c, old(View()), i)
    {
      if i.mid - stageStartedAt >= c.queueTimeout {
        Terminate("timeout", "JENKINS_QUEUE_TIMEOUT", i.late);
        return;
      }
      if i.queue.QueueFailed? {
        NetworkFailure(c, i.late);
        return;
      }
      if i.queue.Cancelled? {
        Terminate("failed", "JENKINS_TRIGGER_FAILED", i.late);
        return;
      }
      var build := if i.queue.Waiting? then i.queue.build else 0;
      if i.queue.Missing? {
        if i.queue.find.FindFailed? {
          NetworkFailure(c, i.late);
          return;
        }
        build := i.queue.find.build;
      }
      failures := 0;
      if build > 0 {
        buildNumber := build;
        Advance(Building, i.late);
      }
    }

    method PollBuilding(c: Config, i: Inputs)
      requires stage == Building
      modifies this
      ensures Finish(View()) == Dispatch(c, old(View()), i)
    {
      if i.mid - stageStartedAt >= c.buildTimeout {
        Terminate("timeout", "JENKINS_BUILD_TIMEOUT", i.late);
        return;
      }
      if i.build.BuildFailed? {
        NetworkFailure(c, i.late);
        return;
      }
      failures := 0;
      if i.build.Built? {
        buildSucceeded := i.build.succeeded;
        Advance(Fetching, i.late);
      }
    }

    method PollResult(c: Config, i: Inputs)
      requires stage == Fetching
      modifies this
      ensures Finish(View()) == Dispatch(c, old(View()), i)
    {
      match i.result
      case TooLarge => Terminate("failed", "RESULT_LIMIT_EXCEEDED", i.late);
      case Unavailable =>
        var code := "RESULT_UNAVAILABLE";
        if !buildSucceeded {
          code := "JENKINS_BUILD_FAILED";
        }
        Terminate("failed", code, i.late);
      case ResultFailed => NetworkFailure(c, i.late);
      case Fetched(status, code, output) =>
        Terminate(status, code, i.late);
        payload := Some(ResultText(status, code, Some(output)));
    }

    /** The switch of Process: what the call does next. */
    method Switch(c: Config, i: Inputs) returns (step: Step)
      modifies this
      ensures match Dispatch(c, old(View()), i)
              case Finish(z) => View() == z && step == Saving(true)
              case Offer(z, phase, payload) => View() == z && step == Offering(phase, payload)
              case Submit(z) => View() == z && step == SavingIntent
    {
      step := Saving(true);
      match stage
      case New =>
        if i.parse == Malformed {
          Terminate("failed", "INVALID_REQUEST", i.late);
        } else if i.parse == NotARequest {
          stage := Done;
        } else {
          Advance(Acknowledging, i.late);
        }
      case Acknowledging => step := Offering(AckPhase, AckText);
      case Ready =>
        if i.parse != Request {
          Terminate("failed", "INVALID_REQUEST", i.late);
        } else {
          Advance(Triggering, i.late);
          step := SavingIntent;
        }
      case Triggering => PollTriggering(c, i);
      case Queued => PollQueued(c, i);
      case Building => PollBuilding(c, i);
      case Fetching => PollResult(c, i);
      case Terminal =>
        if payload.None? {
          payload := Some(ResultText(resultStatus, resultCode, None));
        }
        step := Offering(ResultPhase, payload.value);
      case Done =>
    }

    /** What Process does before its switch. */
    method Prepare(c: Config, matches: bool, i: Inputs)
      modifies this
      ensures View() == Prepared(c, old(View()), matches, i)
    {
      nextPollAt := i.now + c.poll;
      if !matches && stage != Terminal {
        Terminate("failed", "ADAPTER_CONFIG_CHANGED", i.mid);
      }
    }

    /** Process from the claimed row to its next transaction. */
    method Poll(c: Config, i: Inputs, matches: bool, ghost w: Worker) returns (step: Step)
      requires i.now <= i.mid <= i.late
      requires w.x == View() && w.matches == matches
      modifies this
      ensures View() == Started(c, w, i).x && step == Started(c, w, i).step
    {
      if stage == Done {
        return Saving(false);
      }
      if i.now < nextPollAt {
        return Saving(false);
      }
      Prepare(c, matches, i);
      if !i.accountLoaded {
        return Saving(false);
      }
      step := Switch(c, i);
    }

    /** The rest of Process after a reply's row was read back. */
    method Replied(c: Config, phase: Phase, reply: ReplyState, t: nat)
      modifies this
      ensures View() == AfterOffer(c, old(View()), phase, reply, t)
    {
      var late := t - stageStartedAt >= c.replyTimeout;
      if phase == AckPhase {
        if reply == ReplyFailed || late {
          stage := Done;
          errorClass := "adapter_ack_failed";
          return;
        }
        if reply == ReplySucceeded {
          Advance(Ready, t);
        }
      } else {
        if reply == ReplySucceeded {
          stage := Done;
          return;
        }
        if reply == ReplyFailed || late {
          stage := Done;
          errorClass := "adapter_reply_failed";
        }
      }
    }

    /** The rest of Process after the POST. */
    method Answered(answer: TriggerAnswer, t: nat)
      modifies this
      ensures View() == AfterSubmit(old(View()), answer, t)
    {
      match answer
      case Refused => Terminate("failed", "JENKINS_TRIGGER_FAILED", t);
      case Submitted(id) =>
        queueId := id;
        Advance(Queued, t);
      case Unclear =>
    }
  }

  /** gateway_adapter_executions and gateway_adapter_replies for one delivery. */
  class Tables {
    var row: Option<Row>
    var ack: Option<Reply>
    var result: Option<Reply>

    ghost predicate Holds(s: Sys)
      reads this
    {
      row == s.row && ack == s.ack && result == s.result
    }

    /** ClaimAdapterExecution; None: another worker holds the lease. */
    method Claim(o: nat, now: nat, lease: nat, fingerprint: nat, ghost s: Sys) returns (state: Option<Execution>, matches: bool)
      requires Holds(s) && o !in s.used && o !in s.workers && s.clock <= now && lease > 0
      modifies this`row
      ensures var s' := ClaimNext(s, o, now, lease, fingerprint);
              && (state.Some? <==> o in s'.workers)
              && (state.Some? ==> Holds(s') && state.value == s'.workers[o].x && matches == s'.workers[o].matches)
              && (state.None? ==> row.Some? && s' == s)
    {
      if row.None? {
        row := Some(Row(Initial(now), fingerprint, 0, 0));
      }
      if row.value.leaseUntil > now {
        return None, false;
      }
      row := Some(row.value.(owner := o, leaseUntil := now + lease));
      var x := row.value.state;
      if x.stage == Terminal && x.payload.None? && result.Some? {
        x := x.(payload := Some(result.value.payload));
      }
      return Some(x), row.value.fingerprint == fingerprint;
    }

    /** SaveAdapterExecution without release: the durable intent. */
    method SaveIntent(x: Execution, o: nat, now: nat, ghost s: Sys) returns (saved: bool)
      requires Holds(s) && o in s.workers && s.workers[o].step.SavingIntent? && s.workers[o].x == x
      requires s.clock <= now && s.workers[o].last <= now
      modifies this`row
      ensures var s' := IntentNext(s, o, now, true);
              Holds(s') && (saved <==> s'.workers[o].step.Posting?)
    {
      saved := Write(x, o, now, false);
    }

    /** SaveAdapterExecution with release: the deferred save. */
    method SaveAndRelease(x: Execution, o: nat, now: nat, ghost s: Sys) returns (saved: bool)
      requires Holds(s) && o in s.workers && s.workers[o].step.Saving? && s.workers[o].x == x
      requires s.clock <= now && s.workers[o].last <= now
      modifies this`row
      ensures Holds(SaveNext(s, o, now, true)) && (saved <==> Fenced(s, o, now))
    {
      saved := Write(x, o, now, true);
    }

    method Write(x: Execution, o: nat, now: nat, release: bool) returns (saved: bool)
      modifies this`row
      ensures saved <==> old(row).Some? && old(row).value.owner == o && old(row).value.leaseUntil > now
      ensures row == if saved
                     then Some(old(row).value.(state := x, leaseUntil := if release then 0 else old(row).value.leaseUntil))
                     else old(row)
    {
      saved := row.Some? && row.value.owner == o && row.value.leaseUntil > now;
      if saved {
        row := Some(row.value.(state := x, leaseUntil := if release then 0 else row.value.leaseUntil));
      }
    }

    /** CreateAdapterReply; None: the stored payload differs. */
    method CreateReply(phase: Phase, payload: Payload, ghost s: Sys) returns (status: Option<ReplyState>)
      requires Holds(s)
      modifies this`ack, this`result
      ensures var s' := Created(s, phase, payload);
              && Holds(s')
              && (status.Some? <==> s'.past.conflicts == s.past.conflicts)
              && (status.Some? ==> status.value == Stored(s', phase).value.status)
    {
      var reply := Reply(payload, ReplyWaiting);
      if phase == AckPhase {
        if ack.None? { ack := Some(reply); }
        reply := ack.value;
      } else {
        if result.None? { result := Some(reply); }
        reply := result.value;
      }
      if reply.payload != payload {
        return None;
      }
      return Some(reply.status);
    }
  }
}
