/** One bounded step of the embedded adapter: what a Process call makes of the
    execution it claimed. Times are milliseconds. */
module AdapterSteps {
  import opened Prelude

  datatype Stage = New | Acknowledging | Ready | Triggering | Queued | Building | Fetching | Terminal | Done

  datatype Config = Config(poll: nat, queueTimeout: nat, buildTimeout: nat, replyTimeout: nat, maxFailures: nat)

  /** What normalizeAdapterConfig lets through, with whole milliseconds. */
  predicate ValidConfig(c: Config) {
    c.poll > 0 && c.queueTimeout > 0 && c.buildTimeout > 0 && c.replyTimeout > 0 && c.maxFailures > 0
  }

  /** A reply's bytes; the chat message it answers is fixed by the delivery. */
  datatype Payload = AckText | ResultText(status: string, code: string, output: Option<nat>)

  datatype Phase = AckPhase | ResultPhase

  datatype Execution = Execution(
    stage: Stage, queueId: nat, buildNumber: nat, buildSucceeded: bool,
    stageStartedAt: nat, nextPollAt: nat, failures: nat,
    errorClass: string, resultStatus: string, resultCode: string, payload: Option<Payload>)

  function Initial(now: nat): Execution {
    Execution(New, 0, 0, false, now, 0, 0, "", "", "", None)
  }

  // What the outside world answers during one call.
  datatype Parse = Malformed | NotARequest | Request
  datatype TriggerAnswer = Refused | Submitted(queueId: nat) | Unclear
  datatype FindAnswer = FindFailed | Found(queueId: nat, build: nat)
  datatype QueueAnswer = QueueFailed | Cancelled | Missing(find: FindAnswer) | Waiting(build: nat)
  datatype BuildAnswer = BuildFailed | StillBuilding | Built(succeeded: bool)
  datatype ResultAnswer = TooLarge | Unavailable | ResultFailed | Fetched(status: string, code: string, output: nat)

  datatype Inputs = Inputs(
    now: nat,              // the clock at the start of the call
    mid: nat,              // the clock when the stage's age is checked
    late: nat,             // the clock when the stage is left
    accountLoaded: bool, parse: Parse,
    find: FindAnswer, queue: QueueAnswer, build: BuildAnswer, result: ResultAnswer)

  datatype ReplyState = ReplyWaiting | ReplySucceeded | ReplyFailed

  function Rank(s: Stage): nat {
    match s
    case New => 0
    case Acknowledging => 1
    case Ready => 2
    case Triggering => 3
    case Queued => 4
    case Building => 5
    case Fetching => 6
    case Terminal => 7
    case Done => 8
  }

  function Lower(s: string): string {
    seq(|s|, i requires 0 <= i < |s| => if 'A' <= s[i] <= 'Z' then s[i] + 32 as char else s[i])
  }

  function Advanced(x: Execution, stage: Stage, t: nat): Execution {
    x.(stage := stage, stageStartedAt := t, failures := 0)
  }

  function Expired(x: Execution, limit: nat, t: nat): bool {
    t - x.stageStartedAt >= limit
  }

  function Terminated(x: Execution, status: string, code: string, t: nat): Execution {
    Advanced(x, Terminal, t).(resultStatus := status, resultCode := code, errorClass := Lower(code))
  }

  function NetworkFailed(c: Config, x: Execution, t: nat): Execution {
    var y := x.(failures := x.failures + 1, errorClass := "jenkins_unavailable");
    if y.failures >= c.maxFailures then Terminated(y, "failed", "JENKINS_UNAVAILABLE", t) else y
  }

  /** Everything before the switch over the stage. */
  function Prepared(c: Config, x: Execution, matches: bool, i: Inputs): Execution {
    var y := x.(nextPollAt := i.now + c.poll);
    if !matches && x.stage != Terminal then Terminated(y, "failed", "ADAPTER_CONFIG_CHANGED", i.mid) else y
  }

  /** The reply a terminal execution sends, kept once it has been built. */
  function FinalPayload(x: Execution): Payload {
    if x.payload.Some? then x.payload.value else ResultText(x.resultStatus, x.resultCode, None)
  }

  datatype Plan =
    | Finish(x: Execution)                                    // nothing further but the deferred save
    | Offer(x: Execution, phase: Phase, payload: Payload)     // create the reply, then finish
    | Submit(x: Execution)                                    // save the intent, then POST

  function Located(x: Execution, found: FindAnswer, t: nat): Execution
    requires found.Found?
  {
    var y := x.(failures := 0);
    if found.build > 0 then Advanced(y.(buildNumber := found.build), Building, t)
    else if found.queueId > 0 && x.stage == Triggering then Advanced(y.(queueId := found.queueId), Queued, t)
    else y
  }

  /** The switch of Process over the stage. */
  function Dispatch(c: Config, x: Execution, i: Inputs): Plan {
    match x.stage
    case New =>
      if i.parse == Malformed then Finish(Terminated(x, "failed", "INVALID_REQUEST", i.late))
      else if i.parse == NotARequest then Finish(x.(stage := Done))
      else Finish(Advanced(x, Acknowledging, i.late))
    case Acknowledging => Offer(x, AckPhase, AckText)
    case Ready =>
      if i.parse != Request then Finish(Terminated(x, "failed", "INVALID_REQUEST", i.late))
      else Submit(Advanced(x, Triggering, i.late))
    case Triggering =>
      if Expired(x, c.queueTimeout, i.mid) then Finish(Terminated(x, "timeout", "JENKINS_TRIGGER_UNCERTAIN", i.late))
      else if i.find.FindFailed? then Finish(NetworkFailed(c, x, i.late))
      else Finish(Located(x, i.find, i.late))
    case Queued =>
      if Expired(x, c.queueTimeout, i.mid) then Finish(Terminated(x, "timeout", "JENKINS_QUEUE_TIMEOUT", i.late))
      else (match i.queue
            case QueueFailed => Finish(NetworkFailed(c, x, i.late))
            case Cancelled => Finish(Terminated(x, "failed", "JENKINS_TRIGGER_FAILED", i.late))
            case Missing(find) =>
              if find.FindFailed? then Finish(NetworkFailed(c, x, i.late)) else Finish(Located(x, find, i.late))
            case Waiting(build) => Finish(Located(x, Found(0, build), i.late)))
    case Building =>
      if Expired(x, c.buildTimeout, i.mid) then Finish(Terminated(x, "timeout", "JENKINS_BUILD_TIMEOUT", i.late))
      else (match i.build
            case BuildFailed => Finish(NetworkFailed(c, x, i.late))
            case StillBuilding => Finish(x.(failures := 0))
            case Built(ok) => Finish(Advanced(x.(failures := 0, buildSucceeded := ok), Fetching, i.late)))
    case Fetching =>
      (match i.result
       case TooLarge => Finish(Terminated(x, "failed", "RESULT_LIMIT_EXCEEDED", i.late))
       case Unavailable =>
         Finish(Terminated(x, "failed", if x.buildSucceeded then "RESULT_UNAVAILABLE" else "JENKINS_BUILD_FAILED", i.late))
       case ResultFailed => Finish(NetworkFailed(c, x, i.late))
       case Fetched(status, code, output) =>
         Finish(Terminated(x, status, code, i.late).(payload := Some(ResultText(status, code, Some(output))))))
    case Terminal => Offer(x.(payload := Some(FinalPayload(x))), ResultPhase, FinalPayload(x))
    case Done => Finish(x)
  }

  /** After the reply's row was read back, and, if it waits, queued. */
  function AfterOffer(c: Config, x: Execution, phase: Phase, reply: ReplyState, t: nat): Execution {
    var late := Expired(x, c.replyTimeout, t);
    match phase
    case AckPhase =>
      if reply == ReplyFailed || late then x.(stage := Done, errorClass := "adapter_ack_failed")
      else if reply == ReplySucceeded then Advanced(x, Ready, t)
      else x
    case ResultPhase =>
      if reply == ReplySucceeded then x.(stage := Done)
      else if reply == ReplyFailed || late then x.(stage := Done, errorClass := "adapter_reply_failed")
      else x
  }

  function AfterSubmit(x: Execution, answer: TriggerAnswer, t: nat): Execution {
    match answer
    case Refused => Terminated(x, "failed", "JENKINS_TRIGGER_FAILED", t)
    case Submitted(queueId) => Advanced(x.(queueId := queueId), Queued, t)
    case Unclear => x
  }

  // ------------------------------------------------------- how far it has to go

  /** The number of polls, one every b, that an age of a can take: a / b rounded up. */
  function CeilDiv(a: nat, b: nat): nat
    requires b > 0
  {
    if a == 0 then 0 else if a <= b then 1 else 1 + CeilDiv(a - b, b)
  }

  /** CeilDiv is the least q with a <= q * b. */
  lemma {:induction false} CeilDivIsLeast(a: nat, b: nat)
    requires b > 0
    ensures a <= CeilDiv(a, b) * b < a + b
  {
    if a > b {
      CeilDivIsLeast(a - b, b);
      assert CeilDiv(a, b) * b == CeilDiv(a - b, b) * b + b;
    }
  }

  lemma {:induction false} CeilDivMonotone(a: nat, a': nat, b: nat)
    requires b > 0 && a <= a'
    ensures CeilDiv(a, b) <= CeilDiv(a', b)
  {
    if a > b { CeilDivMonotone(a - b, a' - b, b); }
  }

  function Limit(c: Config, s: Stage): nat {
    match s
    case Acknowledging => c.replyTimeout
    case Triggering => c.queueTimeout
    case Queued => c.queueTimeout
    case Building => c.buildTimeout
    case Terminal => c.replyTimeout
    case _ => 0
  }

  predicate Timed(s: Stage) {
    s == Acknowledging || s == Triggering || s == Queued || s == Building || s == Terminal
  }

  /** The most polls one visit of a stage can take. */
  function FullStage(c: Config, s: Stage): nat
    requires ValidConfig(c)
  {
    if Timed(s) then 1 + CeilDiv(Limit(c, s), c.poll)
    else match s
      case New => 1
      case Ready => 1
      case Fetching => c.maxFailures
      case _ => 0
  }

  /** The most polls all stages of this rank and later can take. */
  function FullFrom(c: Config, s: Stage): nat
    requires ValidConfig(c)
    decreases 8 - Rank(s)
  {
    FullStage(c, s) +
    match s
    case New => FullFrom(c, Acknowledging)
    case Acknowledging => FullFrom(c, Ready)
    case Ready => FullFrom(c, Triggering)
    case Triggering => FullFrom(c, Queued)
    case Queued => FullFrom(c, Building)
    case Building => FullFrom(c, Fetching)
    case Fetching => FullFrom(c, Terminal)
    case Terminal => FullFrom(c, Done)
    case Done => 0
  }

  /** When the next poll of the execution can come at the earliest. */
  function Earliest(x: Execution): nat {
    Max(x.nextPollAt, x.stageStartedAt)
  }

  function StageLeft(c: Config, x: Execution): nat
    requires ValidConfig(c)
  {
    if Timed(x.stage) then
      var deadline := x.stageStartedAt + Limit(c, x.stage);
      1 + CeilDiv(if deadline > Earliest(x) then deadline - Earliest(x) else 0, c.poll)
    else if x.stage == Fetching then (if x.failures < c.maxFailures then c.maxFailures - x.failures else 1)
    else FullStage(c, x.stage)
  }

  /** An upper bound on the error-free polls the execution still needs. */
  function Left(c: Config, x: Execution): nat
    requires ValidConfig(c)
  {
    StageLeft(c, x) + FullFrom(c, x.stage) - FullStage(c, x.stage)
  }

  lemma FullFromDrops(c: Config, s: Stage, t: Stage)
    requires ValidConfig(c) && Rank(s) < Rank(t)
    ensures FullFrom(c, t) + FullStage(c, s) <= FullFrom(c, s)
  {
  }

  lemma StageLeftIsFull(c: Config, x: Execution)
    requires ValidConfig(c)
    ensures StageLeft(c, x) <= FullStage(c, x.stage)
    ensures x.stage != Done ==> StageLeft(c, x) > 0
  {
    if Timed(x.stage) {
      var deadline := x.stageStartedAt + Limit(c, x.stage);
      CeilDivMonotone(if deadline > Earliest(x) then deadline - Earliest(x) else 0, Limit(c, x.stage), c.poll);
    }
  }

  /** Reaching a later stage always leaves fewer polls. */
  lemma LaterIsLess(c: Config, x: Execution, y: Execution)
    requires ValidConfig(c) && Rank(x.stage) < Rank(y.stage)
    ensures Left(c, y) < Left(c, x)
  {
    StageLeftIsFull(c, x);
    StageLeftIsFull(c, y);
    FullFromDrops(c, x.stage, y.stage);
  }

  /** Staying, after a poll that was due and found the stage not expired. */
  lemma StayingIsLess(c: Config, x: Execution, y: Execution, now: nat)
    requires ValidConfig(c) && Timed(x.stage)
    requires y.stage == x.stage && y.stageStartedAt == x.stageStartedAt
    requires Earliest(x) <= now && y.nextPollAt == now + c.poll
    requires now < x.stageStartedAt + Limit(c, x.stage)
    ensures Left(c, y) < Left(c, x)
  {
    var deadline := x.stageStartedAt + Limit(c, x.stage);
    var before := deadline - Earliest(x);
    var after := if deadline > Earliest(y) then deadline - Earliest(y) else 0;
    CeilDivMonotone(after, if before > c.poll then before - c.poll else 0, c.poll);
  }

  /** Postponing the next poll never adds polls. */
  lemma PostponingIsNoMore(c: Config, x: Execution, y: Execution)
    requires ValidConfig(c)
    requires y.stage == x.stage && y.stageStartedAt == x.stageStartedAt && y.failures == x.failures
    requires y.nextPollAt >= x.nextPollAt
    ensures Left(c, y) <= Left(c, x)
  {
    if Timed(x.stage) {
      var deadline := x.stageStartedAt + Limit(c, x.stage);
      CeilDivMonotone(if deadline > Earliest(y) then deadline - Earliest(y) else 0,
                      if deadline > Earliest(x) then deadline - Earliest(x) else 0, c.poll);
    }
  }

  /** The explicit bound on error-free polls of one execution. */
  function Bound(c: Config): nat
    requires ValidConfig(c)
  {
    6 + 2 * CeilDiv(c.replyTimeout, c.poll) + 2 * CeilDiv(c.queueTimeout, c.poll)
    + CeilDiv(c.buildTimeout, c.poll) + c.maxFailures + 1
  }

  lemma BoundIsFull(c: Config)
    requires ValidConfig(c)
    ensures FullFrom(c, New) == Bound(c)
  {
    assert FullFrom(c, Terminal) == 1 + CeilDiv(c.replyTimeout, c.poll);
    assert FullFrom(c, Building) == 1 + CeilDiv(c.buildTimeout, c.poll) + c.maxFailures + FullFrom(c, Terminal);
    assert FullFrom(c, Triggering) == 2 * (1 + CeilDiv(c.queueTimeout, c.poll)) + FullFrom(c, Building);
  }
}
