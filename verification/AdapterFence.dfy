/** Many adapter workers on one execution row: lease-fenced claims and saves, the
    durable intent before the POST, the two replies, crashes. Every clause of Next
    is one store transaction, one remote call, or the local work between two. */
module AdapterFence {
  import opened Prelude
  import opened AdapterSteps

  datatype Row = Row(state: Execution, fingerprint: nat, owner: nat, leaseUntil: nat)

  datatype Reply = Reply(payload: Payload, status: ReplyState)

  datatype Step =
    | Claimed
    | Offering(phase: Phase, payload: Payload)
    | SavingIntent
    | Posting
    | Saving(polled: bool)   // the deferred save; polled: Process met no error and did a poll

  datatype Worker = Worker(
    origin: Execution,       // the row as claimed
    base: Execution,         // the row as this worker last wrote it
    x: Execution,            // the object in memory
    matches: bool,           // the row carries this process's job fingerprint
    last: nat,               // the latest clock this worker has read
    step: Step)

  /** What happened so far; no step reads it. */
  datatype History = History(acked: bool, intents: seq<nat>, posts: nat, polls: nat, offers: seq<Payload>, conflicts: nat)

  datatype Sys = Sys(
    row: Option<Row>, ack: Option<Reply>, result: Option<Reply>,
    workers: map<nat, Worker>, used: set<nat>, clock: nat, past: History)

  datatype OfferOutcome = StoreFails | QueueFails | Reads

  datatype Event =
    | Claim(o: nat, now: nat, lease: nat, fingerprint: nat)
    | Start(o: nat, inputs: Inputs)
    | OfferReply(o: nat, outcome: OfferOutcome, at: nat)
    | Intent(o: nat, now: nat, works: bool)
    | Post(o: nat, answer: TriggerAnswer, at: nat)
    | Save(o: nat, now: nat, works: bool)
    | Crash(o: nat)
    | ReplyMoves(phase: Phase, status: ReplyState)

  const INIT := Sys(None, None, None, map[], {}, 0, History(false, [], 0, 0, [], 0))

  /** A terminal row without payload takes the bytes of a reply already stored. */
  function Recalled(x: Execution, result: Option<Reply>): Execution {
    if x.stage == Terminal && x.payload.None? && result.Some? then x.(payload := Some(result.value.payload)) else x
  }

  function ClaimNext(s: Sys, o: nat, now: nat, lease: nat, fingerprint: nat): Sys {
    var row := if s.row.None? then Row(Initial(now), fingerprint, 0, 0) else s.row.value;
    if o in s.used || now < s.clock || lease == 0 || row.leaseUntil > now then s
    else
      var x := row.state;
      var w := Worker(x, x, Recalled(x, s.result), row.fingerprint == fingerprint, now, Claimed);
      s.(row := Some(row.(owner := o, leaseUntil := now + lease)),
         workers := s.workers[o := w], used := s.used + {o}, clock := now)
  }

  function Started(c: Config, w: Worker, i: Inputs): Worker
    requires i.now <= i.mid <= i.late
  {
    if w.x.stage == Done || i.now < w.x.nextPollAt then w.(step := Saving(false), last := i.late)
    else
      var y := Prepared(c, w.x, w.matches, i);
      if !i.accountLoaded then w.(x := y, step := Saving(false), last := i.late)
      else match Dispatch(c, y, i)
        case Finish(z) => w.(x := z, step := Saving(true), last := i.late)
        case Offer(z, phase, payload) => w.(x := z, step := Offering(phase, payload), last := i.late)
        case Submit(z) => w.(x := z, step := SavingIntent, last := i.late)
  }

  function StartNext(c: Config, s: Sys, o: nat, i: Inputs): Sys {
    if o in s.workers && s.workers[o].step.Claimed? && s.workers[o].last <= i.now <= i.mid <= i.late
    then s.(workers := s.workers[o := Started(c, s.workers[o], i)])
    else s
  }

  function Stored(s: Sys, phase: Phase): Option<Reply> {
    if phase == AckPhase then s.ack else s.result
  }

  /** CreateAdapterReply: insert unless present, then compare the stored bytes. */
  function Created(s: Sys, phase: Phase, payload: Payload): Sys {
    var kept := if Stored(s, phase).Some? then Stored(s, phase) else Some(Reply(payload, ReplyWaiting));
    var past := s.past.(
      offers := if phase == ResultPhase then s.past.offers + [payload] else s.past.offers,
      conflicts := if kept.value.payload != payload then s.past.conflicts + 1 else s.past.conflicts);
    if phase == AckPhase then s.(ack := kept, past := past) else s.(result := kept, past := past)
  }

  function OfferNext(c: Config, s: Sys, o: nat, outcome: OfferOutcome, at: nat): Sys
    requires o in s.workers
  {
    var w := s.workers[o];
    if !w.step.Offering? || at < w.last then s
    else if outcome == StoreFails then s.(workers := s.workers[o := w.(step := Saving(false), last := at)])
    else
      var s' := Created(s, w.step.phase, w.step.payload);
      var reply := Stored(s', w.step.phase).value;
      if reply.payload != w.step.payload || (outcome == QueueFails && reply.status == ReplyWaiting) then
        s'.(workers := s.workers[o := w.(step := Saving(false), last := at)])
      else
        s'.(workers := s.workers[o := w.(x := AfterOffer(c, w.x, w.step.phase, reply.status, at),
                                         step := Saving(true), last := at)])
  }

  /** The WHERE clause of SaveAdapterExecution. */
  predicate Fenced(s: Sys, o: nat, now: nat) {
    s.row.Some? && s.row.value.owner == o && s.row.value.leaseUntil > now
  }

  function IntentNext(s: Sys, o: nat, now: nat, works: bool): Sys
    requires o in s.workers
  {
    var w := s.workers[o];
    if !w.step.SavingIntent? || now < s.clock || now < w.last then s
    else if !works || !Fenced(s, o, now) then
      s.(workers := s.workers[o := w.(step := Saving(false), last := now)], clock := now)
    else
      s.(row := Some(s.row.value.(state := w.x)), clock := now,
         workers := s.workers[o := w.(base := w.x, step := Posting, last := now)],
         past := s.past.(intents := s.past.intents + [o]))
  }

  function PostNext(s: Sys, o: nat, answer: TriggerAnswer, at: nat): Sys
    requires o in s.workers
  {
    var w := s.workers[o];
    if !w.step.Posting? || at < w.last then s
    else s.(workers := s.workers[o := w.(x := AfterSubmit(w.x, answer, at), step := Saving(true), last := at)],
            past := s.past.(posts := s.past.posts + 1))
  }

  function SaveNext(s: Sys, o: nat, now: nat, works: bool): Sys
    requires o in s.workers
  {
    var w := s.workers[o];
    if !w.step.Saving? || now < s.clock || now < w.last then s
    else
      var gone := s.(workers := s.workers - {o}, clock := now);
      if !works || !Fenced(s, o, now) then gone
      else gone.(row := Some(s.row.value.(state := w.x, leaseUntil := 0)),
                 past := s.past.(polls := s.past.polls + if w.step.polled then 1 else 0))
  }

  function ReplyNext(s: Sys, phase: Phase, status: ReplyState): Sys {
    if phase == AckPhase && s.ack.Some? then
      s.(ack := Some(s.ack.value.(status := status)), past := s.past.(acked := s.past.acked || status == ReplySucceeded))
    else if phase == ResultPhase && s.result.Some? then
      s.(result := Some(s.result.value.(status := status)))
    else s
  }

  function Next(c: Config, s: Sys, e: Event): Sys {
    match e
    case Claim(o, now, lease, fingerprint) => ClaimNext(s, o, now, lease, fingerprint)
    case ReplyMoves(phase, status) => ReplyNext(s, phase, status)
    case Start(o, i) => StartNext(c, s, o, i)
    case OfferReply(o, outcome, at) => if o in s.workers then OfferNext(c, s, o, outcome, at) else s
    case Intent(o, now, works) => if o in s.workers then IntentNext(s, o, now, works) else s
    case Post(o, answer, at) => if o in s.workers then PostNext(s, o, answer, at) else s
    case Save(o, now, works) => if o in s.workers then SaveNext(s, o, now, works) else s
    case Crash(o) => s.(workers := s.workers - {o})
  }

  function Run(c: Config, s: Sys, events: seq<Event>): Sys
    decreases |events|
  {
    if events == [] then s else Run(c, Next(c, s, events[0]), events[1..])
  }
}
