/** One outbound delivery under every process that touches it: accepting
    requests, the service outbox, the worker and the operator.

    Each event is one store transaction, one Redis script, one Telegram call or
    the loss of a process. Between two events a process holds only its program
    counter and locals, which a crash drops. */
module OutboundLane {
  import opened Prelude
  import R = RedisQueue

  datatype Status =
    | PendingEnqueue | Accepted | Processing | Retrying | Succeeded
    | Reconciling | DeadLettered | ReplayPending | Discarded

  datatype DlqState = Active | AwaitingReplay | Replayed | Dropped

  datatype DlqRow = DlqRow(state: DlqState, replayCount: nat)

  /** The rows SQLite keeps for one delivery. */
  datatype Row = Row(
    service: bool,                   // has a service recipient row
    status: Status,
    attempts: nat,
    attemptRows: seq<nat>,           // the sequence column of the attempt rows
    nextAttempt: Option<int>,
    dlq: Option<DlqRow>,
    outbox: Option<nat>)             // replay generation of the outbox row

  /** The worker's program counter while it holds an entry of this delivery. */
  datatype Worker =
    | Off
    | Loaded(entry: nat)                      // passed every status check
    | Begun(entry: nat, attempt: nat)         // attempt row committed
    | Calling(entry: nat, attempt: nat)       // Telegram request in flight
    | Delivered(entry: nat, attempt: nat)     // call returned without error
    | Ambiguous(entry: nat)
    | Transient(entry: nat, attempt: nat)
    | Rejected(entry: nat)
    | Orphan(entry: nat)                      // found an interrupted attempt
    | Acking(entry: nat)
    | Moving(entry: nat)                      // dead-lettered, Redis move due

  datatype Enqueuer = Idle | Taken(generation: nat) | Queued(generation: nat)

  /** A ReplayDLQ call between its prepare and its complete transaction. */
  datatype ReplayCall = ReplayCall(generation: nat, queued: bool)

  /** Calls in progress around the worker. */
  datatype Callers = Callers(
    accepting: set<nat>,             // accept calls that created or found the row
    enqueued: set<nat>,              // accept calls past the queue append
    enqueuer: Enqueuer,
    replays: map<nat, ReplayCall>)

  /** What has happened, kept only to state properties. */
  datatype History = History(
    calls: nat,                      // Telegram calls started
    landed: nat,                     // calls that succeeded, were ambiguous or were interrupted
    revived: nat,                    // discarded deliveries put back to retrying
    answers: seq<Outcome>)           // what Telegram answered, call after call

  datatype Lane = Lane(maxAttempts: nat, row: Row, redis: R.Slice, worker: Worker, callers: Callers, log: History)

  datatype Outcome = Success | AmbiguousOutcome | DefiniteTransient | Permanent

  datatype Event =
    // accept
    | Join(call: nat)
    | AcceptAppend(call: nat, ticket: nat)
    | AcceptMark(call: nat)
    | AcceptLost(call: nat)
    // service outbox
    | EnqueueTake
    | EnqueueScript(ticket: nat)
    | EnqueueComplete
    | EnqueueLost
    // operator
    | ReplayPrepare(call: nat)
    | ReplayScript(call: nat, ticket: nat)
    | ReplayComplete(call: nat)
    | ReplayLost(call: nat)
    | Discard
    // worker
    | Load(entry: nat, now: int)
    | Bury
    | GateClosed(until: int)
    | Begin
    | Call
    | Return(outcome: Outcome)
    | SaveSuccess
    | SaveRetry(at: int)
    | Reconcile
    | Ack
    | Move(dead: nat)
    | GiveUp                         // a store or queue call of the worker failed
    | Crash

  const NOBODY := Callers({}, {}, Idle, map[])

  const NOTHING := History(0, 0, 0, [])

  /** A freshly inserted delivery; service rows come with their outbox row. */
  function CreatedRow(service: bool): Row {
    Row(service, PendingEnqueue, 0, [], None, None, if service then Some(0) else None)
  }

  function Created(maxAttempts: nat, service: bool): Lane {
    Lane(maxAttempts, CreatedRow(service), R.EMPTY, Off, NOBODY, NOTHING)
  }

  function ReplayCount(r: Row): nat {
    if r.dlq.Some? then r.dlq.value.replayCount else 0
  }

  predicate CanBegin(s: Status) {
    s == Accepted || s == Retrying
  }

  predicate Live(s: Status) {
    s == Accepted || s == Processing || s == Retrying
  }

  // ------------------------------------------------------- store transactions

  function MarkAccepted(r: Row): Row {
    if r.status == PendingEnqueue then r.(status := Accepted) else r
  }

  function CompleteEnqueue(r: Row, generation: nat): Row {
    if r.outbox != Some(generation) then r
    else r.(status := if r.status == PendingEnqueue || r.status == ReplayPending then Accepted else r.status,
            dlq := if generation > 0 && r.dlq == Some(DlqRow(AwaitingReplay, generation))
                   then Some(DlqRow(Replayed, generation)) else r.dlq,
            outbox := None)
  }

  predicate Replayable(r: Row) {
    r.dlq.Some? && (r.dlq.value.state == Active || r.dlq.value.state == AwaitingReplay)
  }

  function PrepareReplay(r: Row): Row {
    if r.dlq.Some? && r.dlq.value.state == Active then
      var count := r.dlq.value.replayCount + 1;
      r.(dlq := Some(DlqRow(AwaitingReplay, count)), status := ReplayPending, nextAttempt := None,
         outbox := if r.service then Some(count) else r.outbox)
    else r
  }

  function CompleteReplay(r: Row): Row {
    r.(status := if r.status == ReplayPending then Accepted else r.status,
       dlq := if r.dlq.Some? && r.dlq.value.state == AwaitingReplay
              then Some(r.dlq.value.(state := Replayed)) else r.dlq)
  }

  function DiscardRow(r: Row): Row {
    if r.dlq.Some? && r.dlq.value.state == Active then
      r.(dlq := Some(r.dlq.value.(state := Dropped)),
         status := if r.status == DeadLettered then Discarded else r.status)
    else r
  }

  function BeginAttempt(r: Row): Row {
    if CanBegin(r.status) then
      r.(status := Processing, attempts := r.attempts + 1, attemptRows := r.attemptRows + [r.attempts + 1],
         nextAttempt := None)
    else r
  }

  function MarkRetrying(r: Row, at: int): Row {
    r.(status := Retrying, nextAttempt := Some(at))
  }

  function MarkReconciling(r: Row): Row {
    r.(status := Reconciling, nextAttempt := None)
  }

  function MarkSucceeded(r: Row): Row {
    r.(status := Succeeded, nextAttempt := None)
  }

  function MarkDeadLettered(r: Row): Row {
    r.(status := DeadLettered, nextAttempt := None, dlq := Some(DlqRow(Active, ReplayCount(r))))
  }

  // ------------------------------------------------------------------- events

  predicate ByOperator(e: Event) {
    e.ReplayPrepare? || e.ReplayScript? || e.ReplayComplete? || e.ReplayLost? || e.Discard?
  }

  predicate ByCaller(e: Event) {
    || e.Join? || e.AcceptAppend? || e.AcceptMark? || e.AcceptLost?
    || e.EnqueueTake? || e.EnqueueScript? || e.EnqueueComplete? || e.EnqueueLost?
  }

  function Next(l: Lane, e: Event): Lane {
    if ByCaller(e) then CallerNext(l, e)
    else if ByOperator(e) then OperatorNext(l, e)
    else WorkerNext(l, e)
  }

  /** accept (create or find the row, append, mark accepted) and the outbox loop. */
  function CallerNext(l: Lane, e: Event): Lane
    requires ByCaller(e)
  {
    var k := l.callers;
    match e
    case Join(c) =>
      if l.row.service then l else l.(callers := k.(accepting := k.accepting + {c}))
    case AcceptAppend(c, ticket) =>
      if c in k.accepting && R.IsFresh(l.redis, ticket) then
        l.(callers := k.(accepting := k.accepting - {c}, enqueued := k.enqueued + {c}),
           redis := R.Appended(l.redis, ticket))
      else l
    case AcceptMark(c) =>
      if c in k.enqueued then l.(row := MarkAccepted(l.row), callers := k.(enqueued := k.enqueued - {c})) else l
    case AcceptLost(c) =>
      l.(callers := k.(accepting := k.accepting - {c}, enqueued := k.enqueued - {c}))
    case EnqueueTake =>
      if k.enqueuer == Idle && l.row.outbox.Some?
      then l.(callers := k.(enqueuer := Taken(l.row.outbox.value))) else l
    case EnqueueScript(ticket) =>
      if k.enqueuer.Taken? && R.IsFresh(l.redis, ticket) then
        var g := k.enqueuer.generation;
        l.(callers := k.(enqueuer := Queued(g)),
           redis := if g == 0 then R.Appended(l.redis, ticket) else R.Replayed(l.redis, g, ticket))
      else l
    case EnqueueComplete =>
      if k.enqueuer.Queued?
      then l.(row := CompleteEnqueue(l.row, k.enqueuer.generation), callers := k.(enqueuer := Idle)) else l
    case EnqueueLost => l.(callers := k.(enqueuer := Idle))
  }

  /** ReplayDLQ (prepare, replay script, complete) and discard. */
  function OperatorNext(l: Lane, e: Event): Lane
    requires ByOperator(e)
  {
    var k := l.callers;
    match e
    case ReplayPrepare(c) =>
      if c !in k.replays && Replayable(l.row) then
        var r := PrepareReplay(l.row);
        l.(row := r, callers := k.(replays := k.replays[c := ReplayCall(ReplayCount(r), false)]))
      else l
    case ReplayScript(c, ticket) =>
      if c in k.replays && !k.replays[c].queued && R.IsFresh(l.redis, ticket) then
        l.(redis := R.Replayed(l.redis, k.replays[c].generation, ticket),
           callers := k.(replays := k.replays[c := k.replays[c].(queued := true)]))
      else l
    case ReplayComplete(c) =>
      if c in k.replays && k.replays[c].queued
      then l.(row := CompleteReplay(l.row), callers := k.(replays := k.replays - {c})) else l
    case ReplayLost(c) => l.(callers := k.(replays := k.replays - {c}))
    case Discard => l.(row := DiscardRow(l.row))
  }

  /** Where a worker that has read the row goes next. */
  function LoadedAs(r: Row, entry: nat, now: int): Worker {
    match r.status
    case PendingEnqueue => Off
    case Succeeded => Acking(entry)
    case Reconciling => Acking(entry)
    case DeadLettered => Moving(entry)
    case Processing => Orphan(entry)
    case _ => if r.nextAttempt.Some? && now < r.nextAttempt.value then Off else Loaded(entry)
  }

  /** The worker may dead-letter what it holds. */
  predicate MayBury(l: Lane) {
    || l.worker.Loaded?                                        // route or bot identity gone
    || l.worker.Begun?                                         // stored payload unusable
    || l.worker.Rejected?
    || (l.worker.Transient? && l.worker.attempt >= l.maxAttempts)
  }

  /** Where the worker goes with Telegram's answer. */
  function AnsweredAs(w: Worker, outcome: Outcome): Worker
    requires w.Calling?
  {
    match outcome
    case Success => Delivered(w.entry, w.attempt)
    case AmbiguousOutcome => Ambiguous(w.entry)
    case DefiniteTransient => Transient(w.entry, w.attempt)
    case Permanent => Rejected(w.entry)
  }

  /** The record of an answer; nothing but the answer itself decides it. */
  function Heard(h: History, outcome: Outcome): History {
    h.(answers := h.answers + [outcome],
       landed := if outcome == Success || outcome == AmbiguousOutcome then h.landed + 1 else h.landed)
  }

  /** processOutbound, one store, queue or Telegram call at a time. */
  function WorkerNext(l: Lane, e: Event): Lane
    requires !ByCaller(e) && !ByOperator(e)
  {
    var w := l.worker;
    match e
    case Load(entry, now) =>
      if w == Off && entry in l.redis.unacked then l.(worker := LoadedAs(l.row, entry, now)) else l
    case Bury =>
      if MayBury(l) then l.(row := MarkDeadLettered(l.row), worker := Moving(w.entry)) else l
    case GateClosed(until) =>
      if w.Loaded? then
        l.(row := MarkRetrying(l.row, until), worker := Off,
           log := if l.row.status == Discarded then l.log.(revived := l.log.revived + 1) else l.log)
      else l
    case Begin =>
      if w.Loaded? then
        var r := BeginAttempt(l.row);
        l.(row := r, worker := if CanBegin(l.row.status) then Begun(w.entry, r.attempts) else Off)
      else l
    case Call =>
      if w.Begun? then l.(worker := Calling(w.entry, w.attempt), log := l.log.(calls := l.log.calls + 1)) else l
    case Return(outcome) =>
      if w.Calling? then l.(worker := AnsweredAs(w, outcome), log := Heard(l.log, outcome)) else l
    case SaveSuccess =>
      if w.Delivered? then l.(row := MarkSucceeded(l.row), worker := Acking(w.entry)) else l
    case SaveRetry(at) =>
      if w.Transient? && w.attempt < l.maxAttempts then l.(row := MarkRetrying(l.row, at), worker := Off) else l
    case Reconcile =>
      if w.Ambiguous? || w.Orphan? then l.(row := MarkReconciling(l.row), worker := Acking(w.entry)) else l
    case Ack =>
      if w.Acking? then l.(redis := R.Acked(l.redis, w.entry), worker := Off) else l
    case Move(dead) =>
      if w.Moving? then l.(redis := R.Moved(l.redis, w.entry, dead), worker := Off) else l
    case GiveUp =>
      if w.Calling? then l else l.(worker := Off)
    case Crash =>
      l.(worker := Off, log := if w.Calling? then l.log.(landed := l.log.landed + 1) else l.log)
  }

  function Run(l: Lane, events: seq<Event>): Lane
    decreases |events|
  {
    if events == [] then l else Run(Next(l, events[0]), events[1..])
  }
}
