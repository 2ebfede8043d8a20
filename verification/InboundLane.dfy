/** One inbound delivery under the ingesting poller, the single inbound worker and
    the operator. Every event is one store transaction, one Redis script, one
    call of the backend, or the loss of a process. */
module InboundLane {
  import opened Prelude
  import R = RedisQueue

  datatype Status =
    | Pending | Retrying | Succeeded | Dlq | RejectedUnknown | RejectedDisabled | ReplayPending | Discarded

  datatype DlqState = Active | AwaitingReplay | Replayed | Dropped

  datatype DlqRow = DlqRow(state: DlqState, replayCount: nat)

  datatype Row = Row(
    adapter: bool,                  // the pinned revision names the embedded adapter
    status: Status,
    stream: Option<nat>,            // stream_id
    attempts: nat,
    nextAttempt: Option<int>,
    dlq: Option<DlqRow>)

  datatype Worker =
    | Off
    | Loaded(entry: nat)                              // passed every status check
    | Begun(entry: nat, attempt: nat)                 // attempt row committed
    | Answered(entry: nat, attempt: nat, ok: bool)    // backend or adapter has answered
    | Failed(entry: nat)                              // out of attempts, failure saved
    | Acking(entry: nat)
    | Moving(entry: nat)                              // the status DLQ is or was saved

  datatype ReplayCall = ReplayCall(generation: nat, queued: Option<nat>)

  datatype Callers = Callers(
    ingesting: set<nat>,            // IngestUpdate calls that must append
    queued: map<nat, nat>,          // and those past the append, with the stream ID
    replays: map<nat, ReplayCall>)

  datatype Lane = Lane(maxAttempts: nat, row: Row, redis: R.Slice, worker: Worker, callers: Callers)

  datatype Event =
    // IngestUpdate
    | Join(call: nat)
    | IngestAppend(call: nat, ticket: nat)
    | IngestSet(call: nat)
    | IngestLost(call: nat)
    // operator
    | ReplayPrepare(call: nat)
    | ReplayScript(call: nat, ticket: nat)
    | ReplayComplete(call: nat)
    | ReplayLost(call: nat)
    | Discard
    // worker
    | Load(entry: nat, now: int)
    | NotDone                       // the adapter has more to do
    | Begin
    | Answer(ok: bool)
    | Complete
    | Fail(at: int)
    | Bury
    | Ack
    | Move(dead: nat)
    | Lost                          // a store or queue call failed, or the process died

  const NOBODY := Callers({}, map[], map[])

  function Created(maxAttempts: nat, adapter: bool, status: Status): Lane {
    Lane(maxAttempts, Row(adapter, status, None, 0, None, None), R.EMPTY, Off, NOBODY)
  }

  predicate Rejected(s: Status) {
    s == RejectedUnknown || s == RejectedDisabled
  }

  predicate Live(s: Status) {
    s == Pending || s == Retrying
  }

  function ReplayCount(r: Row): nat {
    if r.dlq.Some? then r.dlq.value.replayCount else 0
  }

  /** IngestUpdate answers without touching the queue. */
  predicate Settled(r: Row) {
    Rejected(r.status) || r.status == Succeeded || r.status == Dlq || r.stream.Some?
  }

  // --------------------------------------------------------- store transactions

  predicate Replayable(r: Row) {
    r.dlq.Some? && (r.dlq.value.state == Active || r.dlq.value.state == AwaitingReplay)
  }

  function PrepareReplay(r: Row): Row {
    if r.dlq.Some? && r.dlq.value.state == Active then
      r.(dlq := Some(DlqRow(AwaitingReplay, r.dlq.value.replayCount + 1)), status := ReplayPending, nextAttempt := None)
    else r
  }

  function CompleteReplay(r: Row, stream: nat): Row {
    r.(status := if r.status == ReplayPending then Pending else r.status,
       stream := if r.status == ReplayPending then Some(stream) else r.stream,
       dlq := if r.dlq.Some? && r.dlq.value.state == AwaitingReplay
              then Some(r.dlq.value.(state := Replayed)) else r.dlq)
  }

  function DiscardRow(r: Row): Row {
    if r.dlq.Some? && r.dlq.value.state == Active then
      r.(dlq := Some(r.dlq.value.(state := Dropped)), status := if r.status == Dlq then Discarded else r.status)
    else r
  }

  function SetStream(r: Row, stream: nat): Row {
    if r.stream.None? then r.(stream := Some(stream)) else r
  }

  /** No status guard. */
  function BeginAttempt(r: Row): Row {
    r.(attempts := r.attempts + 1, status := Pending)
  }

  function CompleteAttempt(r: Row): Row {
    r.(status := Succeeded, nextAttempt := None)
  }

  function FailAttempt(r: Row, at: int): Row {
    r.(status := Retrying, nextAttempt := Some(at))
  }

  function MarkDlq(r: Row): Row {
    r.(status := Dlq, nextAttempt := None, dlq := Some(DlqRow(Active, ReplayCount(r))))
  }

  // --------------------------------------------------------------------- events

  predicate ByIngest(e: Event) {
    e.Join? || e.IngestAppend? || e.IngestSet? || e.IngestLost?
  }

  predicate ByOperator(e: Event) {
    e.ReplayPrepare? || e.ReplayScript? || e.ReplayComplete? || e.ReplayLost? || e.Discard?
  }

  function Next(l: Lane, e: Event): Lane {
    if ByIngest(e) then IngestNext(l, e) else if ByOperator(e) then OperatorNext(l, e) else WorkerNext(l, e)
  }

  function IngestNext(l: Lane, e: Event): Lane
    requires ByIngest(e)
  {
    var k := l.callers;
    match e
    case Join(c) =>
      if Settled(l.row) then l else l.(callers := k.(ingesting := k.ingesting + {c}))
    case IngestAppend(c, ticket) =>
      if c in k.ingesting && R.IsFresh(l.redis, ticket) then
        var redis := R.Appended(l.redis, ticket);
        l.(redis := redis,
           callers := k.(ingesting := k.ingesting - {c}, queued := k.queued[c := redis.index.value]))
      else l
    case IngestSet(c) =>
      if c in k.queued then l.(row := SetStream(l.row, k.queued[c]), callers := k.(queued := k.queued - {c})) else l
    case IngestLost(c) =>
      l.(callers := k.(ingesting := k.ingesting - {c}, queued := k.queued - {c}))
  }

  function OperatorNext(l: Lane, e: Event): Lane
    requires ByOperator(e)
  {
    var k := l.callers;
    match e
    case ReplayPrepare(c) =>
      if c !in k.replays && Replayable(l.row) then
        var r := PrepareReplay(l.row);
        l.(row := r, callers := k.(replays := k.replays[c := ReplayCall(ReplayCount(r), None)]))
      else l
    case ReplayScript(c, ticket) =>
      if c in k.replays && k.replays[c].queued.None? && R.IsFresh(l.redis, ticket) then
        var g := k.replays[c].generation;
        var redis := R.Replayed(l.redis, g, ticket);
        l.(redis := redis, callers := k.(replays := k.replays[c := ReplayCall(g, Some(redis.replays[g]))]))
      else l
    case ReplayComplete(c) =>
      if c in k.replays && k.replays[c].queued.Some?
      then l.(row := CompleteReplay(l.row, k.replays[c].queued.value), callers := k.(replays := k.replays - {c}))
      else l
    case ReplayLost(c) => l.(callers := k.(replays := k.replays - {c}))
    case Discard => l.(row := DiscardRow(l.row))
  }

  /** Where process goes after reading the row; it has no branch for a discarded
      or replay-pending delivery. */
  function LoadedAs(r: Row, entry: nat, now: int): Worker {
    if r.status == Dlq then Moving(entry)
    else if r.status == Succeeded || Rejected(r.status) then Acking(entry)
    else if r.nextAttempt.Some? && now < r.nextAttempt.value then Off
    else Loaded(entry)
  }

  function WorkerNext(l: Lane, e: Event): Lane
    requires !ByIngest(e) && !ByOperator(e)
  {
    var w := l.worker;
    match e
    case Load(entry, now) =>
      if w == Off && entry in l.redis.unacked then l.(worker := LoadedAs(l.row, entry, now)) else l
    case NotDone => if w.Loaded? && l.row.adapter then l.(worker := Off) else l
    case Begin =>
      if w.Loaded? then l.(row := BeginAttempt(l.row), worker := Begun(w.entry, l.row.attempts + 1)) else l
    case Answer(ok) => if w.Begun? then l.(worker := Answered(w.entry, w.attempt, ok)) else l
    case Complete =>
      if w.Answered? && w.ok then l.(row := CompleteAttempt(l.row), worker := Acking(w.entry)) else l
    case Fail(at) =>
      if w.Answered? && !w.ok then
        l.(row := FailAttempt(l.row, at),
           worker := if l.row.adapter || w.attempt >= l.maxAttempts then Failed(w.entry) else Off)
      else l
    case Bury => if w.Failed? then l.(row := MarkDlq(l.row), worker := Moving(w.entry)) else l
    case Ack => if w.Acking? then l.(redis := R.Acked(l.redis, w.entry), worker := Off) else l
    case Move(dead) => if w.Moving? then l.(redis := R.Moved(l.redis, w.entry, dead), worker := Off) else l
    case Lost => l.(worker := Off)
  }

  function Run(l: Lane, events: seq<Event>): Lane
    decreases |events|
  {
    if events == [] then l else Run(Next(l, events[0]), events[1..])
  }
}
