/** The Redis side of a delivery queue: one stream, its accepted index, its DLQ
    stream and the replay index, changed only by Lua scripts that run atomically.

    Stream IDs are modelled as positions in the stream, which Redis also keeps
    in append order. The outbound and the inbound queue run the same scripts. */
module RedisQueue {
  import opened Prelude

  /** What one delivery owns in the shared Redis keys. */
  datatype Slice = Slice(
    entries: seq<nat>,         // stream IDs of this delivery, oldest first
    unacked: set<nat>,         // entries no worker has acknowledged
    index: Option<nat>,        // the accepted index
    replays: map<nat, nat>,    // replay index: generation to stream ID
    dlq: seq<nat>,             // DLQ stream IDs of this delivery
    dlqIndex: Option<nat>)

  const EMPTY := Slice([], {}, None, map[], [], None)

  datatype Script =
    | Append(ticket: nat)
    | Replay(generation: nat, ticket: nat)
    | MoveToDlq(entry: nat, dead: nat)
    | Acknowledge(entry: nat)

  function Appended(s: Slice, ticket: nat): Slice {
    if s.index.Some? then s
    else s.(entries := s.entries + [ticket], unacked := s.unacked + {ticket}, index := Some(ticket))
  }

  function Replayed(s: Slice, generation: nat, ticket: nat): Slice {
    if generation in s.replays then s
    else s.(entries := s.entries + [ticket], unacked := s.unacked + {ticket}, index := Some(ticket),
            replays := s.replays[generation := ticket], dlqIndex := None)
  }

  function Moved(s: Slice, entry: nat, dead: nat): Slice {
    if s.dlqIndex.Some? then Acked(s, entry)
    else Acked(s, entry).(dlq := s.dlq + [dead], dlqIndex := Some(dead))
  }

  function Acked(s: Slice, entry: nat): Slice {
    s.(unacked := s.unacked - {entry})
  }

  function Apply(s: Slice, script: Script): Slice {
    match script
    case Append(ticket) => Appended(s, ticket)
    case Replay(generation, ticket) => Replayed(s, generation, ticket)
    case MoveToDlq(entry, dead) => Moved(s, entry, dead)
    case Acknowledge(entry) => Acked(s, entry)
  }

  /** A stream ID Redis may hand out next: later than all this delivery has. */
  predicate IsFresh(s: Slice, id: nat) {
    forall e | e in s.entries :: e < id
  }

  /** What every sequence of scripts keeps, whatever the order. */
  predicate SliceInv(s: Slice) {
    && (s.entries == [] <==> s.index == None)
    && (s.entries != [] ==> s.index == Some(s.entries[|s.entries| - 1]))
    && (forall e | e in s.entries :: e <= s.index.value)
    && (forall e | e in s.unacked :: e in s.entries)
    && (s.entries == [] ==> s.replays == map[])
    && (forall g | g in s.replays :: s.replays[g] in s.entries)
    && (|s.entries| == |s.replays| || |s.entries| == |s.replays| + 1)
    && |s.dlq| <= |s.replays| + 1
    && (s.dlqIndex == None ==> |s.dlq| <= |s.replays|)
  }

  lemma AppendedKeeps(s: Slice, ticket: nat)
    requires SliceInv(s) && IsFresh(s, ticket)
    ensures SliceInv(Appended(s, ticket))
    ensures Appended(s, ticket).entries != []
  {
    if s.index == None {
      assert Appended(s, ticket).entries == [ticket];
    }
  }

  lemma ReplayedKeeps(s: Slice, g: nat, ticket: nat)
    requires SliceInv(s) && IsFresh(s, ticket)
    ensures SliceInv(Replayed(s, g, ticket))
    ensures g in Replayed(s, g, ticket).replays
  {
    if g !in s.replays {
      var t := Replayed(s, g, ticket);
      assert |t.replays| == |s.replays| + 1;
      assert t.entries[|s.entries|] == ticket;
      assert forall e | e in t.entries :: e in s.entries || e == ticket;
      assert forall e | e in s.entries :: e in t.entries;
      forall h | h in t.replays ensures t.replays[h] in t.entries {
        if h != g { assert s.replays[h] in s.entries; }
      }
    }
  }

  lemma ApplyKeeps(s: Slice, script: Script)
    requires SliceInv(s)
    requires (script.Append? || script.Replay?) ==> IsFresh(s, script.ticket)
    ensures SliceInv(Apply(s, script))
  {
    match script
    case Append(ticket) => AppendedKeeps(s, ticket);
    case Replay(g, ticket) => ReplayedKeeps(s, g, ticket);
    case MoveToDlq(_, _) =>
    case Acknowledge(_) =>
  }

  // ---------------------------------------------------------------- histories

  function Run(s: Slice, scripts: seq<Script>): Slice
    decreases |scripts|
  {
    if scripts == [] then s else Apply(Run(s, scripts[..|scripts| - 1]), scripts[|scripts| - 1])
  }

  /** Redis hands out ever later stream IDs. */
  predicate Ascending(scripts: seq<Script>) {
    forall i, j | 0 <= i < j < |scripts|
                  && (scripts[i].Append? || scripts[i].Replay?)
                  && (scripts[j].Append? || scripts[j].Replay?)
      :: scripts[i].ticket < scripts[j].ticket
  }

  /** The distinct replay generations a history asked for. */
  function Generations(scripts: seq<Script>): set<nat> {
    set i | 0 <= i < |scripts| && scripts[i].Replay? :: scripts[i].generation
  }

  /** Some append ran before any replay. */
  predicate EverAppended(scripts: seq<Script>) {
    exists i | 0 <= i < |scripts| :: scripts[i].Append? && forall j | 0 <= j < i :: !scripts[j].Replay?
  }

  /** Some queueing script of the history got this stream ID. */
  predicate Issued(scripts: seq<Script>, e: nat) {
    exists i | 0 <= i < |scripts| :: (scripts[i].Append? || scripts[i].Replay?) && scripts[i].ticket == e
  }

  lemma {:induction false} RunKeeps(scripts: seq<Script>)
    requires Ascending(scripts)
    ensures SliceInv(Run(EMPTY, scripts))
    ensures forall e | e in Run(EMPTY, scripts).entries :: Issued(scripts, e)
    decreases |scripts|
  {
    if scripts != [] {
      var n := |scripts| - 1;
      var rest, last := scripts[..n], scripts[n];
      RunKeeps(rest);
      var s := Run(EMPTY, rest);
      forall e: nat | Issued(rest, e)
        ensures Issued(scripts, e) && (last.Append? || last.Replay? ==> e < last.ticket)
      {
        var i :| 0 <= i < |rest| && (rest[i].Append? || rest[i].Replay?) && rest[i].ticket == e;
        assert scripts[i] == rest[i];
      }
      ApplyKeeps(s, last);
      if last.Append? || last.Replay? { assert Issued(scripts, last.ticket); }
    }
  }

  lemma {:induction false} RunCounts(scripts: seq<Script>)
    requires Ascending(scripts)
    ensures var s := Run(EMPTY, scripts);
            && s.replays.Keys == Generations(scripts)
            && (|s.entries| == |s.replays| + 1 <==> EverAppended(scripts))
    decreases |scripts|
  {
    if scripts != [] {
      var n := |scripts| - 1;
      var rest, last := scripts[..n], scripts[n];
      RunCounts(rest);
      RunKeeps(rest);
      GenerationsGrow(scripts);
      AppendedOnlyGrows(scripts);
      CountStep(Run(EMPTY, rest), last, EverAppended(rest));
    }
  }

  lemma CountStep(s: Slice, script: Script, ever: bool)
    requires SliceInv(s)
    requires |s.entries| == |s.replays| + 1 <==> ever
    ensures var t := Apply(s, script);
            && t.replays.Keys == s.replays.Keys + (if script.Replay? then {script.generation} else {})
            && (|t.entries| == |t.replays| + 1 <==> ever || (script.Append? && s.replays.Keys == {}))
  {
    var t := Apply(s, script);
    if script.Replay? && script.generation !in s.replays {
      assert |t.replays| == |s.replays| + 1;
    }
    assert s.replays.Keys == {} <==> |s.replays| == 0;
  }

  lemma GenerationsGrow(scripts: seq<Script>)
    requires scripts != []
    ensures var last := scripts[|scripts| - 1];
            Generations(scripts) == Generations(scripts[..|scripts| - 1]) + (if last.Replay? then {last.generation} else {})
  {
    var n := |scripts| - 1;
    var rest := scripts[..n];
    assert forall i | 0 <= i < n :: scripts[i] == rest[i];
    forall g | g in Generations(rest) ensures g in Generations(scripts) {
      var i :| 0 <= i < |rest| && rest[i].Replay? && rest[i].generation == g;
      assert scripts[i].generation == g;
    }
  }

  lemma GenerationOf(scripts: seq<Script>, j: nat)
    requires j < |scripts|
    ensures scripts[j].Replay? ==> Generations(scripts) != {}
  {
    if scripts[j].Replay? { assert scripts[j].generation in Generations(scripts); }
  }

  lemma AppendedOnlyGrows(scripts: seq<Script>)
    requires scripts != []
    ensures var n := |scripts| - 1;
            EverAppended(scripts) <==>
            EverAppended(scripts[..n]) || (scripts[n].Append? && Generations(scripts[..n]) == {})
  {
    var n := |scripts| - 1;
    var rest := scripts[..n];
    assert forall j | 0 <= j < n :: scripts[j] == rest[j];
    if EverAppended(scripts) {
      var i :| 0 <= i < |scripts| && scripts[i].Append? && forall j | 0 <= j < i :: !scripts[j].Replay?;
      if i < n { assert rest[i].Append?; }
    }
    if EverAppended(rest) {
      var i :| 0 <= i < |rest| && rest[i].Append? && forall j | 0 <= j < i :: !rest[j].Replay?;
      assert scripts[i].Append?;
    }
    if scripts[n].Append? && Generations(rest) == {} {
      forall j | 0 <= j < n ensures !scripts[j].Replay? {
        GenerationOf(rest, j);
      }
    }
  }

  /** Under every interleaving: one entry if an append came first plus one per
      distinct replay generation; the index names the newest entry; and the DLQ
      stream never holds more than one entry beyond the replay generations. */
  lemma EntriesCountHistory(scripts: seq<Script>)
    requires Ascending(scripts)
    ensures var s := Run(EMPTY, scripts);
            && |s.entries| == |Generations(scripts)| + (if EverAppended(scripts) then 1 else 0)
            && (s.entries != [] ==> s.index == Some(s.entries[|s.entries| - 1]))
            && (forall e | e in s.entries :: e <= s.index.value)
            && |s.dlq| <= 1 + |Generations(scripts)|
  {
    RunKeeps(scripts);
    RunCounts(scripts);
    var s := Run(EMPTY, scripts);
    assert |s.replays.Keys| == |s.replays|;
  }

  // ------------------------------------------------------------- the real keys

  type Id = nat

  /** Where in a stream the entries of one delivery sit. */
  function Positions(stream: seq<Id>, id: Id): seq<nat>
    decreases |stream|
  {
    if stream == [] then []
    else
      var n := |stream| - 1;
      Positions(stream[..n], id) + (if stream[n] == id then [n] else [])
  }

  lemma {:induction false} PositionsAreBelow(stream: seq<Id>, id: Id)
    ensures forall p | p in Positions(stream, id) :: p < |stream| && stream[p] == id
    ensures forall p | 0 <= p < |stream| && stream[p] == id :: p in Positions(stream, id)
    decreases |stream|
  {
    if stream != [] {
      PositionsAreBelow(stream[..|stream| - 1], id);
    }
  }

  lemma PositionsAfterAppend(stream: seq<Id>, x: Id, id: Id)
    ensures Positions(stream + [x], id) == Positions(stream, id) + (if x == id then [|stream|] else [])
  {
    assert (stream + [x])[..|stream|] == stream;
  }

  /** The client of one queue; its methods are the scripts, each one atomic. */
  class Queue {
    var stream: seq<Id>
    var acked: set<nat>
    var index: map<Id, nat>
    var replayIndex: map<Id, map<nat, nat>>
    var dlq: seq<Id>
    var dlqIndex: map<Id, nat>

    /** This delivery's part of all the keys. */
    ghost function View(id: Id): Slice
      reads this
    {
      Slice(Positions(stream, id),
            set p | p in Positions(stream, id) && p !in acked,
            if id in index then Some(index[id]) else None,
            if id in replayIndex then replayIndex[id] else map[],
            Positions(dlq, id),
            if id in dlqIndex then Some(dlqIndex[id]) else None)
    }

    ghost predicate Valid()
      reads this
    {
      forall p | p in acked :: p < |stream|
    }

    constructor ()
      ensures Valid()
      ensures forall id :: View(id) == EMPTY
    {
      stream, acked, index, replayIndex, dlq, dlqIndex := [], {}, map[], map[], [], map[];
    }

    /** The next stream position is fresh for every delivery. */
    lemma FreshAtEnd(id: Id)
      ensures IsFresh(View(id), |stream|)
    {
      PositionsAreBelow(stream, id);
    }

    /** appendOnceScript: one XADD per delivery, however often it is asked. */
    method AppendOnce(id: Id) returns (entry: nat)
      requires Valid()
      modifies this
      ensures Valid()
      ensures View(id) == Appended(old(View(id)), |old(stream)|)
      ensures View(id).index == Some(entry)
      ensures forall other | other != id :: View(other) == old(View(other))
      ensures acked == old(acked) && |stream| >= |old(stream)|
    {
      ghost var before := View(id);
      if id in index {
        return index[id];
      }
      entry := |stream|;
      AddEntry(id);
      index := index[id := entry];
      assert View(id) == Appended(before, entry);
    }

    /** XADD: only the delivery named sees a new entry. */
    method AddEntry(id: Id)
      requires Valid()
      modifies this`stream
      ensures stream == old(stream) + [id]
      ensures View(id) == old(View(id)).(entries := old(View(id)).entries + [|old(stream)|],
                                         unacked := old(View(id)).unacked + {|old(stream)|})
      ensures forall other | other != id :: View(other) == old(View(other))
    {
      ghost var was := stream;
      ghost var before := View(id);
      stream := stream + [id];
      forall other ensures Positions(stream, other) == Positions(was, other) + (if other == id then [|was|] else []) {
        PositionsAfterAppend(was, id, other);
      }
      assert View(id).unacked == before.unacked + {|was|};
    }

    /** replayOutboundDLQ: one new entry per generation; it reopens the DLQ index. */
    method ReplayFromDlq(id: Id, generation: nat) returns (entry: nat)
      requires Valid()
      modifies this
      ensures Valid()
      ensures View(id) == Replayed(old(View(id)), generation, |old(stream)|)
      ensures generation in View(id).replays && View(id).replays[generation] == entry
      ensures forall other | other != id :: View(other) == old(View(other))
      ensures acked == old(acked) && |stream| >= |old(stream)|
    {
      ghost var before := View(id);
      var generations := if id in replayIndex then replayIndex[id] else map[];
      if generation in generations {
        return generations[generation];
      }
      dlqIndex := dlqIndex - {id};
      entry := |stream|;
      AddEntry(id);
      index := index[id := entry];
      replayIndex := replayIndex[id := generations[generation := entry]];
      assert before.replays == generations;
      assert View(id) == Replayed(before, generation, entry);
    }

    /** moveOutboundToDLQ: the DLQ entry is written once, then the source is acknowledged. */
    method MoveToDlqAndAck(id: Id, entry: nat)
      requires Valid()
      requires entry in View(id).entries
      modifies this
      ensures Valid()
      ensures View(id) == Moved(old(View(id)), entry, |old(dlq)|)
      ensures forall other | other != id :: View(other) == old(View(other))
      ensures stream == old(stream)
    {
      ghost var before := View(id);
      ghost var was := dlq;
      if id !in dlqIndex {
        dlqIndex := dlqIndex[id := |dlq|];
        dlq := dlq + [id];
        forall other ensures Positions(dlq, other) == Positions(was, other) + (if other == id then [|was|] else []) {
          PositionsAfterAppend(was, id, other);
        }
      }
      Ack(id, entry);
    }

    /** XACK of an entry that belongs to this delivery. */
    method Ack(id: Id, entry: nat)
      requires entry in View(id).entries
      modifies this`acked
      ensures View(id) == Acked(old(View(id)), entry)
      ensures forall other | other != id :: View(other) == old(View(other))
      ensures acked == old(acked) + {entry}
      ensures entry < |stream|
    {
      PositionsAreBelow(stream, id);
      ghost var before := View(id);
      acked := acked + {entry};
      assert View(id).unacked == before.unacked - {entry};
      forall other | other != id ensures View(other) == old(View(other)) {
        PositionsAreBelow(stream, other);
        assert View(other).unacked == old(View(other)).unacked;
      }
    }
  }
}
