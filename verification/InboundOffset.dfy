/** The polling owner of one bot: it ingests Telegram's updates and moves the stored
    offset, while the inbound worker and the operator act between any two of its
    steps and every step may be its last. */
module InboundOffset {
  import opened Prelude
  import L = InboundLane
  import P = InboundProofs
  import R = RedisQueue

  /** Update IDs from here on are synthetic ones of a bridge. */
  const BRIDGE_THRESHOLD := 1_000_000_000

  datatype Update = Update(id: int, callback: string)

  /** What the lookup of the active route for a bot and chat answers. */
  datatype Lookup = NoRoute | Found(enabled: bool, inboundEnabled: bool, active: bool, adapter: bool)

  /** lookup and at: what the lookup answered at which turn when the record was made. */
  datatype Record = Record(update: Update, lane: L.Lane, lookup: Lookup, at: nat)

  /** What the world does at one step of the poller: whether the step works, whether
      the process lives on, what a route lookup answers, and what other processes did
      to the deliveries before. */
  datatype Turn = Turn(works: bool, lives: bool, lookup: Lookup, others: seq<(nat, L.Event)>)

  /** The lookup leaves no route the update may be delivered through. */
  predicate Refuses(a: Lookup) {
    a.NoRoute? || !a.enabled || !a.inboundEnabled || !a.active
  }

  predicate Real(u: Update) {
    0 < u.id < BRIDGE_THRESHOLD
  }

  /** The deduplication of PrepareInboundDelivery. */
  predicate Matches(r: Record, u: Update) {
    r.update.id == u.id || (u.callback != "" && r.update.callback == u.callback)
  }

  /** Rejected, if the lookup refused it, and otherwise in the stream. */
  predicate Passed(r: Record) {
    if Refuses(r.lookup) then L.Rejected(r.lane.row.status) else r.lane.redis.entries != []
  }

  predicate Durable(records: seq<Record>, u: Update) {
    exists i :: 0 <= i < |records| && Matches(records[i], u) && Passed(records[i])
  }

  /** The status and the pinned target are what the lookup said. */
  predicate Honest(r: Record) {
    && (r.lane.row.status == L.RejectedUnknown <==> r.lookup.NoRoute?)
    && (r.lane.row.status == L.RejectedDisabled <==> r.lookup.Found? && Refuses(r.lookup))
    && (r.lookup.Found? ==> r.lane.row.adapter == r.lookup.adapter)
  }

  predicate AllCore(records: seq<Record>) {
    forall i :: 0 <= i < |records| ==> P.Core(records[i].lane) && Honest(records[i])
  }

  /** Nothing makes a delivery rejected or stops it from being so. */
  lemma HonestStays(r: Record, e: L.Event)
    requires P.Core(r.lane) && Honest(r)
    ensures Honest(r.(lane := L.Next(r.lane, e)))
  {
  }

  lemma CoveredIsPassed(r: Record)
    requires P.Core(r.lane) && Honest(r) && P.Covered(r.lane)
    ensures Passed(r)
  {
  }

  /** Records are only added, and a covered one stays covered. */
  predicate Grown(before: seq<Record>, after: seq<Record>) {
    && |before| <= |after|
    && forall i :: 0 <= i < |before| ==>
         && after[i].update == before[i].update && after[i].lookup == before[i].lookup && after[i].at == before[i].at
         && (Passed(before[i]) ==> Passed(after[i]))
  }

  lemma DurableStays(before: seq<Record>, after: seq<Record>, u: Update)
    requires Grown(before, after) && Durable(before, u)
    ensures Durable(after, u)
  {
    var i :| 0 <= i < |before| && Matches(before[i], u) && Passed(before[i]);
    assert Matches(after[i], u);
  }

  lemma GrownFurther(a: seq<Record>, b: seq<Record>, c: seq<Record>)
    requires Grown(a, b) && Grown(b, c)
    ensures Grown(a, c)
  {
  }

  /** One step of the lane of record i. */
  function Stepped(records: seq<Record>, i: nat, e: L.Event): seq<Record>
    requires i < |records|
  {
    records[i := records[i].(lane := L.Next(records[i].lane, e))]
  }

  lemma PassedStays(r: Record, e: L.Event)
    requires P.Core(r.lane) && Honest(r) && Passed(r)
    ensures Passed(r.(lane := L.Next(r.lane, e)))
  {
    P.CoveredStays(r.lane, e);
    HonestStays(r, e);
  }

  lemma SteppedGrows(records: seq<Record>, i: nat, e: L.Event)
    requires AllCore(records) && i < |records|
    ensures AllCore(Stepped(records, i, e)) && Grown(records, Stepped(records, i, e))
  {
    P.CoreStep(records[i].lane, e);
    HonestStays(records[i], e);
    if Passed(records[i]) { PassedStays(records[i], e); }
  }

  /** Each record was made with the lookup's answer at its turn. */
  ghost predicate Answered(records: seq<Record>, schedule: nat -> Turn, turn: nat) {
    forall i :: 0 <= i < |records| ==> records[i].at < turn && records[i].lookup == schedule(records[i].at).lookup
  }

  /** Every update below the offset is durably covered. */
  ghost predicate OffsetSafe(telegram: seq<Update>, records: seq<Record>, offset: int) {
    forall u :: u in telegram && Real(u) && u.id < offset ==> Durable(records, u)
  }

  ghost predicate UniqueIds(telegram: seq<Update>) {
    forall u, v :: u in telegram && v in telegram && u.id == v.id ==> u == v
  }

  /** Where the next update of a batch may start. */
  function Edge(offset: int, batch: seq<Update>, k: nat): int
    requires k <= |batch|
  {
    if k == 0 then offset else batch[k - 1].id + 1
  }

  ghost predicate NothingBetween(telegram: seq<Update>, low: int, high: int) {
    forall u :: u in telegram ==> !(low <= u.id < high)
  }

  /** What getUpdates may answer: the first updates at or above the offset, ascending. */
  ghost predicate IsBatch(telegram: seq<Update>, offset: int, batch: seq<Update>) {
    forall k :: 0 <= k < |batch| ==> IsNext(telegram, offset, batch, k)
  }

  /** The k-th update is the first one at or above where the ones before it end. */
  ghost predicate IsNext(telegram: seq<Update>, offset: int, batch: seq<Update>, k: nat)
    requires k < |batch|
  {
    && batch[k] in telegram && Edge(offset, batch, k) <= batch[k].id
    && NothingBetween(telegram, Edge(offset, batch, k), batch[k].id)
  }

  lemma BatchAt(telegram: seq<Update>, offset: int, batch: seq<Update>, k: nat)
    requires IsBatch(telegram, offset, batch) && k < |batch|
    ensures IsNext(telegram, offset, batch, k)
  {
  }

  function Fresh(lane: L.Lane): nat {
    if lane.redis.index.Some? then lane.redis.index.value + 1 else 0
  }

  /** How many of the first n turns bring a failing step or the end of the process. */
  function Faults(schedule: nat -> Turn, n: nat): nat {
    if n == 0 then 0 else Faults(schedule, n - 1) + (if schedule(n - 1).works && schedule(n - 1).lives then 0 else 1)
  }

  /** The offset past the first n updates of the batch; synthetic ones do not count. */
  function Reached(offset: int, batch: seq<Update>, n: nat): int
    requires n <= |batch|
  {
    if n == 0 then offset else if Real(batch[n - 1]) then batch[n - 1].id + 1 else Reached(offset, batch, n - 1)
  }

  /** The first n updates of the batch that count are durable. */
  predicate AllDurable(records: seq<Record>, batch: seq<Update>, n: nat)
    requires n <= |batch|
  {
    n == 0 || (AllDurable(records, batch, n - 1) && (Real(batch[n - 1]) ==> Durable(records, batch[n - 1])))
  }

  lemma {:induction false} AllDurableStays(before: seq<Record>, after: seq<Record>, batch: seq<Update>, n: nat)
    requires Grown(before, after) && n <= |batch| && AllDurable(before, batch, n)
    ensures AllDurable(after, batch, n)
  {
    if n > 0 {
      AllDurableStays(before, after, batch, n - 1);
      if Real(batch[n - 1]) { DurableStays(before, after, batch[n - 1]); }
    }
  }

  lemma {:induction false} AllDurableAre(records: seq<Record>, batch: seq<Update>, n: nat)
    requires n <= |batch| && AllDurable(records, batch, n)
    ensures forall j :: 0 <= j < n && Real(batch[j]) ==> Durable(records, batch[j])
  {
    if n > 0 { AllDurableAre(records, batch, n - 1); }
  }

  class Poller {
    var records: seq<Record>
    var offset: int
    var turn: nat
    const schedule: nat -> Turn
    const maxAttempts: nat
    ghost const telegram: seq<Update>

    ghost predicate Valid()
      reads this
    {
      && AllCore(records) && Answered(records, schedule, turn)
      && OffsetSafe(telegram, records, offset) && UniqueIds(telegram)
    }

    constructor (telegram: seq<Update>, offset: int, maxAttempts: nat, schedule: nat -> Turn)
      requires UniqueIds(telegram)
      requires forall u :: u in telegram && Real(u) ==> offset <= u.id
      ensures Valid() && this.telegram == telegram && this.offset == offset && records == []
    {
      this.telegram := telegram;
      this.offset := offset;
      this.maxAttempts := maxAttempts;
      this.schedule := schedule;
      records := [];
      turn := 0;
    }

    /** The other processes act; then this process takes the next turn. */
    method Step(mine: nat) returns (t: Turn)
      requires Valid()
      modifies this`records, this`turn
      ensures Valid() && Grown(old(records), records) && turn == old(turn) + 1 && t == schedule(old(turn))
      ensures Faults(schedule, turn) == Faults(schedule, old(turn)) + (if t.works && t.lives then 0 else 1)
      ensures forall i :: 0 <= i < |old(records)| ==>
                && (mine in old(records)[i].lane.callers.ingesting ==> mine in records[i].lane.callers.ingesting)
                && (mine in old(records)[i].lane.callers.queued ==> mine in records[i].lane.callers.queued)
    {
      t := schedule(turn);
      turn := turn + 1;
      var k := 0;
      while k < |t.others|
        invariant 0 <= k <= |t.others|
        invariant turn == old(turn) + 1 && |records| == |old(records)|
        invariant AllCore(records) && Grown(old(records), records)
        invariant forall i :: 0 <= i < |old(records)| ==>
                    && (mine in old(records)[i].lane.callers.ingesting ==> mine in records[i].lane.callers.ingesting)
                    && (mine in old(records)[i].lane.callers.queued ==> mine in records[i].lane.callers.queued)
      {
        var (i, e) := t.others[k];
        if i < |records| && !(L.ByIngest(e) && e.call == mine) {
          SteppedGrows(records, i, e);
          CallersKeep(records[i].lane, e, mine);
          records := Stepped(records, i, e);
        }
        k := k + 1;
      }
      SafeStays(old(records), records);
    }

    /** The first matching record, or their number. */
    method Find(u: Update) returns (i: nat)
      ensures i <= |records| && (i < |records| ==> Matches(records[i], u))
      ensures forall j :: 0 <= j < i ==> !Matches(records[j], u)
    {
      i := 0;
      while i < |records|
        invariant 0 <= i <= |records|
        invariant forall j :: 0 <= j < i ==> !Matches(records[j], u)
      {
        if Matches(records[i], u) { return; }
        i := i + 1;
      }
    }

    /** The delivery PrepareInboundDelivery finds or creates, as its index. A new one
        starts as the lookup of this turn says: pending with the route's target, or
        rejected because there is no route or a disabled one. */
    method Prepare(u: Update, at: nat) returns (i: nat)
      requires Valid() && at < turn
      modifies this`records
      ensures Valid() && Grown(old(records), records)
      ensures i < |records| && Matches(records[i], u)
      ensures (exists j :: 0 <= j < |old(records)| && Matches(old(records)[j], u)) ==> records == old(records)
      ensures (forall j :: 0 <= j < |old(records)| ==> !Matches(old(records)[j], u)) ==>
                && i == |old(records)| && |records| == i + 1 && records[..i] == old(records)
                && records[i].update == u && records[i].at == at && records[i].lookup == schedule(at).lookup
                && (records[i].lane.row.status == L.Pending <==> !Refuses(schedule(at).lookup))
                && records[i].lane.redis.entries == []
    {
      i := Find(u);
      if i < |records| { return; }
      var lookup := schedule(at).lookup;
      var status, adapter := L.Pending, false;
      match lookup {
        case NoRoute => status := L.RejectedUnknown;
        case Found(enabled, inboundEnabled, active, embedded) =>
          adapter := embedded;
          if !enabled || !inboundEnabled || !active { status := L.RejectedDisabled; }
      }
      Insert(Record(u, L.Created(maxAttempts, adapter, status), lookup, at));
    }

    method Insert(record: Record)
      requires Valid() && P.Core(record.lane) && Honest(record)
      requires record.at < turn && record.lookup == schedule(record.at).lookup
      modifies this`records
      ensures Valid() && Grown(old(records), records) && records == old(records) + [record]
    {
      records := records + [record];
      assert Grown(old(records), records);
      SafeStays(old(records), records);
    }

    method Walk(i: nat, e: L.Event)
      requires Valid() && i < |records|
      modifies this`records
      ensures Valid() && records == Stepped(old(records), i, e) && Grown(old(records), records)
    {
      SteppedGrows(records, i, e);
      records := Stepped(records, i, e);
      SafeStays(old(records), records);
    }

    /** IngestUpdate: no error means that the update is durable, rejected if and only if
        the lookup refused it, and otherwise in the stream; only a failing step or the
        end of the process makes it fail. */
    method Ingest(u: Update) returns (ok: bool)
      requires Valid()
      modifies this`records, this`turn
      ensures Valid() && Grown(old(records), records) && Faults(schedule, old(turn)) <= Faults(schedule, turn)
      ensures ok ==> Durable(records, u)
      ensures Faults(schedule, turn) == Faults(schedule, old(turn)) ==> ok
    {
      var c := turn;
      var t := Step(c);
      if !t.works || !t.lives { return false; }
      var i := Prepare(u, c);
      if L.Settled(records[i].lane.row) {
        P.SettledIsCovered(records[i].lane);
        CoveredIsPassed(records[i]);
        return true;
      }
      ok := Append(u, i, c);
    }

    /** AppendUnique and SetInboundStreamID for a delivery that is not settled. */
    method Append(u: Update, i: nat, c: nat) returns (ok: bool)
      requires Valid() && i < |records| && Matches(records[i], u) && !L.Settled(records[i].lane.row)
      modifies this`records, this`turn
      ensures Valid() && Grown(old(records), records) && Faults(schedule, old(turn)) <= Faults(schedule, turn)
      ensures ok ==> Durable(records, u)
      ensures Faults(schedule, turn) == Faults(schedule, old(turn)) ==> ok
    {
      Walk(i, L.Join(c));
      var t := Step(c);
      if !t.works || !t.lives {
        Walk(i, L.IngestLost(c));
        return false;
      }
      ghost var before := records;
      AppendEntry(u, i, c);
      GrownFurther(old(records), before, records);
      before := records;
      ok := SetStream(u, i, c);
      GrownFurther(old(records), before, records);
    }

    method AppendEntry(u: Update, i: nat, c: nat)
      requires Valid() && i < |records| && Matches(records[i], u) && c in records[i].lane.callers.ingesting
      modifies this`records
      ensures Valid() && Grown(old(records), records) && |records| == |old(records)|
      ensures Matches(records[i], u) && Passed(records[i])
    {
      AppendCovers(records[i].lane, c);
      Walk(i, L.IngestAppend(c, Fresh(records[i].lane)));
      CoveredIsPassed(records[i]);
    }

    method SetStream(u: Update, i: nat, c: nat) returns (ok: bool)
      requires Valid() && i < |records| && Matches(records[i], u) && Passed(records[i])
      modifies this`records, this`turn
      ensures Valid() && Grown(old(records), records) && turn == old(turn) + 1
      ensures Faults(schedule, turn) == Faults(schedule, old(turn)) + (if ok then 0 else 1)
      ensures Durable(records, u) && (ok <==> schedule(old(turn)).works && schedule(old(turn)).lives)
    {
      var t := Step(c);
      Walk(i, if t.works && t.lives then L.IngestSet(c) else L.IngestLost(c));
      assert Matches(records[i], u) && Passed(records[i]);
      ok := t.works && t.lives;
    }

    /** ProcessUpdate: only an ingested update moves the offset past itself. */
    method ProcessUpdate(u: Update) returns (ack: bool)
      requires Valid() && u in telegram
      requires forall v :: v in telegram && Real(v) && v.id < u.id ==> Durable(records, v)
      modifies this`records, this`turn, this`offset
      ensures Valid() && Grown(old(records), records) && Faults(schedule, old(turn)) <= Faults(schedule, turn)
      ensures ack && Real(u) ==> Durable(records, u)
      ensures offset == old(offset) || (Real(u) && offset == u.id + 1)
      ensures Faults(schedule, turn) == Faults(schedule, old(turn)) ==>
                ack && offset == if Real(u) then u.id + 1 else old(offset)
    {
      var t := Step(turn);
      if !t.works || !t.lives { return false; }
      if !Real(u) {
        t := Step(turn);
        return t.works && t.lives;
      }
      ghost var before := records;
      var ok := Handle(u);
      GrownFurther(old(records), before, records);
      if !ok { return false; }
      before := records;
      ack := StoreOffset(u, old(records));
      GrownFurther(old(records), before, records);
    }

    /** Ingestion and what ProcessUpdate does besides, forwarding above all. */
    method Handle(u: Update) returns (ok: bool)
      requires Valid()
      modifies this`records, this`turn
      ensures Valid() && Grown(old(records), records) && Faults(schedule, old(turn)) <= Faults(schedule, turn)
      ensures ok ==> Durable(records, u)
      ensures Faults(schedule, turn) == Faults(schedule, old(turn)) ==> ok
    {
      ok := Ingest(u);
      if !ok { return; }
      ghost var before := records;
      var t := Step(turn);
      GrownFurther(old(records), before, records);
      DurableStays(before, records, u);
      ok := t.works && t.lives;
    }

    /** UpdateBotOffset; a failure to store it goes unnoticed. */
    method StoreOffset(u: Update, ghost start: seq<Record>) returns (ack: bool)
      requires Valid() && u in telegram && Real(u) && Durable(records, u) && Grown(start, records)
      requires forall v :: v in telegram && Real(v) && v.id < u.id ==> Durable(start, v)
      modifies this`records, this`turn, this`offset
      ensures Valid() && Grown(old(records), records) && Faults(schedule, old(turn)) <= Faults(schedule, turn)
      ensures Durable(records, u) && (offset == old(offset) || offset == u.id + 1)
      ensures Faults(schedule, turn) == Faults(schedule, old(turn)) ==> ack && offset == u.id + 1
    {
      var t := Step(turn);
      DurableStays(old(records), records, u);
      if t.works {
        GrownFurther(start, old(records), records);
        forall v | v in telegram && Real(v) && v.id < u.id + 1 ensures Durable(records, v) {
          if v.id < u.id { DurableStays(start, records, v); } else { assert v == u; }
        }
        offset := u.id + 1;
      }
      return t.lives;
    }

    /** One round of the loop in pollLoop: u is the next update after reached. */
    method PollOne(u: Update, ghost reached: int) returns (ack: bool)
      requires Valid() && u in telegram && offset <= reached <= u.id
      requires OffsetSafe(telegram, records, reached) && NothingBetween(telegram, reached, u.id)
      modifies this`records, this`turn, this`offset
      ensures Valid() && Grown(old(records), records) && Faults(schedule, old(turn)) <= Faults(schedule, turn)
      ensures Faults(schedule, turn) == Faults(schedule, old(turn)) ==>
                ack && offset == if Real(u) then u.id + 1 else old(offset)
      ensures old(offset) <= offset <= u.id + 1
      ensures ack && Real(u) ==> Durable(records, u)
      ensures ack ==> OffsetSafe(telegram, records, u.id + 1)
    {
      ack := ProcessUpdate(u);
      forall v | ack && v in telegram && Real(v) && v.id < u.id + 1 ensures Durable(records, v) {
        if v.id < u.id { DurableStays(old(records), records, v); } else { assert v == u; }
      }
    }

    /** The batch began at first with the records start; its first k updates are done. */
    ghost predicate Underway(start: seq<Record>, first: int, batch: seq<Update>, k: nat)
      requires k <= |batch|
      reads this
    {
      && Valid() && Grown(start, records) && first <= offset <= Edge(first, batch, k)
      && OffsetSafe(telegram, records, Edge(first, batch, k)) && AllDurable(records, batch, k)
    }

    method PollNext(batch: seq<Update>, k: nat, ghost start: seq<Record>, ghost first: int) returns (ack: bool)
      requires k < |batch| && Underway(start, first, batch, k) && IsNext(telegram, first, batch, k)
      modifies this`records, this`turn, this`offset
      ensures if ack then Underway(start, first, batch, k + 1)
              else Valid() && Grown(start, records) && first <= offset && AllDurable(records, batch, k)
      ensures Faults(schedule, old(turn)) <= Faults(schedule, turn)
      ensures Faults(schedule, turn) == Faults(schedule, old(turn)) ==>
                ack && offset == if Real(batch[k]) then batch[k].id + 1 else old(offset)
    {
      ack := PollOne(batch[k], Edge(first, batch, k));
      AllDurableStays(old(records), records, batch, k);
      GrownFurther(start, old(records), records);
    }

    /** One batch of pollLoop. Whatever fails or dies: the offset never moves back
        and never passes an update that is not durably covered. If nothing does, the
        whole batch is done and the offset is past it. */
    method PollBatch(batch: seq<Update>) returns (done: nat)
      requires Valid() && IsBatch(telegram, offset, batch)
      modifies this`records, this`turn, this`offset
      ensures Valid() && Grown(old(records), records)
      ensures old(offset) <= offset
      ensures done <= |batch| && AllDurable(records, batch, done)
      ensures Faults(schedule, turn) == Faults(schedule, old(turn)) ==>
                done == |batch| && offset == Reached(old(offset), batch, |batch|)
    {
      done := 0;
      ghost var first, before := offset, Faults(schedule, turn);
      while done < |batch|
        invariant 0 <= done <= |batch| && Underway(old(records), first, batch, done)
        invariant before <= Faults(schedule, turn)
        invariant Faults(schedule, turn) == before ==> offset == Reached(first, batch, done)
      {
        BatchAt(telegram, first, batch, done);
        var ack := PollNext(batch, done, old(records), first);
        if !ack { return; }
        done := done + 1;
      }
    }

    lemma SafeStays(before: seq<Record>, after: seq<Record>)
      requires Grown(before, after) && OffsetSafe(telegram, before, offset)
      ensures OffsetSafe(telegram, after, offset)
    {
      forall u | u in telegram && Real(u) && u.id < offset ensures Durable(after, u) {
        DurableStays(before, after, u);
      }
    }
  }

  /** Other processes leave this call's progress alone. */
  lemma CallersKeep(l: L.Lane, e: L.Event, mine: nat)
    requires !(L.ByIngest(e) && e.call == mine)
    ensures var m := L.Next(l, e);
            && (mine in l.callers.ingesting ==> mine in m.callers.ingesting)
            && (mine in l.callers.queued ==> mine in m.callers.queued)
  {
  }

  /** A call that still has to append leaves the delivery in the stream. */
  lemma AppendCovers(l: L.Lane, c: nat)
    requires P.Core(l) && c in l.callers.ingesting
    ensures P.Covered(L.Next(l, L.IngestAppend(c, Fresh(l))))
  {
    assert R.IsFresh(l.redis, Fresh(l));
    R.AppendedKeeps(l.redis, Fresh(l));
  }
}
