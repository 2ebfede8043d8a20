/** The in-memory queue behind the long-poll endpoint, and what a history of
    Enqueue and Get calls leaves in it. */
module UpdateQueues {
  import opened Prelude

  datatype Update = Update(id: int, data: nat)

  /** pending and the confirmedOffset field. */
  datatype State = State(pending: seq<Update>, confirmed: int)

  const EMPTY := State([], 0)

  function Ids(s: seq<Update>): set<int> {
    set i | 0 <= i < |s| :: s[i].id
  }

  function LastN(s: seq<Update>, n: nat): seq<Update> {
    if |s| <= n then s else s[|s| - n..]
  }

  function FirstN(s: seq<Update>, n: nat): seq<Update> {
    if |s| <= n then s else s[..n]
  }

  /** The updates at or above an offset, in order. */
  function From(s: seq<Update>, offset: int): seq<Update> {
    if s == [] then []
    else (if s[0].id >= offset then [s[0]] else []) + From(s[1..], offset)
  }

  /** The longest suffix that starts at or above an offset. */
  function Purged(s: seq<Update>, offset: int): seq<Update> {
    if s == [] || s[0].id >= offset then s else Purged(s[1..], offset)
  }

  function Enqueued(q: State, maxSize: nat, u: Update): State {
    if 0 < u.id < q.confirmed || u.id in Ids(q.pending) then q
    else q.(pending := LastN(q.pending + [u], maxSize))
  }

  function Confirmed(q: State, offset: int): State {
    State(if offset > 0 then Purged(q.pending, offset) else q.pending, Max(q.confirmed, offset))
  }

  /** The loop of Get appends before it compares, so it returns one update even for
      a limit below one. */
  function Answer(q: State, offset: int, limit: int): seq<Update> {
    FirstN(From(q.pending, offset), Max(limit, 1))
  }

  class UpdateQueue {
    var updates: seq<Update>
    var confirmedOffset: int
    const maxSize: nat

    function View(): State
      reads this
    {
      State(updates, confirmedOffset)
    }

    constructor (maxSize: nat)
      ensures View() == EMPTY && this.maxSize == maxSize
    {
      this.maxSize := maxSize;
      updates := [];
      confirmedOffset := 0;
    }

    method Enqueue(u: Update)
      modifies this
      ensures View() == Enqueued(old(View()), maxSize, u)
    {
      if 0 < u.id < confirmedOffset { return; }
      var i := 0;
      while i < |updates|
        invariant 0 <= i <= |updates|
        invariant forall j :: 0 <= j < i ==> updates[j].id != u.id
      {
        if updates[i].id == u.id { return; }
        i := i + 1;
      }
      updates := updates + [u];
      if |updates| > maxSize {
        updates := updates[|updates| - maxSize..];
      }
    }

    method Get(offset: int, limit: int) returns (result: seq<Update>)
      modifies this
      ensures View() == Confirmed(old(View()), offset)
      ensures result == Answer(View(), offset, limit)
    {
      if offset > confirmedOffset {
        confirmedOffset := offset;
      }
      if offset > 0 && |updates| > 0 {
        Purge(offset);
      }
      result := Collect(offset, limit);
    }

    method Purge(offset: int)
      modifies this`updates
      ensures updates == Purged(old(updates), offset)
    {
      var i := 0;
      while i < |updates| && updates[i].id < offset
        invariant 0 <= i <= |updates|
        invariant Purged(updates[i..], offset) == Purged(updates, offset)
      {
        assert updates[i..][1..] == updates[i + 1..];
        i := i + 1;
      }
      if i > 0 {
        updates := updates[i..];
      }
    }

    method Collect(offset: int, limit: int) returns (result: seq<Update>)
      ensures result == Answer(View(), offset, limit)
    {
      result := [];
      var k := 0;
      while k < |updates|
        invariant 0 <= k <= |updates|
        invariant |result| < Max(limit, 1)
        invariant From(updates, offset) == result + From(updates[k..], offset)
      {
        assert updates[k..][1..] == updates[k + 1..];
        if updates[k].id >= offset {
          result := result + [updates[k]];
          if |result| >= limit {
            assert From(updates, offset) == result + From(updates[k + 1..], offset);
            assert From(updates, offset)[..|result|] == result;
            return;
          }
        }
        k := k + 1;
      }
    }
  }

  // ------------------------------------------------------------------ histories

  datatype Call = Enqueue(u: Update) | Get(offset: int, limit: int)

  function Apply(q: State, maxSize: nat, c: Call): State {
    match c
    case Enqueue(u) => Enqueued(q, maxSize, u)
    case Get(offset, _) => Confirmed(q, offset)
  }

  function Run(maxSize: nat, calls: seq<Call>): State
    decreases |calls|
  {
    if calls == [] then EMPTY
    else Apply(Run(maxSize, calls[..|calls| - 1]), maxSize, calls[|calls| - 1])
  }

  /** Every update seen for the first time, in order. */
  function Seen(calls: seq<Call>): seq<Update>
    decreases |calls|
  {
    if calls == [] then []
    else
      var before, last := Seen(calls[..|calls| - 1]), calls[|calls| - 1];
      if last.Enqueue? && last.u.id !in Ids(before) then before + [last.u] else before
  }

  /** The greatest offset requested so far. */
  function Requested(calls: seq<Call>): int
    decreases |calls|
  {
    if calls == [] then 0
    else
      var before, last := Requested(calls[..|calls| - 1]), calls[|calls| - 1];
      if last.Get? then Max(before, last.offset) else before
  }

  /** Update IDs are positive and new ones ascend; an update may come again while it
      is queued or once it is confirmed. */
  predicate Orderly(maxSize: nat, calls: seq<Call>)
    decreases |calls|
  {
    calls == []
    || (var before, last := calls[..|calls| - 1], calls[|calls| - 1];
        && Orderly(maxSize, before)
        && (last.Enqueue? ==>
              && last.u.id > 0
              && ((forall id :: id in Ids(Seen(before)) ==> id < last.u.id)
                  || last.u.id in Ids(Run(maxSize, before).pending)
                  || (last.u.id in Ids(Seen(before)) && last.u.id < Requested(before)))))
  }

  predicate Ascending(s: seq<Update>) {
    forall i, j :: 0 <= i < j < |s| ==> s[i].id < s[j].id
  }

  // --------------------------------------------------- facts about the functions

  /** How many leading updates lie below an offset. */
  function Below(s: seq<Update>, offset: int): nat {
    if s == [] || s[0].id >= offset then 0 else 1 + Below(s[1..], offset)
  }

  lemma {:induction false} BelowCuts(s: seq<Update>, offset: int)
    requires Ascending(s)
    ensures Below(s, offset) <= |s|
    ensures forall i :: 0 <= i < |s| ==> (s[i].id < offset <==> i < Below(s, offset))
  {
    if s != [] && s[0].id < offset {
      BelowCuts(s[1..], offset);
      forall i | 0 <= i < |s| ensures s[i].id < offset <==> i < Below(s, offset) {
        if i > 0 { assert s[i] == s[1..][i - 1]; }
      }
    }
  }

  /** Where the cut is known, filtering and purging both cut there. */
  lemma {:induction false} CutAt(s: seq<Update>, k: nat, offset: int)
    requires k <= |s|
    requires forall i :: 0 <= i < k ==> s[i].id < offset
    requires forall i :: k <= i < |s| ==> s[i].id >= offset
    ensures From(s, offset) == s[k..] && Purged(s, offset) == s[k..]
  {
    if k > 0 {
      CutAt(s[1..], k - 1, offset);
      assert s[1..][k - 1..] == s[k..];
    } else if s != [] {
      CutAt(s[1..], 0, offset);
      assert [s[0]] + s[1..] == s;
    }
  }

  lemma CutTail(s: seq<Update>, k: nat, offset: int)
    requires Ascending(s) && k <= |s|
    ensures Below(s, offset) <= |s|
    ensures From(s[k..], offset) == s[Max(k, Below(s, offset))..]
    ensures Purged(s[k..], offset) == s[Max(k, Below(s, offset))..]
  {
    BelowCuts(s, offset);
    var cut := Max(k, Below(s, offset)) - k;
    CutAt(s[k..], cut, offset);
    assert s[k..][cut..] == s[Max(k, Below(s, offset))..];
  }

  lemma {:induction false} BelowGrows(s: seq<Update>, u: Update, offset: int)
    requires u.id >= offset
    ensures Below(s + [u], offset) == Below(s, offset)
  {
    if s == [] {
      assert s + [u] == [u];
    } else {
      assert (s + [u])[1..] == s[1..] + [u];
      BelowGrows(s[1..], u, offset);
    }
  }

  /** Where the queue starts in what was seen. */
  function Start(maxSize: nat, seen: seq<Update>, confirmed: int): nat {
    Max(|seen| - maxSize, Below(seen, confirmed))
  }

  predicate FitsAt(maxSize: nat, q: State, seen: seq<Update>) {
    && Ascending(seen) && q.confirmed >= 0
    && Start(maxSize, seen, q.confirmed) <= |seen| && q.pending == seen[Start(maxSize, seen, q.confirmed)..]
  }

  predicate Fits(maxSize: nat, calls: seq<Call>) {
    FitsAt(maxSize, Run(maxSize, calls), Seen(calls)) && Run(maxSize, calls).confirmed == Requested(calls)
  }

  lemma {:induction false} BelowAll(s: seq<Update>, offset: int)
    requires forall i :: 0 <= i < |s| ==> s[i].id < offset
    ensures Below(s, offset) == |s|
  {
    if s != [] {
      BelowAll(s[1..], offset);
    }
  }

  /** A new update that a Get has already confirmed is dropped. */
  lemma DroppedFits(maxSize: nat, q: State, seen: seq<Update>, u: Update)
    requires FitsAt(maxSize, q, seen) && (forall i :: 0 <= i < |seen| ==> seen[i].id < u.id) && 0 < u.id < q.confirmed
    ensures FitsAt(maxSize, Enqueued(q, maxSize, u), seen + [u])
  {
    BelowAll(seen, q.confirmed);
    BelowAll(seen + [u], q.confirmed);
  }

  /** Another new update is appended, and the oldest evicted if it is one too many. */
  lemma AppendedFits(maxSize: nat, q: State, seen: seq<Update>, u: Update)
    requires FitsAt(maxSize, q, seen) && (forall i :: 0 <= i < |seen| ==> seen[i].id < u.id) && u.id >= q.confirmed
    ensures FitsAt(maxSize, q.(pending := LastN(q.pending + [u], maxSize)), seen + [u])
  {
    AscendingMore(seen, u);
    StartMore(maxSize, seen, u, q.confirmed);
    TailMore(maxSize, seen, u, Start(maxSize, seen, q.confirmed));
  }

  lemma AscendingMore(seen: seq<Update>, u: Update)
    requires Ascending(seen) && forall i :: 0 <= i < |seen| ==> seen[i].id < u.id
    ensures Ascending(seen + [u])
  {
  }

  lemma StartMore(maxSize: nat, seen: seq<Update>, u: Update, confirmed: int)
    requires u.id >= confirmed && Start(maxSize, seen, confirmed) <= |seen|
    ensures Start(maxSize, seen + [u], confirmed) == Max(|seen| + 1 - maxSize, Start(maxSize, seen, confirmed))
  {
    BelowGrows(seen, u, confirmed);
  }

  lemma TailMore(maxSize: nat, seen: seq<Update>, u: Update, cut: nat)
    requires cut <= |seen|
    ensures LastN(seen[cut..] + [u], maxSize) == (seen + [u])[Max(|seen| + 1 - maxSize, cut)..]
  {
    var all := seen + [u];
    assert seen[cut..] + [u] == all[cut..];
    if |all| - cut > maxSize { assert all[cut..][|all| - cut - maxSize..] == all[|all| - maxSize..]; }
  }

  lemma IdsBelow(q: seq<Update>, u: Update)
    requires forall i :: 0 <= i < |q| ==> q[i].id < u.id
    ensures u.id !in Ids(q)
  {
  }

  lemma NewFits(maxSize: nat, q: State, seen: seq<Update>, u: Update)
    requires FitsAt(maxSize, q, seen) && u.id > 0 && forall i :: 0 <= i < |seen| ==> seen[i].id < u.id
    ensures FitsAt(maxSize, Enqueued(q, maxSize, u), seen + [u])
  {
    if u.id < q.confirmed {
      DroppedFits(maxSize, q, seen, u);
    } else {
      AppendedFits(maxSize, q, seen, u);
      IdsBelow(q.pending, u);
    }
  }

  lemma GetFits(maxSize: nat, q: State, seen: seq<Update>, offset: int)
    requires FitsAt(maxSize, q, seen)
    ensures FitsAt(maxSize, Confirmed(q, offset), seen)
  {
    var cut := Start(maxSize, seen, q.confirmed);
    if offset > 0 { CutTail(seen, cut, offset); }
    BelowMonotone(seen, q.confirmed, Max(q.confirmed, offset));
    BelowMonotone(seen, offset, Max(q.confirmed, offset));
  }

  lemma {:induction false} BelowMonotone(s: seq<Update>, a: int, b: int)
    requires Ascending(s) && a <= b
    ensures Below(s, a) <= Below(s, b) <= |s|
  {
    BelowCuts(s, a);
    BelowCuts(s, b);
    assert Below(s, b) < |s| ==> s[Below(s, b)].id >= b;
  }

  lemma {:induction false} RunFits(maxSize: nat, calls: seq<Call>)
    requires Orderly(maxSize, calls)
    ensures Fits(maxSize, calls)
    decreases |calls|
  {
    if calls != [] {
      var before, last := calls[..|calls| - 1], calls[|calls| - 1];
      RunFits(maxSize, before);
      StepFits(maxSize, calls, before, last);
    }
  }

  lemma StepFits(maxSize: nat, calls: seq<Call>, before: seq<Call>, last: Call)
    requires calls != [] && before == calls[..|calls| - 1] && last == calls[|calls| - 1]
    requires Orderly(maxSize, calls) && Fits(maxSize, before)
    ensures Fits(maxSize, calls)
  {
    var q, seen := Run(maxSize, before), Seen(before);
    match last
    case Get(offset, limit) => GetFits(maxSize, q, seen, offset);
    case Enqueue(u) =>
      PendingIsSeen(maxSize, before, u.id);
      if u.id !in Ids(seen) {
        NotSeen(seen, u.id);
        NewFits(maxSize, q, seen, u);
      }
  }

  lemma NotSeen(seen: seq<Update>, id: int)
    ensures (forall seenId :: seenId in Ids(seen) ==> seenId < id) ==> forall i :: 0 <= i < |seen| ==> seen[i].id < id
  {
    assert forall i :: 0 <= i < |seen| ==> seen[i].id in Ids(seen);
  }

  lemma PendingIsSeen(maxSize: nat, calls: seq<Call>, id: int)
    requires Fits(maxSize, calls)
    ensures id in Ids(Run(maxSize, calls).pending) ==> id in Ids(Seen(calls))
  {
    var q, cut := Run(maxSize, calls), Start(maxSize, Seen(calls), Requested(calls));
    if id in Ids(q.pending) {
      var i :| 0 <= i < |q.pending| && q.pending[i].id == id;
      assert q.pending[i] == Seen(calls)[cut + i];
    }
  }

  // ---------------------------------------------------------------- main results

  /** After every orderly history the queue holds, in ascending order and without
      repeats, the newest maxSize of the seen updates that no Get has confirmed. */
  lemma QueueHoldsNewest(maxSize: nat, calls: seq<Call>)
    requires Orderly(maxSize, calls)
    ensures var pending := Run(maxSize, calls).pending;
            && Ascending(pending) && |pending| <= maxSize
            && pending == LastN(From(Seen(calls), Requested(calls)), maxSize)
  {
    RunFits(maxSize, calls);
    FittingIsNewest(maxSize, calls);
  }

  lemma FittingIsNewest(maxSize: nat, calls: seq<Call>)
    requires Fits(maxSize, calls)
    ensures var pending := Run(maxSize, calls).pending;
            && Ascending(pending) && |pending| <= maxSize
            && pending == LastN(From(Seen(calls), Requested(calls)), maxSize)
  {
    LastOfTail(Seen(calls), Requested(calls), maxSize);
  }

  lemma LastOfTail(seen: seq<Update>, offset: int, n: nat)
    requires Ascending(seen)
    ensures Below(seen, offset) <= |seen|
    ensures var tail := seen[Max(|seen| - n, Below(seen, offset))..];
            Ascending(tail) && |tail| <= n && tail == LastN(From(seen, offset), n)
  {
    CutTail(seen, 0, offset);
    assert seen[0..] == seen;
    var cut := Below(seen, offset);
    if |seen| - n > cut { assert seen[cut..][|seen| - cut - n..] == seen[|seen| - n..]; }
  }

  /** Get answers the first limit updates still queued at or above every offset
      requested so far, this one included. */
  lemma GetAnswersAboveAllOffsets(maxSize: nat, calls: seq<Call>, offset: int, limit: int)
    requires Orderly(maxSize, calls)
    ensures var q := Run(maxSize, calls);
            var answer := Answer(Confirmed(q, offset), offset, limit);
            && answer == FirstN(From(q.pending, Max(offset, Requested(calls))), Max(limit, 1))
            && forall i :: 0 <= i < |answer| ==> answer[i].id >= Max(offset, Requested(calls))
  {
    RunFits(maxSize, calls);
    AnswerFits(maxSize, Run(maxSize, calls), Seen(calls), offset, limit);
  }

  lemma AnswerFits(maxSize: nat, q: State, seen: seq<Update>, offset: int, limit: int)
    requires FitsAt(maxSize, q, seen)
    ensures var answer := Answer(Confirmed(q, offset), offset, limit);
            && answer == FirstN(From(q.pending, Max(offset, q.confirmed)), Max(limit, 1))
            && forall i :: 0 <= i < |answer| ==> answer[i].id >= Max(offset, q.confirmed)
  {
    ConfirmedFrom(maxSize, q, seen, offset);
    FromAtLeast(q.pending, Max(offset, q.confirmed));
  }

  lemma ConfirmedFrom(maxSize: nat, q: State, seen: seq<Update>, offset: int)
    requires FitsAt(maxSize, q, seen)
    ensures From(Confirmed(q, offset).pending, offset) == From(q.pending, Max(offset, q.confirmed))
  {
    var cut, most := Start(maxSize, seen, q.confirmed), Max(offset, q.confirmed);
    var rest := if offset > 0 then Max(cut, Below(seen, offset)) else cut;
    CutTail(seen, cut, most);
    CutTail(seen, cut, offset);
    BelowMonotone(seen, q.confirmed, most);
    BelowMonotone(seen, offset, most);
    CutTail(seen, rest, offset);
    assert Confirmed(q, offset).pending == seen[rest..];
  }

  lemma {:induction false} FromAtLeast(s: seq<Update>, offset: int)
    ensures forall i :: 0 <= i < |From(s, offset)| ==> From(s, offset)[i].id >= offset
  {
    if s != [] { FromAtLeast(s[1..], offset); }
  }

  /** Nothing below the offset is queued behind an update at or above it. */
  predicate Partitioned(s: seq<Update>, offset: int) {
    forall i, j :: 0 <= i < j < |s| && s[i].id >= offset ==> s[j].id >= offset
  }

  /** Purging removes exactly the updates below the offset if and only if the queue
      is partitioned by it, as it always is when IDs ascend. */
  lemma PurgeIsExact(s: seq<Update>, offset: int)
    ensures Purged(s, offset) == From(s, offset) <==> Partitioned(s, offset)
  {
    if Partitioned(s, offset) {
      PartitionedPurges(s, offset);
    } else {
      var i, j :| 0 <= i < j < |s| && s[i].id >= offset && s[j].id < offset;
      MixedKeepsOld(s, i, j, offset);
    }
  }

  lemma {:induction false} PartitionedPurges(s: seq<Update>, offset: int)
    requires Partitioned(s, offset)
    ensures Purged(s, offset) == From(s, offset)
  {
    if s != [] {
      if s[0].id >= offset { CutAt(s, 0, offset); } else { PartitionedPurges(s[1..], offset); }
    }
  }

  lemma {:induction false} MixedKeepsOld(s: seq<Update>, i: nat, j: nat, offset: int)
    requires i < j < |s| && s[i].id >= offset && s[j].id < offset
    ensures |From(s, offset)| < |Purged(s, offset)|
  {
    if s[0].id >= offset { FromDrops(s, j, offset); } else { MixedKeepsOld(s[1..], i - 1, j - 1, offset); }
  }

  lemma {:induction false} FromDrops(s: seq<Update>, j: nat, offset: int)
    requires j < |s| && s[j].id < offset
    ensures |From(s, offset)| < |s|
  {
    FromShrinks(s[1..], offset);
    if j > 0 { FromDrops(s[1..], j - 1, offset); }
  }

  lemma {:induction false} FromShrinks(s: seq<Update>, offset: int)
    ensures |From(s, offset)| <= |s|
  {
    if s != [] { FromShrinks(s[1..], offset); }
  }
}
