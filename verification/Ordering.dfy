/** Sorting records by a key of strings, as sort.Slice does with a comparison of
    their fields, and when the result does not depend on the order at the start. */
module Ordering {

  /** One string per compared field, most significant first. */
  type Key = seq<string>

  /** Go compares strings byte by byte; a proper prefix comes first. */
  predicate StringLe(a: string, b: string) {
    if a == [] then true
    else if b == [] then false
    else a[0] < b[0] || (a[0] == b[0] && StringLe(a[1..], b[1..]))
  }

  predicate KeyLe(a: Key, b: Key) {
    if a == [] then true
    else if b == [] then false
    else if a[0] == b[0] then KeyLe(a[1..], b[1..])
    else StringLe(a[0], b[0])
  }

  lemma {:induction false} StringOrder(a: string, b: string)
    ensures StringLe(a, b) || StringLe(b, a)
    ensures StringLe(a, b) && StringLe(b, a) ==> a == b
    decreases |a|
  {
    if a != [] && b != [] {
      StringOrder(a[1..], b[1..]);
      if a[0] == b[0] && a[1..] == b[1..] { assert a == [a[0]] + a[1..] && b == [b[0]] + b[1..]; }
    }
  }

  lemma {:induction false} StringTransitive(a: string, b: string, c: string)
    requires StringLe(a, b) && StringLe(b, c)
    ensures StringLe(a, c)
    decreases |a|
  {
    if a != [] && b != [] && c != [] && a[0] == b[0] && b[0] == c[0] {
      StringTransitive(a[1..], b[1..], c[1..]);
    }
  }

  lemma {:induction false} KeyOrder(a: Key, b: Key)
    ensures KeyLe(a, b) || KeyLe(b, a)
    ensures KeyLe(a, b) && KeyLe(b, a) ==> a == b
    decreases |a|
  {
    if a != [] && b != [] {
      StringOrder(a[0], b[0]);
      if a[0] == b[0] {
        KeyOrder(a[1..], b[1..]);
        if a[1..] == b[1..] { assert a == [a[0]] + a[1..] && b == [b[0]] + b[1..]; }
      }
    }
  }

  lemma {:induction false} KeyTransitive(a: Key, b: Key, c: Key)
    requires KeyLe(a, b) && KeyLe(b, c)
    ensures KeyLe(a, c)
    decreases |a|
  {
    if a != [] && b != [] && c != [] {
      if a[0] == b[0] && b[0] == c[0] {
        KeyTransitive(a[1..], b[1..], c[1..]);
      } else if a[0] != b[0] && b[0] != c[0] {
        StringTransitive(a[0], b[0], c[0]);
        StringOrder(a[0], b[0]);
      }
    }
  }

  predicate Sorted<T>(s: seq<T>, key: T -> Key) {
    forall i, j :: 0 <= i < j < |s| ==> KeyLe(key(s[i]), key(s[j]))
  }

  function Inserted<T>(x: T, s: seq<T>, key: T -> Key): seq<T> {
    if s == [] || KeyLe(key(x), key(s[0])) then [x] + s else [s[0]] + Inserted(x, s[1..], key)
  }

  function SortBy<T>(s: seq<T>, key: T -> Key): seq<T> {
    if s == [] then [] else Inserted(s[0], SortBy(s[1..], key), key)
  }

  /** A least element in front of a sorted sequence. */
  lemma LeastFirst<T>(x: T, s: seq<T>, key: T -> Key)
    requires Sorted(s, key) && (s != [] ==> KeyLe(key(x), key(s[0])))
    ensures Sorted([x] + s, key)
  {
    forall j | 0 <= j < |s| ensures KeyLe(key(x), key(s[j])) {
      if j > 0 { KeyTransitive(key(x), key(s[0]), key(s[j])); }
    }
  }

  lemma FirstOfInserted<T>(x: T, s: seq<T>, key: T -> Key)
    ensures Inserted(x, s, key) != []
    ensures Inserted(x, s, key)[0] == if s == [] || KeyLe(key(x), key(s[0])) then x else s[0]
  {
  }

  lemma {:induction false} InsertedSorts<T>(x: T, s: seq<T>, key: T -> Key)
    requires Sorted(s, key)
    ensures Sorted(Inserted(x, s, key), key)
    ensures multiset(Inserted(x, s, key)) == multiset([x]) + multiset(s)
  {
    if s == [] || KeyLe(key(x), key(s[0])) {
      LeastFirst(x, s, key);
    } else {
      InsertedSorts(x, s[1..], key);
      FirstOfInserted(x, s[1..], key);
      KeyOrder(key(x), key(s[0]));
      LeastFirst(s[0], Inserted(x, s[1..], key), key);
      assert s == [s[0]] + s[1..];
    }
  }

  lemma {:induction false} SortBySorts<T>(s: seq<T>, key: T -> Key)
    ensures Sorted(SortBy(s, key), key) && multiset(SortBy(s, key)) == multiset(s)
  {
    if s != [] {
      SortBySorts(s[1..], key);
      InsertedSorts(s[0], SortBy(s[1..], key), key);
      assert s == [s[0]] + s[1..];
    }
  }

  /** Elements with equal keys are equal. */
  ghost predicate KeyTells<T(!new)>(s: seq<T>, key: T -> Key) {
    forall x, y :: x in s && y in s && key(x) == key(y) ==> x == y
  }

  lemma SameFirst<T(!new)>(a: seq<T>, b: seq<T>, key: T -> Key)
    requires multiset(a) == multiset(b) && Sorted(a, key) && Sorted(b, key) && KeyTells(a, key)
    requires a != [] && b != []
    ensures a[0] == b[0]
  {
    assert a[0] in multiset(b) && b[0] in multiset(a);
    var i :| 0 <= i < |b| && b[i] == a[0];
    var j :| 0 <= j < |a| && a[j] == b[0];
    KeyOrder(key(a[0]), key(b[0]));
  }

  /** Two sorted arrangements of the same elements are the same sequence. */
  lemma {:induction false} SortedIsUnique<T(!new)>(a: seq<T>, b: seq<T>, key: T -> Key)
    requires multiset(a) == multiset(b) && Sorted(a, key) && Sorted(b, key) && KeyTells(a, key)
    ensures a == b
    decreases |a|
  {
    SameElements(a, b);
    if a != [] {
      SameFirst(a, b, key);
      TailOf(a, key);
      TailOf(b, key);
      TailTells(a, key);
      SortedIsUnique(a[1..], b[1..], key);
      assert a == [a[0]] + a[1..] && b == [b[0]] + b[1..];
    }
  }

  lemma TailOf<T>(a: seq<T>, key: T -> Key)
    requires a != [] && Sorted(a, key)
    ensures multiset(a[1..]) == multiset(a) - multiset([a[0]]) && Sorted(a[1..], key)
  {
    assert a == [a[0]] + a[1..];
  }

  lemma TailTells<T(!new)>(a: seq<T>, key: T -> Key)
    requires a != [] && KeyTells(a, key)
    ensures KeyTells(a[1..], key)
  {
    assert forall x :: x in a[1..] ==> x in a;
  }

  /** Sorting forgets exactly the order. */
  lemma SortForgetsOrder<T(!new)>(a: seq<T>, b: seq<T>, key: T -> Key)
    requires KeyTells(a, key) && KeyTells(b, key)
    ensures SortBy(a, key) == SortBy(b, key) <==> multiset(a) == multiset(b)
  {
    SortBySorts(a, key);
    SortBySorts(b, key);
    if multiset(a) == multiset(b) {
      SortKeepsTelling(a, key);
      SortedIsUnique(SortBy(a, key), SortBy(b, key), key);
    }
  }

  lemma SortKeepsTelling<T(!new)>(a: seq<T>, key: T -> Key)
    requires KeyTells(a, key)
    ensures KeyTells(SortBy(a, key), key)
  {
    SortBySorts(a, key);
    SameElements(a, SortBy(a, key));
  }

  lemma SameElements<T>(a: seq<T>, b: seq<T>)
    requires multiset(a) == multiset(b)
    ensures forall x :: x in a <==> x in b
    ensures |a| == |b|
  {
    assert forall x :: x in a <==> x in multiset(a);
    assert forall x :: x in b <==> x in multiset(b);
    assert |multiset(a)| == |a| && |multiset(b)| == |b|;
  }

  lemma SortTwice<T(!new)>(a: seq<T>, key: T -> Key)
    requires KeyTells(a, key)
    ensures SortBy(SortBy(a, key), key) == SortBy(a, key)
  {
    SortBySorts(a, key);
    SortKeepsTelling(a, key);
    SortForgetsOrder(SortBy(a, key), a, key);
  }

  // --------------------------------------------------------------------- mapping

  function Map<T, U>(f: T -> U, s: seq<T>): (r: seq<U>)
    ensures |r| == |s| && forall i :: 0 <= i < |s| ==> r[i] == f(s[i])
  {
    if s == [] then [] else [f(s[0])] + Map(f, s[1..])
  }

  /** No two positions share a key. */
  predicate Distinct<T>(s: seq<T>, key: T -> Key) {
    forall i, j :: 0 <= i < j < |s| ==> key(s[i]) != key(s[j])
  }

  lemma DistinctTells<T(!new)>(s: seq<T>, key: T -> Key)
    requires Distinct(s, key)
    ensures KeyTells(s, key)
  {
    forall x, y | x in s && y in s && key(x) == key(y) ensures x == y {
      var i :| 0 <= i < |s| && s[i] == x;
      var j :| 0 <= j < |s| && s[j] == y;
      assert i == j by { assert !(i < j) && !(j < i); }
    }
  }

  lemma {:induction false} DistinctOnce<T>(s: seq<T>, key: T -> Key)
    requires Distinct(s, key)
    ensures forall x :: multiset(s)[x] <= 1
  {
    if s != [] {
      DistinctOnce(s[1..], key);
      assert s == [s[0]] + s[1..];
      forall i | 0 <= i < |s[1..]| ensures s[1..][i] != s[0] {
        assert key(s[0]) != key(s[i + 1]);
      }
      assert s[0] !in multiset(s[1..]);
    }
  }

  /** The same elements, whatever their order and number. */
  ghost predicate SameSet<T(!new)>(a: seq<T>, b: seq<T>) {
    forall x :: x in a <==> x in b
  }

  /** Distinct sequences with the same elements are permutations of each other. */
  lemma SameSetIsPermutation<T(!new)>(a: seq<T>, b: seq<T>, key: T -> Key)
    requires Distinct(a, key) && Distinct(b, key)
    requires SameSet(a, b)
    ensures multiset(a) == multiset(b)
  {
    DistinctOnce(a, key);
    DistinctOnce(b, key);
    forall x ensures multiset(a)[x] == multiset(b)[x] {
      assert (x in a <==> x in multiset(a)) && (x in b <==> x in multiset(b));
    }
  }
}
