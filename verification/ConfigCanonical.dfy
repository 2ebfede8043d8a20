/** Canonical is a normal form: idempotent, and the same for two valid snapshots
    exactly when they differ in nothing but the order of unordered collections. */
module ConfigCanonical {
  import opened Prelude
  import opened Ordering
  import opened ConfigSnapshot

  lemma CallersTell(callers: seq<string>)
    ensures KeyTells(callers, CallerKey)
  {
    forall x, y | x in callers && y in callers && CallerKey(x) == CallerKey(y) ensures x == y {
      assert CallerKey(x)[0] == CallerKey(y)[0];
    }
  }

  lemma {:induction false} InPart(workloads: seq<Workload>, w: Workload)
    requires w in workloads && Distinct(AllCredentials(workloads), CredentialKey)
    ensures Distinct(w.credentials, CredentialKey)
  {
    var head, rest := workloads[0].credentials, AllCredentials(workloads[1..]);
    var all := AllCredentials(workloads);
    assert all == head + rest;
    assert all[..|head|] == head && all[|head|..] == rest;
    if w == workloads[0] {
      DistinctSlice(all, 0, |head|, CredentialKey);
      assert all[0..|head|] == head;
    } else {
      DistinctSlice(all, |head|, |all|, CredentialKey);
      assert all[|head|..|all|] == rest;
      InPart(workloads[1..], w);
    }
  }

  lemma DistinctSlice<T>(s: seq<T>, i: nat, j: nat, key: T -> Key)
    requires i <= j <= |s| && Distinct(s, key)
    ensures Distinct(s[i..j], key)
  {
  }

  /** What validation gives about one workload's nested collections. */
  predicate Telling(w: Workload) {
    Distinct(w.permissions, PermissionKey) && Distinct(w.credentials, CredentialKey)
  }

  predicate AllTelling(workloads: seq<Workload>) {
    forall w :: w in workloads ==> Telling(w)
  }

  lemma ValidTells(lib: Library, s: Snapshot)
    requires Valid(lib, s)
    ensures AllTelling(s.workloads)
  {
    forall w | w in s.workloads ensures Telling(w) {
      assert ValidWorkload(lib, s, w);
      InPart(s.workloads, w);
    }
  }

  // ----------------------------------------------------------------- nested order

  lemma NormalTells(w: Workload, v: Workload)
    requires Telling(w) && Telling(v)
    ensures NormalWorkload(w) == NormalWorkload(v) <==> SameWorkload(w, v)
  {
    DistinctTells(w.permissions, PermissionKey);
    DistinctTells(v.permissions, PermissionKey);
    DistinctTells(w.credentials, CredentialKey);
    DistinctTells(v.credentials, CredentialKey);
    SortForgetsOrder(w.permissions, v.permissions, PermissionKey);
    SortForgetsOrder(w.credentials, v.credentials, CredentialKey);
    assert NormalWorkload(w).ref == w.ref && NormalWorkload(w).basics == w.basics;
    assert NormalWorkload(v).ref == v.ref && NormalWorkload(v).basics == v.basics;
  }

  lemma NormalRouteTells(r: BusinessRoute, q: BusinessRoute)
    ensures NormalRoute(r) == NormalRoute(q) <==> SameRoute(r, q)
  {
    CallersTell(r.callers);
    CallersTell(q.callers);
    SortForgetsOrder(r.callers, q.callers, CallerKey);
    assert NormalRoute(r).(callers := []) == r.(callers := []);
    assert NormalRoute(q).(callers := []) == q.(callers := []);
    assert NormalRoute(r) == r.(callers := []).(callers := SortBy(r.callers, CallerKey));
    assert NormalRoute(q) == q.(callers := []).(callers := SortBy(q.callers, CallerKey));
  }

  lemma NormalTwice(w: Workload)
    requires Telling(w)
    ensures NormalWorkload(NormalWorkload(w)) == NormalWorkload(w)
  {
    DistinctTells(w.permissions, PermissionKey);
    DistinctTells(w.credentials, CredentialKey);
    SortTwice(w.permissions, PermissionKey);
    SortTwice(w.credentials, CredentialKey);
  }

  lemma NormalRouteTwice(r: BusinessRoute)
    ensures NormalRoute(NormalRoute(r)) == NormalRoute(r)
  {
    CallersTell(r.callers);
    SortTwice(r.callers, CallerKey);
  }

  // -------------------------------------------------------------- mapped sequences

  lemma MapIn<T, U>(f: T -> U, s: seq<T>, y: U)
    requires y in Map(f, s)
    ensures exists x :: x in s && f(x) == y
  {
    var i :| 0 <= i < |s| && Map(f, s)[i] == y;
    assert s[i] in s;
  }

  lemma InMap<T, U>(f: T -> U, s: seq<T>, x: T)
    requires x in s
    ensures f(x) in Map(f, s)
  {
    var i :| 0 <= i < |s| && s[i] == x;
    assert Map(f, s)[i] == f(x);
  }

  lemma MapSame<T>(f: T -> T, s: seq<T>)
    requires forall x :: x in s ==> f(x) == x
    ensures Map(f, s) == s
  {
  }

  lemma MappedDistinct<T, U>(f: T -> U, s: seq<T>, key: T -> Key, key': U -> Key)
    requires Distinct(s, key) && forall x :: x in s ==> key'(f(x)) == key(x)
    ensures Distinct(Map(f, s), key')
  {
  }

  /** Sorting what is already normal, element by element, and sorted. */
  lemma SortMapTwice<T(!new)>(f: T -> T, s: seq<T>, key: T -> Key)
    requires Distinct(s, key)
    requires forall x :: x in s ==> key(f(x)) == key(x) && f(f(x)) == f(x)
    ensures var once := SortBy(Map(f, s), key); SortBy(Map(f, once), key) == once
  {
    var mapped := Map(f, s);
    var once := SortBy(mapped, key);
    MappedDistinct(f, s, key, key);
    DistinctTells(mapped, key);
    SortBySorts(mapped, key);
    SameElements(mapped, once);
    forall y | y in once ensures f(y) == y {
      MapIn(f, s, y);
    }
    MapSame(f, once);
    SortTwice(mapped, key);
  }

  /** Sorting a list of normalised, distinctly keyed elements gives the same result
      exactly when the lists have the same normalised elements. */
  lemma SortMapTells<T(!new)>(f: T -> T, a: seq<T>, b: seq<T>, key: T -> Key)
    requires Distinct(a, key) && Distinct(b, key)
    requires forall x :: x in a || x in b ==> key(f(x)) == key(x)
    ensures SortBy(Map(f, a), key) == SortBy(Map(f, b), key)
            <==> SameSet(Map(f, a), Map(f, b))
  {
    MappedDistinct(f, a, key, key);
    MappedDistinct(f, b, key, key);
    DistinctTells(Map(f, a), key);
    DistinctTells(Map(f, b), key);
    SortForgetsOrder(Map(f, a), Map(f, b), key);
    if multiset(Map(f, a)) == multiset(Map(f, b)) {
      SameElements(Map(f, a), Map(f, b));
    }
    if SameSet(Map(f, a), Map(f, b)) {
      SameSetIsPermutation(Map(f, a), Map(f, b), key);
    }
  }

  lemma WorkloadsTell(a: seq<Workload>, b: seq<Workload>)
    requires AllTelling(a) && AllTelling(b)
    ensures SameSet(Map(NormalWorkload, a), Map(NormalWorkload, b)) <==> SameWorkloads(a, b)
  {
    if SameSet(Map(NormalWorkload, a), Map(NormalWorkload, b)) {
      WorkloadsCovered(a, b);
      WorkloadsCovered(b, a);
    }
    if SameWorkloads(a, b) {
      WorkloadsMapped(a, b);
      WorkloadsMapped(b, a);
    }
  }

  lemma WorkloadsCovered(a: seq<Workload>, b: seq<Workload>)
    requires AllTelling(a) && AllTelling(b) && forall y :: y in Map(NormalWorkload, a) ==> y in Map(NormalWorkload, b)
    ensures forall w :: w in a ==> exists v :: v in b && SameWorkload(w, v) && SameWorkload(v, w)
  {
    forall w | w in a ensures exists v :: v in b && SameWorkload(w, v) && SameWorkload(v, w) {
      InMap(NormalWorkload, a, w);
      MapIn(NormalWorkload, b, NormalWorkload(w));
      var v :| v in b && NormalWorkload(v) == NormalWorkload(w);
      NormalTells(w, v);
    }
  }

  lemma WorkloadsMapped(a: seq<Workload>, b: seq<Workload>)
    requires AllTelling(a) && AllTelling(b)
    requires forall w :: w in a ==> exists v :: v in b && (SameWorkload(w, v) || SameWorkload(v, w))
    ensures forall y :: y in Map(NormalWorkload, a) ==> y in Map(NormalWorkload, b)
  {
    forall y | y in Map(NormalWorkload, a) ensures y in Map(NormalWorkload, b) {
      MapIn(NormalWorkload, a, y);
      var w :| w in a && NormalWorkload(w) == y;
      var v :| v in b && (SameWorkload(w, v) || SameWorkload(v, w));
      NormalTells(w, v);
      InMap(NormalWorkload, b, v);
    }
  }

  lemma RoutesTell(a: seq<BusinessRoute>, b: seq<BusinessRoute>)
    ensures SameSet(Map(NormalRoute, a), Map(NormalRoute, b)) <==> SameRoutes(a, b)
  {
    if SameSet(Map(NormalRoute, a), Map(NormalRoute, b)) {
      RoutesCovered(a, b);
      RoutesCovered(b, a);
    }
    if SameRoutes(a, b) {
      RoutesMapped(a, b);
      RoutesMapped(b, a);
    }
  }

  lemma RoutesCovered(a: seq<BusinessRoute>, b: seq<BusinessRoute>)
    requires forall y :: y in Map(NormalRoute, a) ==> y in Map(NormalRoute, b)
    ensures forall r :: r in a ==> exists q :: q in b && SameRoute(r, q) && SameRoute(q, r)
  {
    forall r | r in a ensures exists q :: q in b && SameRoute(r, q) && SameRoute(q, r) {
      InMap(NormalRoute, a, r);
      MapIn(NormalRoute, b, NormalRoute(r));
      var q :| q in b && NormalRoute(q) == NormalRoute(r);
      NormalRouteTells(r, q);
    }
  }

  lemma RoutesMapped(a: seq<BusinessRoute>, b: seq<BusinessRoute>)
    requires forall r :: r in a ==> exists q :: q in b && (SameRoute(r, q) || SameRoute(q, r))
    ensures forall y :: y in Map(NormalRoute, a) ==> y in Map(NormalRoute, b)
  {
    forall y | y in Map(NormalRoute, a) ensures y in Map(NormalRoute, b) {
      MapIn(NormalRoute, a, y);
      var r :| r in a && NormalRoute(r) == y;
      var q :| q in b && (SameRoute(r, q) || SameRoute(q, r));
      NormalRouteTells(r, q);
      InMap(NormalRoute, b, q);
    }
  }

  // ------------------------------------------------------------------ main results

  lemma CanonicalTwice(lib: Library, s: Snapshot)
    requires Valid(lib, s)
    ensures Canonical(Canonical(s)) == Canonical(s)
  {
    ValidTells(lib, s);
    DistinctTells(s.bots, BotKey);
    DistinctTells(s.destinations, DestinationKey);
    DistinctTells(s.services, ServiceKey);
    DistinctTells(s.subscriptions, SubscriptionKey);
    SortTwice(s.bots, BotKey);
    SortTwice(s.destinations, DestinationKey);
    SortTwice(s.services, ServiceKey);
    SortTwice(s.subscriptions, SubscriptionKey);
    forall w | w in s.workloads ensures NormalWorkload(NormalWorkload(w)) == NormalWorkload(w) { NormalTwice(w); }
    SortMapTwice(NormalWorkload, s.workloads, WorkloadKey);
    forall r | r in s.businessRoutes ensures NormalRoute(NormalRoute(r)) == NormalRoute(r) { NormalRouteTwice(r); }
    SortMapTwice(NormalRoute, s.businessRoutes, RouteKey);
  }

  /** Two valid snapshots have one digest exactly when they are the same up to order. */
  lemma CanonicalTells(lib: Library, s: Snapshot, t: Snapshot)
    requires Valid(lib, s) && Valid(lib, t)
    ensures Canonical(s) == Canonical(t) <==> Same(s, t)
  {
    DistinctTells(s.bots, BotKey);
    DistinctTells(t.bots, BotKey);
    SortForgetsOrder(s.bots, t.bots, BotKey);
    DistinctTells(s.destinations, DestinationKey);
    DistinctTells(t.destinations, DestinationKey);
    SortForgetsOrder(s.destinations, t.destinations, DestinationKey);
    DistinctTells(s.services, ServiceKey);
    DistinctTells(t.services, ServiceKey);
    SortForgetsOrder(s.services, t.services, ServiceKey);
    DistinctTells(s.subscriptions, SubscriptionKey);
    DistinctTells(t.subscriptions, SubscriptionKey);
    SortForgetsOrder(s.subscriptions, t.subscriptions, SubscriptionKey);
    NestedTell(lib, s, t);
    assert Canonical(s) == Canonical(t) <==>
           && s.version == t.version && s.routes == t.routes
           && SortBy(s.bots, BotKey) == SortBy(t.bots, BotKey)
           && SortBy(s.destinations, DestinationKey) == SortBy(t.destinations, DestinationKey)
           && SortBy(s.services, ServiceKey) == SortBy(t.services, ServiceKey)
           && SortBy(s.subscriptions, SubscriptionKey) == SortBy(t.subscriptions, SubscriptionKey)
           && Canonical(s).workloads == Canonical(t).workloads
           && Canonical(s).businessRoutes == Canonical(t).businessRoutes;
  }

  lemma NestedTell(lib: Library, s: Snapshot, t: Snapshot)
    requires Valid(lib, s) && Valid(lib, t)
    ensures Canonical(s).workloads == Canonical(t).workloads <==> SameWorkloads(s.workloads, t.workloads)
    ensures Canonical(s).businessRoutes == Canonical(t).businessRoutes <==> SameRoutes(s.businessRoutes, t.businessRoutes)
  {
    ValidTells(lib, s);
    ValidTells(lib, t);
    WorkloadsTell(s.workloads, t.workloads);
    SortMapTells(NormalWorkload, s.workloads, t.workloads, WorkloadKey);
    RoutesTell(s.businessRoutes, t.businessRoutes);
    SortMapTells(NormalRoute, s.businessRoutes, t.businessRoutes, RouteKey);
  }
}
