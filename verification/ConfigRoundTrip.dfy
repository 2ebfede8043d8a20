/** Restoring a snapshot into an unconfigured database and exporting it again. */
module ConfigRoundTrip {
  import opened Prelude
  import opened Ordering
  import opened ConfigSnapshot
  import opened ConfigStore
  import opened ConfigCanonical
  import A = ConfigAccounts

  // ------------------------------------------------------------------------ lookups

  predicate DistinctIds<T>(rows: seq<T>, idOf: T -> int) {
    forall i, j :: 0 <= i < j < |rows| ==> idOf(rows[i]) != idOf(rows[j])
  }

  lemma {:induction false} FindAt<T>(rows: seq<T>, idOf: T -> int, i: nat)
    requires DistinctIds(rows, idOf) && i < |rows|
    ensures Find(rows, idOf, idOf(rows[i])) == Some(rows[i])
  {
    if i > 0 { FindAt(rows[1..], idOf, i - 1); }
  }

  lemma {:induction false} IndexFinds<T>(s: seq<T>, key: T -> Key, k: Key, i: nat)
    requires i < |s| && key(s[i]) == k
    ensures Index(s, key, k) < |s| && key(s[Index(s, key, k)]) == k
  {
    if key(s[0]) != k { IndexFinds(s[1..], key, k, i - 1); }
  }

  /** With distinct keys the position is the one known. */
  lemma IndexIs<T>(s: seq<T>, key: T -> Key, i: nat)
    requires i < |s| && Distinct(s, key)
    ensures Index(s, key, key(s[i])) == i
  {
    IndexFinds(s, key, key(s[i]), i);
  }

  lemma {:induction false} FoundBot(bots: seq<Bot>, ref: string)
    ensures FindBot(bots, ref).Some? <==> exists i :: 0 <= i < |bots| && bots[i].ref == ref
    ensures FindBot(bots, ref).Some? ==> FindBot(bots, ref).value in bots && FindBot(bots, ref).value.ref == ref
  {
    if bots != [] {
      FoundBot(bots[1..], ref);
      if FindBot(bots, ref).Some? {
        if bots[0].ref != ref {
          var i :| 0 <= i < |bots[1..]| && bots[1..][i].ref == ref;
          assert bots[i + 1].ref == ref;
        }
      } else {
        forall i | 0 <= i < |bots| ensures bots[i].ref != ref {
          if i > 0 { assert bots[i] == bots[1..][i - 1]; }
        }
      }
    }
  }

  lemma {:induction false} FoundDestination(ds: seq<Destination>, ref: string)
    ensures FindDestination(ds, ref).Some? <==> exists i :: 0 <= i < |ds| && ds[i].ref == ref
    ensures FindDestination(ds, ref).Some? ==> FindDestination(ds, ref).value in ds && FindDestination(ds, ref).value.ref == ref
  {
    if ds != [] {
      FoundDestination(ds[1..], ref);
      if FindDestination(ds, ref).Some? {
        if ds[0].ref != ref {
          var i :| 0 <= i < |ds[1..]| && ds[1..][i].ref == ref;
          assert ds[i + 1].ref == ref;
        }
      } else {
        forall i | 0 <= i < |ds| ensures ds[i].ref != ref {
          if i > 0 { assert ds[i] == ds[1..][i - 1]; }
        }
      }
    }
  }

  // ------------------------------------------------------------- the database before

  predicate Blank(db: Db) {
    && db.bots == [] && db.accounts == [] && db.destinations == [] && db.conditionals == []
    && db.credentials == [] && db.services == [] && db.subscriptions == [] && db.routes == [] && db.permissions == []
    && (forall w :: w in db.workloads ==> !Portable(w)) && |db.workloads| <= 1
  }

  lemma {:induction false} NoPortables(rows: seq<WorkloadRow>)
    ensures Portables(rows) == [] <==> forall w :: w in rows ==> !Portable(w)
  {
    if rows != [] {
      NoPortables(rows[1..]);
      assert rows[0] in rows;
    }
  }

  lemma SomeIn<T>(s: seq<T>)
    ensures s == [] || exists x :: x in s
  {
    if s != [] { assert s[0] in s; }
  }

  lemma NothingJoined(db: Db)
    requires Joined(db) && Portables(db.workloads) == []
    ensures db.credentials == [] && db.permissions == []
  {
    SomeIn(db.credentials);
    SomeIn(db.permissions);
  }

  lemma SortedEmpty<T, U>(f: T -> U, rows: seq<T>, key: U -> Key)
    requires SortBy(Map(f, rows), key) == []
    ensures rows == []
  {
    SortBySorts(Map(f, rows), key);
    SameElements(Map(f, rows), SortBy(Map(f, rows), key));
  }

  lemma UnconfiguredIsBlank(db: Db)
    requires DistinctIds(db.workloads, WorkloadId)
    requires Joined(db) && Unconfigured(db, Assembled(db))
    ensures Blank(db)
  {
    NoPortables(db.workloads);
    NothingJoined(db);
    SortedEmpty(ExportBot, db.bots, BotKey);
    SortBySorts(ExportDestinations(db), DestinationKey);
    SameElements(ExportDestinations(db), SortBy(ExportDestinations(db), DestinationKey));
    assert |db.workloads| > 1 ==> WorkloadId(db.workloads[0]) == WorkloadId(db.workloads[1]);
  }

  // ----------------------------------------------------------------- alias accounts

  lemma {:induction false} FirstRank(c: Counters, s: Snapshot, bot: nat, k: nat)
    requires k <= |s.bots|
    ensures A.Rank(FirstBooks(c, s).accounts, bot, k) == if c.bot <= bot < c.bot + k then 1 else 0
  {
    if k > 0 { FirstRank(c, s, bot, k - 1); }
  }

  /** The IDs low to low + n - 1. */
  function Range(low: nat, n: nat): (ids: set<nat>)
    ensures forall id :: id in ids <==> low <= id < low + n
  {
    if n == 0 then {} else Range(low, n - 1) + {low + n - 1}
  }

  function BotIds(c: Counters, s: Snapshot): set<nat> {
    Range(c.bot, |s.bots|)
  }

  lemma NewBotIdIs(c: Counters, s: Snapshot, ref: string)
    requires FindBot(s.bots, ref).Some?
    ensures Index(s.bots, BotKey, [ref]) < |s.bots| && s.bots[Index(s.bots, BotKey, [ref])].ref == ref
    ensures NewBotId(c, s, ref) in BotIds(c, s)
  {
    FoundBot(s.bots, ref);
    var i :| 0 <= i < |s.bots| && s.bots[i].ref == ref;
    IndexFinds(s.bots, BotKey, [ref], i);
    assert BotKey(s.bots[Index(s.bots, BotKey, [ref])])[0] == ref;
  }

  lemma BooksFit(lib: Library, c: Counters, s: Snapshot)
    requires Valid(lib, s)
    ensures A.OneEach(FirstBooks(c, s), BotIds(c, s))
    ensures |Pairs(c, s)| == |s.destinations|
    ensures forall k :: 0 <= k < |Pairs(c, s)| ==> Pairs(c, s)[k].0 in BotIds(c, s)
  {
    forall bot | bot in BotIds(c, s) ensures A.Number(FirstBooks(c, s).accounts, bot) == 1 {
      FirstRank(c, s, bot, |s.bots|);
    }
    forall k | 0 <= k < |Pairs(c, s)| ensures Pairs(c, s)[k].0 in BotIds(c, s) {
      assert s.destinations[k] in s.destinations;
      NewBotIdIs(c, s, s.destinations[k].botRef);
    }
  }

  /** Restore's alias allocation, for every valid snapshot. */
  lemma RestoreAllocates(lib: Library, c: Counters, s: Snapshot)
    requires Valid(lib, s)
    ensures var books := LastBooks(c, s);
            && A.Once(books) && A.OnOwnBot(books, Pairs(c, s)) && A.Ascending(books)
            && forall id :: id in BotIds(c, s) ==> A.Tight(books, Pairs(c, s), id) && A.Number(books.accounts, id) >= 1
  {
    BooksFit(lib, c, s);
    A.AliasesAreMinimal(FirstBooks(c, s), Pairs(c, s), BotIds(c, s));
  }

  // ------------------------------------------------------------ one row at a time

  lemma BotRefBack(d: Db, c: Counters, s: Snapshot, i: nat)
    requires d.bots == BotRows(c, s) && i < |s.bots|
    ensures Find(d.bots, BotId, c.bot + i) == Some(BotRows(c, s)[i])
    ensures BotRef(d, c.bot + i) == s.bots[i].ref
  {
    assert BotRows(c, s)[i].id == c.bot + i;
    FindAt(d.bots, BotId, i);
  }

  lemma BotBack(d: Db, c: Counters, s: Snapshot, ref: string)
    requires d.bots == BotRows(c, s) && FindBot(s.bots, ref).Some?
    ensures BotRef(d, NewBotId(c, s, ref)) == ref
    ensures Find(d.bots, BotId, NewBotId(c, s, ref)).Some?
  {
    NewBotIdIs(c, s, ref);
    BotRefBack(d, c, s, Index(s.bots, BotKey, [ref]));
  }

  lemma OwnAccount(lib: Library, c: Counters, s: Snapshot, k: nat) returns (j: nat)
    requires Valid(lib, s) && k < |s.destinations|
    ensures j < |LastBooks(c, s).accounts|
    ensures LastBooks(c, s).accounts[j] == A.Account(AccountOf(c, s, k), NewBotId(c, s, s.destinations[k].botRef))
    ensures DistinctIds(LastBooks(c, s).accounts, AccountId)
  {
    var books, pairs := LastBooks(c, s), Pairs(c, s);
    RestoreAllocates(lib, c, s);
    assert pairs[k].0 == NewBotId(c, s, s.destinations[k].botRef);
    j :| 0 <= j < |books.accounts| && books.accounts[j] == A.Account(books.placed[k].account, pairs[k].0);
  }

  /** A destination's account leads back to the destination's own bot. */
  lemma AccountBotBack(lib: Library, d: Db, c: Counters, s: Snapshot, k: nat)
    requires Valid(lib, s) && k < |s.destinations|
    requires d.bots == BotRows(c, s) && d.accounts == LastBooks(c, s).accounts
    ensures AccountBot(d, AccountOf(c, s, k)) == Some(s.destinations[k].botRef)
  {
    var j := OwnAccount(lib, c, s, k);
    FindAt(d.accounts, AccountId, j);
    assert s.destinations[k] in s.destinations;
    BotBack(d, c, s, s.destinations[k].botRef);
  }

  lemma DestinationIndex(s: Snapshot, ref: string)
    requires FindDestination(s.destinations, ref).Some?
    ensures var k := Index(s.destinations, DestinationKey, [ref]);
            k < |s.destinations| && s.destinations[k].ref == ref
  {
    FoundDestination(s.destinations, ref);
    var i :| 0 <= i < |s.destinations| && s.destinations[i].ref == ref;
    IndexFinds(s.destinations, DestinationKey, [ref], i);
    assert DestinationKey(s.destinations[Index(s.destinations, DestinationKey, [ref])])[0] == ref;
  }

  lemma DestinationBack(c: Counters, s: Snapshot, ref: string)
    requires FindDestination(s.destinations, ref).Some?
    ensures var k := Index(s.destinations, DestinationKey, [ref]);
            && k < |s.destinations| && s.destinations[k].ref == ref
            && Find(DestinationRows(c, s), DestinationId, NewDestinationId(c, s, ref)) == Some(DestinationRows(c, s)[k])
  {
    DestinationIndex(s, ref);
    FindAt(DestinationRows(c, s), DestinationId, Index(s.destinations, DestinationKey, [ref]));
  }

  lemma {:induction false} DistinctFound(destinations: seq<Destination>, k: nat)
    requires Distinct(destinations, DestinationKey) && k < |destinations|
    ensures FindDestination(destinations, destinations[k].ref) == Some(destinations[k])
    decreases |destinations|
  {
    if k > 0 {
      assert DestinationKey(destinations[0]) != DestinationKey(destinations[k]);
      DistinctFound(destinations[1..], k - 1);
    }
  }

  /** The adapter's row, if any, and the restored workloads behind it. */
  predicate WorkloadsAre(d: Db, before: seq<WorkloadRow>, c: Counters, s: Snapshot) {
    && d.workloads == before + WorkloadRows(c, s)
    && |before| <= 1 && forall w :: w in before ==> w.id < 0
  }

  lemma WorkloadBack(d: Db, before: seq<WorkloadRow>, c: Counters, s: Snapshot, k: nat)
    requires WorkloadsAre(d, before, c, s) && k < |s.workloads|
    ensures WorkloadRef(d, c.workload + k) == s.workloads[k].ref
  {
    var n := |before|;
    assert d.workloads[n + k] == WorkloadRows(c, s)[k];
    assert n == 1 ==> before[0] in before;
    FindAt(d.workloads, WorkloadId, n + k);
  }

  lemma WorkloadRefBack(d: Db, before: seq<WorkloadRow>, c: Counters, s: Snapshot, ref: string)
    requires WorkloadsAre(d, before, c, s) && HasWorkload(s, ref)
    ensures WorkloadRef(d, NewWorkloadId(c, s, ref)) == ref
  {
    var w :| w in s.workloads && w.ref == ref;
    var i :| 0 <= i < |s.workloads| && s.workloads[i] == w;
    IndexFinds(s.workloads, WorkloadKey, [ref], i);
    var k := Index(s.workloads, WorkloadKey, [ref]);
    assert WorkloadKey(s.workloads[k])[0] == ref;
    WorkloadBack(d, before, c, s, k);
  }

  lemma RouteKeyBack(d: Db, c: Counters, s: Snapshot, routeKey: string)
    requires d.routes == RouteRows(c, s) && HasRoute(s, routeKey)
    ensures KeyOfRoute(d, NewRouteId(c, s, routeKey)) == routeKey
  {
    var r :| r in s.businessRoutes && r.routeKey == routeKey;
    var i :| 0 <= i < |s.businessRoutes| && s.businessRoutes[i] == r;
    IndexFinds(s.businessRoutes, RouteKey, [routeKey], i);
    var k := Index(s.businessRoutes, RouteKey, [routeKey]);
    assert RouteKey(s.businessRoutes[k])[0] == routeKey;
    FindAt(d.routes, RouteId, k);
  }

  lemma ServiceBack(c: Counters, s: Snapshot, workloadRef: string, fingerprint: string)
    requires HasService(s, workloadRef, fingerprint)
    ensures var k := Index(s.services, ServiceKey, [workloadRef, fingerprint]);
            && k < |s.services| && s.services[k].workloadRef == workloadRef && s.services[k].fingerprint == fingerprint
            && Find(ServiceRows(c, s), ServiceId, NewServiceId(c, s, workloadRef, fingerprint)) == Some(ServiceRows(c, s)[k])
  {
    var n :| n in s.services && n.workloadRef == workloadRef && n.fingerprint == fingerprint;
    var i :| 0 <= i < |s.services| && s.services[i] == n;
    IndexFinds(s.services, ServiceKey, [workloadRef, fingerprint], i);
    var k := Index(s.services, ServiceKey, [workloadRef, fingerprint]);
    assert ServiceKey(s.services[k])[0] == workloadRef && ServiceKey(s.services[k])[1] == fingerprint;
    FindAt(ServiceRows(c, s), ServiceId, k);
  }

  // ------------------------------------------------------- whole collections come back

  /** The tables after the inserts, one equation each. */
  predicate Filled(d: Db, before: seq<WorkloadRow>, c: Counters, s: Snapshot) {
    && d.bots == BotRows(c, s) && d.accounts == LastBooks(c, s).accounts && d.destinations == DestinationRows(c, s)
    && d.conditionals == ConditionalRows(c, s) && WorkloadsAre(d, before, c, s)
    && (forall w :: w in before ==> !Portable(w))
    && d.credentials == Flatten(CredentialBlocks(c, s)) && d.services == ServiceRows(c, s)
    && d.subscriptions == SubscriptionRows(c, s) && d.routes == RouteRows(c, s)
    && d.permissions == Flatten(PermissionBlocks(c, s))
  }

  lemma BlankFills(db: Db, s: Snapshot)
    requires Blank(db)
    ensures Filled(WithRows(db, s), db.workloads, db.next, s)
  {
    assert forall w :: w in db.workloads ==> w.id == ADAPTER_ID;
  }

  lemma BotsBack(d: Db, before: seq<WorkloadRow>, c: Counters, s: Snapshot)
    requires Filled(d, before, c, s)
    ensures Map(ExportBot, d.bots) == s.bots
  {
    var exported := Map(ExportBot, d.bots);
    forall i | 0 <= i < |s.bots| ensures exported[i] == s.bots[i] {
      assert d.bots[i] == BotRows(c, s)[i];
    }
  }

  lemma DestinationsBack(lib: Library, d: Db, before: seq<WorkloadRow>, c: Counters, s: Snapshot)
    requires Valid(lib, s) && Filled(d, before, c, s)
    ensures ExportDestinations(d) == s.destinations
    ensures forall r :: r in d.destinations ==> AccountBot(d, r.account).Some?
  {
    forall i | 0 <= i < |s.destinations|
      ensures ExportDestination(d, d.destinations[i]) == s.destinations[i] && AccountBot(d, d.destinations[i].account).Some?
    {
      AccountBotBack(lib, d, c, s, i);
    }
    assert |ExportDestinations(d)| == |s.destinations|;
  }

  lemma ConditionalsBack(lib: Library, d: Db, before: seq<WorkloadRow>, c: Counters, s: Snapshot)
    requires Valid(lib, s) && Filled(d, before, c, s)
    ensures ExportConditionals(d) == s.routes
  {
    forall i | 0 <= i < |s.routes| ensures ExportConditional(d, d.conditionals[i]) == s.routes[i] {
      assert s.routes[i] in s.routes;
      BotBack(d, c, s, s.routes[i].sourceBotRef);
      BotBack(d, c, s, s.routes[i].targetBotRef);
    }
    assert |ExportConditionals(d)| == |s.routes|;
  }

  lemma ServicesBack(lib: Library, d: Db, before: seq<WorkloadRow>, c: Counters, s: Snapshot)
    requires Valid(lib, s) && Filled(d, before, c, s)
    ensures ExportServices(d) == s.services
  {
    forall i | 0 <= i < |s.services| ensures ExportService(d, d.services[i]) == s.services[i] {
      assert s.services[i] in s.services;
      WorkloadRefBack(d, before, c, s, s.services[i].workloadRef);
    }
    assert |ExportServices(d)| == |s.services|;
  }

  lemma SubscriptionsBack(lib: Library, d: Db, before: seq<WorkloadRow>, c: Counters, s: Snapshot)
    requires Valid(lib, s) && Filled(d, before, c, s)
    ensures ExportSubscriptions(d) == s.subscriptions
  {
    forall i | 0 <= i < |s.subscriptions|
      ensures ExportSubscription(d, d.subscriptions[i]) == s.subscriptions[i]
    {
      SubscriptionBack(lib, d, before, c, s, i);
    }
    assert |ExportSubscriptions(d)| == |s.subscriptions|;
  }

  lemma SubscriptionBack(lib: Library, d: Db, before: seq<WorkloadRow>, c: Counters, s: Snapshot, i: nat)
    requires Valid(lib, s) && Filled(d, before, c, s) && i < |s.subscriptions|
    ensures ExportSubscription(d, d.subscriptions[i]) == s.subscriptions[i]
  {
    var p := s.subscriptions[i];
    assert p in s.subscriptions;
    assert d.subscriptions[i] == SubscriptionRows(c, s)[i];
    ServiceBack(c, s, p.workloadRef, p.fingerprint);
    var k := Index(s.services, ServiceKey, [p.workloadRef, p.fingerprint]);
    assert s.services[k] in s.services;
    WorkloadRefBack(d, before, c, s, p.workloadRef);
    DestinationBack(c, s, p.destinationRef);
  }

  lemma RoutesBack(lib: Library, d: Db, before: seq<WorkloadRow>, c: Counters, s: Snapshot)
    requires Valid(lib, s) && Filled(d, before, c, s)
    ensures ExportRoutes(d) == s.businessRoutes
  {
    forall i | 0 <= i < |s.businessRoutes| ensures ExportRoute(d, d.routes[i]) == s.businessRoutes[i] {
      RouteBack(lib, d, before, c, s, i);
    }
    assert |ExportRoutes(d)| == |s.businessRoutes|;
  }

  lemma RouteBack(lib: Library, d: Db, before: seq<WorkloadRow>, c: Counters, s: Snapshot, i: nat)
    requires Valid(lib, s) && Filled(d, before, c, s) && i < |s.businessRoutes|
    ensures ExportRoute(d, d.routes[i]) == s.businessRoutes[i]
  {
    var r := s.businessRoutes[i];
    assert r in s.businessRoutes;
    assert ValidBusinessRoute(lib, s, r);
    assert d.routes[i] == RouteRows(c, s)[i];
    DestinationBack(c, s, r.destinationRef);
    var k := Index(s.destinations, DestinationKey, [r.destinationRef]);
    DistinctFound(s.destinations, k);
    AccountBotBack(lib, d, c, s, k);
  }

  // ------------------------------------------------------ what hangs below a workload

  lemma {:induction false} PickConcat<R, T>(a: seq<R>, b: seq<R>, refOf: R -> string, convert: R -> T, ref: string)
    ensures Pick(a + b, refOf, convert, ref) == Pick(a, refOf, convert, ref) + Pick(b, refOf, convert, ref)
    decreases |a|
  {
    if a == [] {
      assert a + b == b;
    } else {
      assert (a + b)[1..] == a[1..] + b;
      PickConcat(a[1..], b, refOf, convert, ref);
    }
  }

  /** A block of rows under one reference is picked whole or not at all. */
  lemma {:induction false} PickBlock<R, T>(rows: seq<R>, values: seq<T>, refOf: R -> string, convert: R -> T, own: string, ref: string)
    requires |rows| == |values|
    requires forall i :: 0 <= i < |rows| ==> refOf(rows[i]) == own && convert(rows[i]) == values[i]
    ensures Pick(rows, refOf, convert, ref) == if own == ref then values else []
    decreases |rows|
  {
    if rows != [] {
      PickBlock(rows[1..], values[1..], refOf, convert, own, ref);
      assert [values[0]] + values[1..] == values;
    }
  }

  lemma {:induction false} PickFlatten<R, T>(blocks: seq<seq<R>>, values: seq<seq<T>>, refs: seq<string>,
                                            refOf: R -> string, convert: R -> T, ref: string)
    requires |blocks| == |values| == |refs|
    requires forall j :: 0 <= j < |blocks| ==> |blocks[j]| == |values[j]|
    requires forall j :: 0 <= j < |blocks| ==> forall i :: 0 <= i < |blocks[j]| ==>
               refOf(blocks[j][i]) == refs[j] && convert(blocks[j][i]) == values[j][i]
    requires forall i, j :: 0 <= i < j < |refs| ==> refs[i] != refs[j]
    ensures ref !in refs ==> Pick(Flatten(blocks), refOf, convert, ref) == []
    ensures forall k :: 0 <= k < |refs| && refs[k] == ref ==> Pick(Flatten(blocks), refOf, convert, ref) == values[k]
    decreases |blocks|
  {
    if blocks != [] {
      var rest := Flatten(blocks[1..]);
      PickConcat(blocks[0], rest, refOf, convert, ref);
      PickBlock(blocks[0], values[0], refOf, convert, refs[0], ref);
      PickFlatten(blocks[1..], values[1..], refs[1..], refOf, convert, ref);
      assert refs == [refs[0]] + refs[1..];
      assert values[0] + [] == values[0];
      if refs[0] == ref {
        assert ref !in refs[1..] by { assert forall j :: 0 <= j < |refs[1..]| ==> refs[1..][j] == refs[j + 1]; }
      } else {
        forall k | 0 <= k < |refs| && refs[k] == ref
          ensures Pick(Flatten(blocks), refOf, convert, ref) == values[k]
        {
          assert refs[1..][k - 1] == ref && values[1..][k - 1] == values[k];
        }
      }
    }
  }

  function WorkloadRefs(s: Snapshot): seq<string> {
    seq(|s.workloads|, k requires 0 <= k < |s.workloads| => s.workloads[k].ref)
  }

  lemma RefsDistinct(s: Snapshot)
    requires Distinct(s.workloads, WorkloadKey)
    ensures forall i, j :: 0 <= i < j < |s.workloads| ==> WorkloadRefs(s)[i] != WorkloadRefs(s)[j]
  {
    forall i, j | 0 <= i < j < |s.workloads| ensures WorkloadRefs(s)[i] != WorkloadRefs(s)[j] {
      assert WorkloadKey(s.workloads[i]) != WorkloadKey(s.workloads[j]);
    }
  }

  lemma CredentialBack(lib: Library, d: Db, before: seq<WorkloadRow>, c: Counters, s: Snapshot, j: nat)
    requires Valid(lib, s) && WorkloadsAre(d, before, c, s) && j < |s.workloads|
    ensures var block := CredentialBlocks(c, s)[j];
            && |block| == |s.workloads[j].credentials|
            && forall i :: 0 <= i < |block| ==>
                 CredentialRef(d)(block[i]) == s.workloads[j].ref && ExportCredential(block[i]) == s.workloads[j].credentials[i]
  {
    var w := s.workloads[j];
    assert w in s.workloads;
    assert ValidWorkload(lib, s, w);
    WorkloadBack(d, before, c, s, j);
    forall i | 0 <= i < |w.credentials| ensures w.credentials[i].algorithm == "sha256" {
      assert w.credentials[i] in w.credentials;
    }
  }

  lemma PermissionBack(lib: Library, d: Db, before: seq<WorkloadRow>, c: Counters, s: Snapshot, j: nat)
    requires Valid(lib, s) && WorkloadsAre(d, before, c, s) && d.routes == RouteRows(c, s) && j < |s.workloads|
    ensures var block := PermissionBlocks(c, s)[j];
            && |block| == |s.workloads[j].permissions|
            && forall i :: 0 <= i < |block| ==>
                 PermissionRef(d)(block[i]) == s.workloads[j].ref && ExportPermission(d)(block[i]) == s.workloads[j].permissions[i]
  {
    var w := s.workloads[j];
    assert w in s.workloads;
    assert ValidWorkload(lib, s, w);
    WorkloadBack(d, before, c, s, j);
    forall i | 0 <= i < |w.permissions|
      ensures KeyOfRoute(d, NewRouteId(c, s, w.permissions[i].routeKey)) == w.permissions[i].routeKey
    {
      assert w.permissions[i] in w.permissions;
      RouteKeyBack(d, c, s, w.permissions[i].routeKey);
    }
  }

  lemma NestedBack(lib: Library, d: Db, before: seq<WorkloadRow>, c: Counters, s: Snapshot, k: nat)
    requires Valid(lib, s) && Filled(d, before, c, s) && k < |s.workloads|
    ensures Pick(d.credentials, CredentialRef(d), ExportCredential, s.workloads[k].ref) == s.workloads[k].credentials
    ensures Pick(d.permissions, PermissionRef(d), ExportPermission(d), s.workloads[k].ref) == s.workloads[k].permissions
  {
    var n := |s.workloads|;
    RefsDistinct(s);
    forall j | 0 <= j < n { CredentialBack(lib, d, before, c, s, j); }
    forall j | 0 <= j < n { PermissionBack(lib, d, before, c, s, j); }
    PickFlatten(CredentialBlocks(c, s), seq(n, j requires 0 <= j < n => s.workloads[j].credentials), WorkloadRefs(s),
                CredentialRef(d), ExportCredential, s.workloads[k].ref);
    PickFlatten(PermissionBlocks(c, s), seq(n, j requires 0 <= j < n => s.workloads[j].permissions), WorkloadRefs(s),
                PermissionRef(d), ExportPermission(d), s.workloads[k].ref);
    assert WorkloadRefs(s)[k] == s.workloads[k].ref;
  }

  lemma {:induction false} PortablesAre(before: seq<WorkloadRow>, rows: seq<WorkloadRow>)
    requires (forall w :: w in before ==> !Portable(w)) && (forall w :: w in rows ==> Portable(w))
    ensures Portables(before + rows) == rows
    decreases |before| + |rows|
  {
    if before != [] {
      assert (before + rows)[1..] == before[1..] + rows;
      assert before[0] in before;
      PortablesAre(before[1..], rows);
    } else if rows != [] {
      assert before + rows == rows;
      assert rows[0] in rows;
      PortablesAre([], rows[1..]);
      assert [] + rows[1..] == rows[1..];
      assert [rows[0]] + rows[1..] == rows;
    }
  }

  lemma WorkloadsBack(lib: Library, d: Db, before: seq<WorkloadRow>, c: Counters, s: Snapshot)
    requires Valid(lib, s) && Filled(d, before, c, s)
    ensures ExportWorkloads(d) == s.workloads && Portables(d.workloads) == WorkloadRows(c, s)
  {
    PortablesAre(before, WorkloadRows(c, s));
    forall k | 0 <= k < |s.workloads| ensures ExportWorkload(d, WorkloadRows(c, s)[k]) == s.workloads[k] {
      NestedBack(lib, d, before, c, s, k);
    }
    assert |ExportWorkloads(d)| == |s.workloads|;
  }
}
