/** RestoreConfiguration as it runs: loops that insert row after row and remember
    the new IDs in maps, inside one transaction. */
module ConfigTables {
  import opened Prelude
  import opened Ordering
  import opened ConfigSnapshot
  import opened ConfigStore
  import A = ConfigAccounts
  import T = ConfigRoundTrip
  import V = ConfigValidation

  class ConfigurationStore {
    var bots: seq<BotRow>
    var accounts: seq<A.Account>
    var destinations: seq<DestinationRow>
    var conditionals: seq<ConditionalRow>
    var workloads: seq<WorkloadRow>
    var credentials: seq<CredentialRow>
    var services: seq<ServiceRow>
    var subscriptions: seq<SubscriptionRow>
    var routes: seq<RouteRow>
    var permissions: seq<PermissionRow>
    var receipts: map<Snapshot, (nat, nat)>
    var next: Counters

    constructor (db: Db)
      ensures View() == db
    {
      bots, accounts, destinations, conditionals := db.bots, db.accounts, db.destinations, db.conditionals;
      workloads, credentials, services, subscriptions := db.workloads, db.credentials, db.services, db.subscriptions;
      routes, permissions, receipts, next := db.routes, db.permissions, db.receipts, db.next;
    }

    function View(): Db
      reads this
    {
      Db(bots, accounts, destinations, conditionals, workloads, credentials, services, subscriptions, routes,
         permissions, receipts, next)
    }

    /** The loop over the bots; on an empty accounts table every bot gets its account. */
    method RestoreBots(s: Snapshot) returns (ids: map<string, nat>)
      requires Distinct(s.bots, BotKey) && accounts == []
      modifies this`bots, this`accounts
      ensures bots == old(bots) + BotRows(next, s)
      ensures accounts == FirstBooks(next, s).accounts
      ensures forall b :: b in s.bots ==> b.ref in ids && ids[b.ref] == NewBotId(next, s, b.ref)
    {
      ids := map[];
      var i := 0;
      while i < |s.bots|
        invariant 0 <= i <= |s.bots|
        invariant bots == old(bots) + BotRows(next, s)[..i]
        invariant accounts == FirstBooks(next, s).accounts[..i]
        invariant forall j :: 0 <= j < i ==> s.bots[j].ref in ids && ids[s.bots[j].ref] == next.bot + j
      {
        var b := s.bots[i];
        forall j | 0 <= j < i ensures s.bots[j].ref != b.ref {
          assert BotKey(s.bots[j]) != BotKey(b);
        }
        bots := bots + [BotRow(next.bot + i, b.ref, Sealed(b.token), b.settings)];
        accounts := accounts + [A.Account(next.account + i, next.bot + i)];
        ids := ids[b.ref := next.bot + i];
        i := i + 1;
      }
      forall b | b in s.bots ensures b.ref in ids && ids[b.ref] == NewBotId(next, s, b.ref) {
        var j :| 0 <= j < |s.bots| && s.bots[j] == b;
        T.IndexIs(s.bots, BotKey, j);
      }
    }

    /** The loop over the destinations, with the search for an account in each round. */
    method RestoreDestinations(s: Snapshot, ids: map<string, nat>)
      requires accounts == FirstBooks(next, s).accounts
      requires forall d :: d in s.destinations ==> d.botRef in ids && ids[d.botRef] == NewBotId(next, s, d.botRef)
      modifies this`accounts, this`destinations
      ensures accounts == LastBooks(next, s).accounts
      ensures destinations == old(destinations) + DestinationRows(next, s)
    {
      var tables := new A.AccountTables(A.Books(accounts, [], next.account + |s.bots|));
      var i := 0;
      while i < |s.destinations|
        invariant 0 <= i <= |s.destinations|
        invariant tables.View() == Placements(next, s, i)
        invariant |tables.placed| == i
        invariant destinations == old(destinations) + RowsSoFar(next, s, tables.placed)
      {
        var d := s.destinations[i];
        assert d in s.destinations;
        ghost var before := tables.placed;
        PlacedStep(next, s, i);
        var account := tables.PlaceOne(ids[d.botRef], d.chatId);
        RowsStep(next, s, old(destinations), before, A.Placed(account, d.chatId));
        destinations := destinations + [DestinationRow(next.destination + i, d.ref, account, d.name, d.chatId, d.status)];
        i := i + 1;
      }
      AllPlaced(next, s, tables.placed);
      accounts := tables.accounts;
    }

    method RestoreConditionals(s: Snapshot, ids: map<string, nat>)
      requires forall r :: r in s.routes ==>
                 && r.sourceBotRef in ids && ids[r.sourceBotRef] == NewBotId(next, s, r.sourceBotRef)
                 && r.targetBotRef in ids && ids[r.targetBotRef] == NewBotId(next, s, r.targetBotRef)
      modifies this`conditionals
      ensures conditionals == old(conditionals) + ConditionalRows(next, s)
    {
      var i := 0;
      while i < |s.routes|
        invariant 0 <= i <= |s.routes|
        invariant conditionals == old(conditionals) + ConditionalRows(next, s)[..i]
      {
        var r := s.routes[i];
        assert r in s.routes;
        conditionals := conditionals + [ConditionalRow(next.conditional + i, r.ref, ids[r.sourceBotRef], ids[r.targetBotRef],
                                                       r.sourceChat, r.targetChat, r.rule)];
        i := i + 1;
      }
    }

    /** The first loop of restoreNotificationsTx, with the credentials inside. */
    method RestoreWorkloads(s: Snapshot) returns (ids: map<string, nat>)
      requires Distinct(s.workloads, WorkloadKey)
      modifies this`workloads, this`credentials
      ensures workloads == old(workloads) + WorkloadRows(next, s)
      ensures credentials == old(credentials) + Flatten(CredentialBlocks(next, s))
      ensures forall w :: w in s.workloads ==> w.ref in ids && ids[w.ref] == NewWorkloadId(next, s, w.ref)
    {
      ids := map[];
      var i := 0;
      assert CredentialBlocks(next, s)[..0] == [];
      while i < |s.workloads|
        invariant 0 <= i <= |s.workloads|
        invariant workloads == old(workloads) + WorkloadRows(next, s)[..i]
        invariant credentials == old(credentials) + Flatten(CredentialBlocks(next, s)[..i])
        invariant ids == WorkloadIds(next, s, i)
      {
        var w := s.workloads[i];
        workloads := workloads + [WorkloadRow(next.workload + i, w.ref, w.basics)];
        OneMoreRow(old(workloads), WorkloadRows(next, s), i);
        ids := ids[w.ref := next.workload + i];
        InsertCredentials(next.workload + i, w.credentials);
        OneMoreBlock(old(credentials), CredentialBlocks(next, s), i);
        i := i + 1;
      }
      assert CredentialBlocks(next, s)[..i] == CredentialBlocks(next, s);
      AllWorkloadIds(next, s);
    }

    method InsertCredentials(id: int, of: seq<Credential>)
      modifies this`credentials
      ensures credentials == old(credentials) + CredentialRowsOf(id, of)
    {
      var i := 0;
      while i < |of|
        invariant 0 <= i <= |of|
        invariant credentials == old(credentials) + CredentialRowsOf(id, of)[..i]
      {
        credentials := credentials + [CredentialRow(id, of[i].name, of[i].verifier, of[i].enabled)];
        i := i + 1;
      }
    }

    method RestoreServices(s: Snapshot, workloadIds: map<string, nat>) returns (ids: map<(string, string), nat>)
      requires Distinct(s.services, ServiceKey)
      requires forall n :: n in s.services ==>
                 n.workloadRef in workloadIds && workloadIds[n.workloadRef] == NewWorkloadId(next, s, n.workloadRef)
      modifies this`services
      ensures services == old(services) + ServiceRows(next, s)
      ensures forall n :: n in s.services ==> (n.workloadRef, n.fingerprint) in ids
      ensures forall n :: n in s.services ==>
                ids[(n.workloadRef, n.fingerprint)] == NewServiceId(next, s, n.workloadRef, n.fingerprint)
    {
      ids := map[];
      var i := 0;
      while i < |s.services|
        invariant 0 <= i <= |s.services|
        invariant services == old(services) + ServiceRows(next, s)[..i]
        invariant forall j :: 0 <= j < i ==> (s.services[j].workloadRef, s.services[j].fingerprint) in ids
        invariant forall j :: 0 <= j < i ==>
                    ids[(s.services[j].workloadRef, s.services[j].fingerprint)] == next.service + j
      {
        var n := s.services[i];
        assert n in s.services;
        forall j | 0 <= j < i
          ensures (s.services[j].workloadRef, s.services[j].fingerprint) != (n.workloadRef, n.fingerprint)
        {
          assert ServiceKey(s.services[j]) != ServiceKey(n);
        }
        services := services + [ServiceRow(next.service + i, workloadIds[n.workloadRef], n.fingerprint, n.displayName)];
        ids := ids[(n.workloadRef, n.fingerprint) := next.service + i];
        i := i + 1;
      }
      forall n | n in s.services ensures (n.workloadRef, n.fingerprint) in ids
        && ids[(n.workloadRef, n.fingerprint)] == NewServiceId(next, s, n.workloadRef, n.fingerprint)
      {
        var j :| 0 <= j < |s.services| && s.services[j] == n;
        T.IndexIs(s.services, ServiceKey, j);
      }
    }

    /** SELECT id, bot_account_id FROM gateway_telegram_destinations WHERE config_ref=? */
    method SelectDestination(s: Snapshot, ref: string) returns (row: DestinationRow)
      requires destinations == DestinationRows(next, s) && FindDestination(s.destinations, ref).Some?
      ensures row.id == NewDestinationId(next, s, ref)
      ensures row.account == AccountOf(next, s, Index(s.destinations, DestinationKey, [ref]))
    {
      T.DestinationIndex(s, ref);
      var k := 0;
      while destinations[k].ref != ref
        invariant 0 <= k <= Index(s.destinations, DestinationKey, [ref])
        invariant forall j :: 0 <= j < k ==> DestinationKey(s.destinations[j]) != [ref]
        decreases |destinations| - k
      {
        assert DestinationKey(s.destinations[k])[0] != ref;
        k := k + 1;
      }
      FirstIs(s.destinations, DestinationKey, [ref], k);
      row := destinations[k];
    }

    method RestoreSubscriptions(s: Snapshot, serviceIds: map<(string, string), nat>)
      requires destinations == DestinationRows(next, s)
      requires forall p :: p in s.subscriptions ==>
                 && FindDestination(s.destinations, p.destinationRef).Some?
                 && (p.workloadRef, p.fingerprint) in serviceIds
                 && serviceIds[(p.workloadRef, p.fingerprint)] == NewServiceId(next, s, p.workloadRef, p.fingerprint)
      modifies this`subscriptions
      ensures subscriptions == old(subscriptions) + SubscriptionRows(next, s)
    {
      var i := 0;
      while i < |s.subscriptions|
        invariant 0 <= i <= |s.subscriptions|
        invariant subscriptions == old(subscriptions) + SubscriptionRows(next, s)[..i]
      {
        var p := s.subscriptions[i];
        assert p in s.subscriptions;
        var row := SelectDestination(s, p.destinationRef);
        subscriptions := subscriptions + [SubscriptionRow(next.subscription + i, p.ref,
                                                          serviceIds[(p.workloadRef, p.fingerprint)], row.id, p.active)];
        i := i + 1;
      }
    }

    /** The first loop of restoreBusinessRoutesTx. */
    method RestoreRoutes(s: Snapshot)
      requires destinations == DestinationRows(next, s)
      requires forall r :: r in s.businessRoutes ==> FindDestination(s.destinations, r.destinationRef).Some?
      modifies this`routes
      ensures routes == old(routes) + RouteRows(next, s)
    {
      var i := 0;
      while i < |s.businessRoutes|
        invariant 0 <= i <= |s.businessRoutes|
        invariant routes == old(routes) + RouteRows(next, s)[..i]
      {
        var r := s.businessRoutes[i];
        assert r in s.businessRoutes;
        var row := SelectDestination(s, r.destinationRef);
        routes := routes + [RouteRow(next.route + i, r.routeKey, row.account, row.id, r.settings, r.callers)];
        i := i + 1;
      }
    }

    /** SELECT id FROM gateway_workloads WHERE config_ref=?; earlier rows have other references. */
    method SelectWorkload(s: Snapshot, ref: string, ghost before: seq<WorkloadRow>) returns (id: int)
      requires workloads == before + WorkloadRows(next, s) && HasWorkload(s, ref)
      requires forall w :: w in before ==> w.ref != ref
      ensures id == NewWorkloadId(next, s, ref)
    {
      ghost var b := |before|;
      ghost var at :| 0 <= at < |s.workloads| && s.workloads[at].ref == ref;
      assert workloads[b + at].ref == ref;
      assert forall j :: 0 <= j < b ==> workloads[j] == before[j] && before[j] in before;
      var k := 0;
      while workloads[k].ref != ref
        invariant 0 <= k <= b + at
        invariant forall j :: 0 <= j < k ==> workloads[j].ref != ref
        decreases |workloads| - k
      {
        k := k + 1;
      }
      forall j | 0 <= j < k - b ensures WorkloadKey(s.workloads[j]) != [ref] {
        assert workloads[b + j].ref != ref && WorkloadKey(s.workloads[j])[0] != ref;
      }
      FirstIs(s.workloads, WorkloadKey, [ref], k - b);
      id := workloads[k].id;
    }

    /** SELECT id FROM gateway_business_routes WHERE route_key=? */
    method SelectRoute(s: Snapshot, routeKey: string) returns (id: int)
      requires routes == RouteRows(next, s) && HasRoute(s, routeKey)
      ensures id == NewRouteId(next, s, routeKey)
    {
      ghost var at :| 0 <= at < |s.businessRoutes| && s.businessRoutes[at].routeKey == routeKey;
      var k := 0;
      while routes[k].routeKey != routeKey
        invariant 0 <= k <= at
        invariant forall j :: 0 <= j < k ==> RouteKey(s.businessRoutes[j]) != [routeKey]
        decreases |routes| - k
      {
        assert RouteKey(s.businessRoutes[k])[0] != routeKey;
        k := k + 1;
      }
      FirstIs(s.businessRoutes, RouteKey, [routeKey], k);
      id := routes[k].id;
    }

    /** The second loop of restoreBusinessRoutesTx, with its two lookups by key. */
    method RestorePermissions(s: Snapshot, ghost before: seq<WorkloadRow>)
      requires Distinct(s.workloads, WorkloadKey) && routes == RouteRows(next, s) && RoutesNamed(s)
      requires workloads == before + WorkloadRows(next, s) && NoneNamed(before, s)
      modifies this`permissions
      ensures permissions == old(permissions) + Flatten(PermissionBlocks(next, s))
    {
      var i := 0;
      assert PermissionBlocks(next, s)[..0] == [];
      while i < |s.workloads|
        invariant 0 <= i <= |s.workloads|
        invariant permissions == old(permissions) + Flatten(PermissionBlocks(next, s)[..i])
      {
        var w := s.workloads[i];
        assert w in s.workloads;
        T.IndexIs(s.workloads, WorkloadKey, i);
        InsertPermissions(s, w, next.workload + i, before);
        OneMoreBlock(old(permissions), PermissionBlocks(next, s), i);
        i := i + 1;
      }
      assert PermissionBlocks(next, s)[..i] == PermissionBlocks(next, s);
    }

    method InsertPermissions(s: Snapshot, w: Workload, ghost id: nat, ghost before: seq<WorkloadRow>)
      requires w in s.workloads && routes == RouteRows(next, s) && RoutesNamed(s)
      requires workloads == before + WorkloadRows(next, s) && NoneNamed(before, s)
      requires id == NewWorkloadId(next, s, w.ref)
      modifies this`permissions
      ensures permissions == old(permissions) + PermissionRowsOf(next, s, id, w.permissions)
    {
      var i := 0;
      while i < |w.permissions|
        invariant 0 <= i <= |w.permissions|
        invariant permissions == old(permissions) + PermissionRowsOf(next, s, id, w.permissions)[..i]
      {
        var p := w.permissions[i];
        assert p in w.permissions;
        var workload := SelectWorkload(s, w.ref, before);
        var route := SelectRoute(s, p.routeKey);
        permissions := permissions + [PermissionRow(workload, route, p.action)];
        OneMoreRow(old(permissions), PermissionRowsOf(next, s, id, w.permissions), i);
        i := i + 1;
      }
    }

    method InsertBots(s: Snapshot)
      requires Ready(s) && accounts == [] && destinations == []
      modifies this`bots, this`accounts, this`destinations, this`conditionals
      ensures bots == old(bots) + BotRows(next, s) && accounts == LastBooks(next, s).accounts
      ensures destinations == DestinationRows(next, s) && conditionals == old(conditionals) + ConditionalRows(next, s)
    {
      var ids := RestoreBots(s);
      RestoreDestinations(s, ids);
      RestoreConditionals(s, ids);
    }

    /** restoreNotificationsTx. */
    method InsertNotifications(s: Snapshot)
      requires Ready(s) && destinations == DestinationRows(next, s)
      modifies this`workloads, this`credentials, this`services, this`subscriptions
      ensures workloads == old(workloads) + WorkloadRows(next, s)
      ensures credentials == old(credentials) + Flatten(CredentialBlocks(next, s))
      ensures services == old(services) + ServiceRows(next, s)
      ensures subscriptions == old(subscriptions) + SubscriptionRows(next, s)
    {
      var workloadIds := RestoreWorkloads(s);
      var serviceIds := RestoreServices(s, workloadIds);
      RestoreSubscriptions(s, serviceIds);
    }

    method InsertRoutes(s: Snapshot, ghost before: seq<WorkloadRow>)
      requires Ready(s) && destinations == DestinationRows(next, s) && routes == []
      requires workloads == before + WorkloadRows(next, s) && NoneNamed(before, s)
      modifies this`routes, this`permissions
      ensures routes == old(routes) + RouteRows(next, s)
      ensures permissions == old(permissions) + Flatten(PermissionBlocks(next, s))
    {
      RestoreRoutes(s);
      RestorePermissions(s, before);
    }

    /** All inserts, on a database found to be unconfigured. */
    method InsertAll(s: Snapshot)
      requires Ready(s) && accounts == [] && destinations == [] && routes == [] && NoneNamed(workloads, s)
      modifies this
      ensures View() == Restored(old(View()), s)
    {
      ghost var before := View();
      InsertBots(s);
      InsertNotifications(s);
      InsertRoutes(s, before.workloads);
      Finish(before, s);
    }

    method Finish(ghost before: Db, s: Snapshot)
      requires before.accounts == [] && before.destinations == [] && next == before.next && receipts == before.receipts
      requires bots == before.bots + BotRows(next, s) && accounts == LastBooks(next, s).accounts
      requires destinations == DestinationRows(next, s) && conditionals == before.conditionals + ConditionalRows(next, s)
      requires workloads == before.workloads + WorkloadRows(next, s)
      requires credentials == before.credentials + Flatten(CredentialBlocks(next, s))
      requires services == before.services + ServiceRows(next, s)
      requires subscriptions == before.subscriptions + SubscriptionRows(next, s)
      requires routes == before.routes + RouteRows(next, s)
      requires permissions == before.permissions + Flatten(PermissionBlocks(next, s))
      modifies this`receipts, this`next
      ensures View() == Restored(before, s)
    {
      receipts := receipts[Canonical(s) := (|s.bots|, |s.destinations|)];
      next := Advanced(next, s);
      RowByRow(before, View(), s);
    }

    method RestoreConfiguration(lib: Library, s: Snapshot) returns (outcome: Outcome)
      requires T.DistinctIds(workloads, WorkloadId)
      modifies this
      ensures outcome == RestoreOutcome(lib, old(View()), s)
      ensures View() == ConfigStore.RestoreConfiguration(lib, old(View()), s)
    {
      var valid := V.Validate(lib, s);
      if !valid { return Invalid; }
      if !Scannable(View()) { return Unreadable; }
      var current := Export(lib, View());
      if current.None? { return Conflict; }
      if Canonical(s) in receipts {
        if Canonical(current.value) != Canonical(s) { return Conflict; }
        return Replayed(receipts[Canonical(s)].0, receipts[Canonical(s)].1);
      }
      if !Unconfigured(View(), current.value) { return Conflict; }
      if Taken(View(), s) { return ConstraintFailed; }
      T.UnconfiguredIsBlank(View());
      ValidIsReady(lib, s);
      InsertAll(s);
      return Committed;
    }
  }

  /** AUTOINCREMENT after the inserts. */
  function Advanced(c: Counters, s: Snapshot): Counters {
    Counters(c.bot + |s.bots|, LastBooks(c, s).nextId, c.destination + |s.destinations|, c.conditional + |s.routes|,
             c.workload + |s.workloads|, c.service + |s.services|, c.subscription + |s.subscriptions|,
             c.route + |s.businessRoutes|)
  }

  lemma RowByRow(d: Db, e: Db, s: Snapshot)
    requires d.accounts == [] && d.destinations == []
    requires e.bots == d.bots + BotRows(d.next, s) && e.accounts == LastBooks(d.next, s).accounts
    requires e.destinations == DestinationRows(d.next, s) && e.conditionals == d.conditionals + ConditionalRows(d.next, s)
    requires e.workloads == d.workloads + WorkloadRows(d.next, s)
    requires e.credentials == d.credentials + Flatten(CredentialBlocks(d.next, s))
    requires e.services == d.services + ServiceRows(d.next, s)
    requires e.subscriptions == d.subscriptions + SubscriptionRows(d.next, s)
    requires e.routes == d.routes + RouteRows(d.next, s)
    requires e.permissions == d.permissions + Flatten(PermissionBlocks(d.next, s))
    requires e.receipts == d.receipts[Canonical(s) := (|s.bots|, |s.destinations|)] && e.next == Advanced(d.next, s)
    ensures e == Restored(d, s)
  {
    var r := Restored(d, s);
    assert r.accounts == e.accounts && r.destinations == e.destinations;
    assert r.bots == e.bots && r.conditionals == e.conditionals && r.workloads == e.workloads;
    assert r.credentials == e.credentials && r.services == e.services && r.subscriptions == e.subscriptions;
    assert r.routes == e.routes && r.permissions == e.permissions && r.receipts == e.receipts && r.next == e.next;
  }

  /** The map from references to new IDs after n workloads. */
  function WorkloadIds(c: Counters, s: Snapshot, n: nat): map<string, nat>
    requires n <= |s.workloads|
  {
    if n == 0 then map[] else WorkloadIds(c, s, n - 1)[s.workloads[n - 1].ref := c.workload + n - 1]
  }

  lemma {:induction false} WorkloadIdIs(c: Counters, s: Snapshot, n: nat, j: nat)
    requires j < n <= |s.workloads| && Distinct(s.workloads, WorkloadKey)
    ensures s.workloads[j].ref in WorkloadIds(c, s, n) && WorkloadIds(c, s, n)[s.workloads[j].ref] == c.workload + j
  {
    if j < n - 1 {
      WorkloadIdIs(c, s, n - 1, j);
      assert WorkloadKey(s.workloads[j]) != WorkloadKey(s.workloads[n - 1]);
    }
  }

  lemma AllWorkloadIds(c: Counters, s: Snapshot)
    requires Distinct(s.workloads, WorkloadKey)
    ensures var ids := WorkloadIds(c, s, |s.workloads|);
            forall w :: w in s.workloads ==> w.ref in ids && ids[w.ref] == NewWorkloadId(c, s, w.ref)
  {
    var ids := WorkloadIds(c, s, |s.workloads|);
    forall w | w in s.workloads ensures w.ref in ids && ids[w.ref] == NewWorkloadId(c, s, w.ref) {
      var j :| 0 <= j < |s.workloads| && s.workloads[j] == w;
      WorkloadIdIs(c, s, |s.workloads|, j);
      T.IndexIs(s.workloads, WorkloadKey, j);
    }
  }

  /** The destination rows of the placements made so far. */
  function RowsSoFar(c: Counters, s: Snapshot, placed: seq<A.Placed>): seq<DestinationRow>
    requires |placed| <= |s.destinations|
  {
    seq(|placed|, i requires 0 <= i < |placed| =>
      var d := s.destinations[i];
      DestinationRow(c.destination + i, d.ref, placed[i].account, d.name, d.chatId, d.status))
  }

  lemma RowsStep(c: Counters, s: Snapshot, before: seq<DestinationRow>, placed: seq<A.Placed>, p: A.Placed)
    requires |placed| < |s.destinations|
    ensures var d := s.destinations[|placed|];
            before + RowsSoFar(c, s, placed + [p]) ==
            before + RowsSoFar(c, s, placed)
            + [DestinationRow(c.destination + |placed|, d.ref, p.account, d.name, d.chatId, d.status)]
  {
    var d := s.destinations[|placed|];
    var row := DestinationRow(c.destination + |placed|, d.ref, p.account, d.name, d.chatId, d.status);
    assert RowsSoFar(c, s, placed + [p]) == RowsSoFar(c, s, placed) + [row];
    assert before + (RowsSoFar(c, s, placed) + [row]) == before + RowsSoFar(c, s, placed) + [row];
  }

  /** The books after the first n destinations. */
  function Placements(c: Counters, s: Snapshot, n: nat): A.Books
    requires n <= |s.destinations|
  {
    A.PlaceAll(FirstBooks(c, s), Pairs(c, s)[..n])
  }

  lemma AllPlaced(c: Counters, s: Snapshot, placed: seq<A.Placed>)
    requires |placed| == |s.destinations| && placed == Placements(c, s, |s.destinations|).placed
    ensures RowsSoFar(c, s, placed) == DestinationRows(c, s)
    ensures Placements(c, s, |s.destinations|) == LastBooks(c, s)
  {
    assert Pairs(c, s)[..|s.destinations|] == Pairs(c, s);
    assert placed == LastBooks(c, s).placed;
  }

  lemma PlacedStep(c: Counters, s: Snapshot, i: nat)
    requires i < |s.destinations|
    ensures Placements(c, s, i + 1)
            == A.Place(Placements(c, s, i), NewBotId(c, s, s.destinations[i].botRef), s.destinations[i].chatId)
  {
    var pairs := Pairs(c, s);
    assert pairs[..i + 1][..i] == pairs[..i];
    assert pairs[..i + 1][i] == pairs[i];
  }

  lemma {:induction false} FlattenAppend<R>(blocks: seq<seq<R>>, block: seq<R>)
    ensures Flatten(blocks + [block]) == Flatten(blocks) + block
  {
    if blocks == [] {
      assert blocks + [block] == [block] && [block][1..] == [];
    } else {
      assert (blocks + [block])[1..] == blocks[1..] + [block];
      FlattenAppend(blocks[1..], block);
    }
  }

  lemma FlattenStep<R>(blocks: seq<seq<R>>, i: nat)
    requires i < |blocks|
    ensures Flatten(blocks[..i + 1]) == Flatten(blocks[..i]) + blocks[i]
  {
    FlattenAppend(blocks[..i], blocks[i]);
    assert blocks[..i + 1] == blocks[..i] + [blocks[i]];
  }

  lemma OneMoreBlock<R>(before: seq<R>, blocks: seq<seq<R>>, i: nat)
    requires i < |blocks|
    ensures before + Flatten(blocks[..i]) + blocks[i] == before + Flatten(blocks[..i + 1])
  {
    FlattenStep(blocks, i);
  }

  lemma OneMoreRow<R>(before: seq<R>, rows: seq<R>, i: nat)
    requires i < |rows|
    ensures before + rows[..i] + [rows[i]] == before + rows[..i + 1]
  {
  }

  /** The first record with the key is the one a lookup by it finds. */
  lemma {:induction false} FirstIs<R>(rows: seq<R>, key: R -> Key, k: Key, i: nat)
    requires i < |rows| && key(rows[i]) == k && forall j :: 0 <= j < i ==> key(rows[j]) != k
    ensures Index(rows, key, k) == i
  {
    if i > 0 { FirstIs(rows[1..], key, k, i - 1); }
  }

  predicate HasBot(s: Snapshot, ref: string) {
    exists b :: b in s.bots && b.ref == ref
  }

  /** No row has the reference of a workload to be restored. */
  predicate NoneNamed(rows: seq<WorkloadRow>, s: Snapshot) {
    forall w, v :: w in rows && v in s.workloads ==> w.ref != v.ref
  }

  predicate RoutesNamed(s: Snapshot) {
    forall w, p :: w in s.workloads && p in w.permissions ==> HasRoute(s, p.routeKey)
  }

  /** What the loops need of a valid snapshot. */
  predicate Ready(s: Snapshot) {
    && (forall d :: d in s.destinations ==> HasBot(s, d.botRef))
    && (forall r :: r in s.routes ==> HasBot(s, r.sourceBotRef) && HasBot(s, r.targetBotRef))
    && (forall n :: n in s.services ==> HasWorkload(s, n.workloadRef))
    && (forall p :: p in s.subscriptions ==>
          FindDestination(s.destinations, p.destinationRef).Some? && HasService(s, p.workloadRef, p.fingerprint))
    && (forall r :: r in s.businessRoutes ==> FindDestination(s.destinations, r.destinationRef).Some?)
    && RoutesNamed(s)
    && Distinct(s.bots, BotKey) && Distinct(s.workloads, WorkloadKey) && Distinct(s.services, ServiceKey)
  }

  lemma ValidIsReady(lib: Library, s: Snapshot)
    requires Valid(lib, s)
    ensures Ready(s)
  {
    forall d | d in s.destinations ensures HasBot(s, d.botRef) { T.FoundBot(s.bots, d.botRef); }
    forall r | r in s.routes ensures HasBot(s, r.sourceBotRef) && HasBot(s, r.targetBotRef) {
      T.FoundBot(s.bots, r.sourceBotRef);
      T.FoundBot(s.bots, r.targetBotRef);
    }
    forall r | r in s.businessRoutes ensures FindDestination(s.destinations, r.destinationRef).Some? {
      assert ValidBusinessRoute(lib, s, r);
    }
    forall w, p | w in s.workloads && p in w.permissions ensures HasRoute(s, p.routeKey) {
      assert ValidWorkload(lib, s, w);
    }
  }
}
