/** What restored rows refer to, read column by column and without the export: every
    local ID is that of the row the snapshot names at that place. */
module ConfigMeaning {
  import opened Prelude
  import opened Ordering
  import opened ConfigSnapshot
  import opened ConfigStore
  import opened ConfigRoundTrip
  import opened ConfigRestore
  import A = ConfigAccounts

  /** The ID is that of the bot with this reference, and of no other one. */
  ghost predicate IsBot(d: Db, id: int, ref: string) {
    exists i :: 0 <= i < |d.bots| && d.bots[i].id == id && d.bots[i].ref == ref
  }

  ghost predicate IsDestination(d: Db, id: int, ref: string) {
    exists i :: 0 <= i < |d.destinations| && d.destinations[i].id == id && d.destinations[i].ref == ref
  }

  ghost predicate IsWorkload(d: Db, id: int, ref: string) {
    exists i :: 0 <= i < |d.workloads| && d.workloads[i].id == id && d.workloads[i].ref == ref
  }

  ghost predicate IsRoute(d: Db, id: int, routeKey: string) {
    exists i :: 0 <= i < |d.routes| && d.routes[i].id == id && d.routes[i].routeKey == routeKey
  }

  ghost predicate IsService(d: Db, id: int, workloadRef: string, fingerprint: string) {
    exists i :: 0 <= i < |d.services| && d.services[i].id == id && d.services[i].fingerprint == fingerprint
                && IsWorkload(d, d.services[i].workload, workloadRef)
  }

  /** The account belongs to the bot with this reference. */
  ghost predicate IsAccountOf(d: Db, account: int, ref: string) {
    exists j :: 0 <= j < |d.accounts| && d.accounts[j].id == account && IsBot(d, d.accounts[j].bot, ref)
  }

  // ------------------------------------------------------------------ one reference

  lemma BotIs(d: Db, c: Counters, s: Snapshot, ref: string)
    requires d.bots == BotRows(c, s) && FindBot(s.bots, ref).Some?
    ensures IsBot(d, NewBotId(c, s, ref), ref)
  {
    NewBotIdIs(c, s, ref);
    var k := Index(s.bots, BotKey, [ref]);
    assert d.bots[k].id == NewBotId(c, s, ref) && d.bots[k].ref == ref;
  }

  lemma DestinationIs(d: Db, c: Counters, s: Snapshot, ref: string)
    requires d.destinations == DestinationRows(c, s) && FindDestination(s.destinations, ref).Some?
    ensures IsDestination(d, NewDestinationId(c, s, ref), ref)
  {
    DestinationIndex(s, ref);
    var k := Index(s.destinations, DestinationKey, [ref]);
    assert d.destinations[k].id == NewDestinationId(c, s, ref) && d.destinations[k].ref == ref;
  }

  lemma WorkloadIs(d: Db, before: seq<WorkloadRow>, c: Counters, s: Snapshot, ref: string)
    requires WorkloadsAre(d, before, c, s) && HasWorkload(s, ref)
    ensures IsWorkload(d, NewWorkloadId(c, s, ref), ref)
  {
    var w :| w in s.workloads && w.ref == ref;
    var i :| 0 <= i < |s.workloads| && s.workloads[i] == w;
    IndexFinds(s.workloads, WorkloadKey, [ref], i);
    var k := Index(s.workloads, WorkloadKey, [ref]);
    assert WorkloadKey(s.workloads[k])[0] == ref;
    assert d.workloads[|before| + k] == WorkloadRows(c, s)[k];
  }

  lemma RouteIs(d: Db, c: Counters, s: Snapshot, routeKey: string)
    requires d.routes == RouteRows(c, s) && HasRoute(s, routeKey)
    ensures IsRoute(d, NewRouteId(c, s, routeKey), routeKey)
  {
    var r :| r in s.businessRoutes && r.routeKey == routeKey;
    var i :| 0 <= i < |s.businessRoutes| && s.businessRoutes[i] == r;
    IndexFinds(s.businessRoutes, RouteKey, [routeKey], i);
    var k := Index(s.businessRoutes, RouteKey, [routeKey]);
    assert RouteKey(s.businessRoutes[k])[0] == routeKey;
    assert d.routes[k].id == NewRouteId(c, s, routeKey);
  }

  lemma ServiceIs(d: Db, before: seq<WorkloadRow>, c: Counters, s: Snapshot, workloadRef: string, fingerprint: string)
    requires WorkloadsAre(d, before, c, s) && d.services == ServiceRows(c, s)
    requires HasService(s, workloadRef, fingerprint) && HasWorkload(s, workloadRef)
    ensures IsService(d, NewServiceId(c, s, workloadRef, fingerprint), workloadRef, fingerprint)
  {
    ServiceBack(c, s, workloadRef, fingerprint);
    WorkloadIs(d, before, c, s, workloadRef);
    var k := Index(s.services, ServiceKey, [workloadRef, fingerprint]);
    assert d.services[k] == ServiceRows(c, s)[k];
  }

  lemma AccountIs(lib: Library, d: Db, c: Counters, s: Snapshot, k: nat)
    requires Valid(lib, s) && k < |s.destinations|
    requires d.bots == BotRows(c, s) && d.accounts == LastBooks(c, s).accounts
    ensures IsAccountOf(d, AccountOf(c, s, k), s.destinations[k].botRef)
  {
    var j := OwnAccount(lib, c, s, k);
    assert s.destinations[k] in s.destinations;
    BotIs(d, c, s, s.destinations[k].botRef);
    assert d.accounts[j].id == AccountOf(c, s, k);
  }

  // -------------------------------------------------------------------- one table each

  /** Tokens, settings, and the first alias of each bot. */
  ghost predicate BotsMean(d: Db, s: Snapshot) {
    && |d.bots| == |s.bots|
    && forall i :: 0 <= i < |s.bots| ==>
         d.bots[i].ref == s.bots[i].ref && d.bots[i].token.plain == s.bots[i].token && d.bots[i].settings == s.bots[i].settings
  }

  ghost predicate DestinationsMean(d: Db, s: Snapshot) {
    && |d.destinations| == |s.destinations|
    && forall i :: 0 <= i < |s.destinations| ==>
         && d.destinations[i].ref == s.destinations[i].ref && d.destinations[i].name == s.destinations[i].name
         && d.destinations[i].chat == s.destinations[i].chatId && d.destinations[i].status == s.destinations[i].status
         && IsAccountOf(d, d.destinations[i].account, s.destinations[i].botRef)
  }

  ghost predicate ConditionalsMean(d: Db, s: Snapshot) {
    && |d.conditionals| == |s.routes|
    && forall i :: 0 <= i < |s.routes| ==>
         && d.conditionals[i].ref == s.routes[i].ref && d.conditionals[i].rule == s.routes[i].rule
         && IsBot(d, d.conditionals[i].source, s.routes[i].sourceBotRef)
         && IsBot(d, d.conditionals[i].target, s.routes[i].targetBotRef)
         && d.conditionals[i].sourceChat == s.routes[i].sourceChat && d.conditionals[i].targetChat == s.routes[i].targetChat
  }

  ghost predicate ServicesMean(d: Db, s: Snapshot) {
    && |d.services| == |s.services|
    && forall i :: 0 <= i < |s.services| ==>
         && d.services[i].fingerprint == s.services[i].fingerprint && d.services[i].displayName == s.services[i].displayName
         && IsWorkload(d, d.services[i].workload, s.services[i].workloadRef)
  }

  ghost predicate SubscriptionsMean(d: Db, s: Snapshot) {
    && |d.subscriptions| == |s.subscriptions|
    && forall i :: 0 <= i < |s.subscriptions| ==>
         && d.subscriptions[i].ref == s.subscriptions[i].ref && d.subscriptions[i].active == s.subscriptions[i].active
         && IsService(d, d.subscriptions[i].service, s.subscriptions[i].workloadRef, s.subscriptions[i].fingerprint)
         && IsDestination(d, d.subscriptions[i].destination, s.subscriptions[i].destinationRef)
  }

  /** A route's account is the one of its destination. */
  ghost predicate RoutesMean(d: Db, s: Snapshot) {
    && |d.routes| == |s.businessRoutes|
    && forall i :: 0 <= i < |s.businessRoutes| ==>
         && d.routes[i].routeKey == s.businessRoutes[i].routeKey && d.routes[i].settings == s.businessRoutes[i].settings
         && d.routes[i].callers == s.businessRoutes[i].callers
         && IsDestination(d, d.routes[i].destination, s.businessRoutes[i].destinationRef)
         && IsAccountOf(d, d.routes[i].account, s.businessRoutes[i].botRef)
  }

  /** Each permission and credential of a workload is there under its ID. */
  ghost predicate NestedMean(d: Db, s: Snapshot) {
    forall w :: w in s.workloads ==> WorkloadMeans(d, w)
  }

  ghost predicate HasPermission(d: Db, workloadRef: string, p: RoutePermission) {
    exists r :: r in d.permissions && r.action == p.action && IsWorkload(d, r.workload, workloadRef) && IsRoute(d, r.route, p.routeKey)
  }

  ghost predicate HasCredential(d: Db, workloadRef: string, k: Credential) {
    exists r :: r in d.credentials && r.name == k.name && r.hash == k.verifier && r.enabled == k.enabled
                && IsWorkload(d, r.workload, workloadRef)
  }

  ghost predicate WorkloadMeans(d: Db, w: Workload) {
    (forall p :: p in w.permissions ==> HasPermission(d, w.ref, p)) && (forall k :: k in w.credentials ==> HasCredential(d, w.ref, k))
  }

  lemma FilledDestinations(lib: Library, d: Db, before: seq<WorkloadRow>, c: Counters, s: Snapshot)
    requires Valid(lib, s) && Filled(d, before, c, s)
    ensures BotsMean(d, s) && DestinationsMean(d, s)
  {
    forall i | 0 <= i < |s.destinations| ensures IsAccountOf(d, d.destinations[i].account, s.destinations[i].botRef) {
      AccountIs(lib, d, c, s, i);
    }
  }

  lemma FilledConditionals(lib: Library, d: Db, before: seq<WorkloadRow>, c: Counters, s: Snapshot)
    requires Valid(lib, s) && Filled(d, before, c, s)
    ensures ConditionalsMean(d, s)
  {
    forall i | 0 <= i < |s.routes|
      ensures IsBot(d, d.conditionals[i].source, s.routes[i].sourceBotRef)
        && IsBot(d, d.conditionals[i].target, s.routes[i].targetBotRef)
    {
      assert s.routes[i] in s.routes;
      BotIs(d, c, s, s.routes[i].sourceBotRef);
      BotIs(d, c, s, s.routes[i].targetBotRef);
    }
  }

  lemma FilledServices(lib: Library, d: Db, before: seq<WorkloadRow>, c: Counters, s: Snapshot)
    requires Valid(lib, s) && Filled(d, before, c, s)
    ensures ServicesMean(d, s)
  {
    forall i | 0 <= i < |s.services| ensures IsWorkload(d, d.services[i].workload, s.services[i].workloadRef) {
      assert s.services[i] in s.services;
      WorkloadIs(d, before, c, s, s.services[i].workloadRef);
    }
  }

  lemma ServiceWorkload(lib: Library, s: Snapshot, workloadRef: string, fingerprint: string)
    requires Valid(lib, s) && HasService(s, workloadRef, fingerprint)
    ensures HasWorkload(s, workloadRef)
  {
    var n :| n in s.services && n.workloadRef == workloadRef && n.fingerprint == fingerprint;
  }

  lemma FilledSubscriptions(lib: Library, d: Db, before: seq<WorkloadRow>, c: Counters, s: Snapshot)
    requires Valid(lib, s) && Filled(d, before, c, s)
    ensures SubscriptionsMean(d, s)
  {
    forall i | 0 <= i < |s.subscriptions|
      ensures IsService(d, d.subscriptions[i].service, s.subscriptions[i].workloadRef, s.subscriptions[i].fingerprint)
        && IsDestination(d, d.subscriptions[i].destination, s.subscriptions[i].destinationRef)
    {
      var p := s.subscriptions[i];
      assert p in s.subscriptions;
      ServiceWorkload(lib, s, p.workloadRef, p.fingerprint);
      ServiceIs(d, before, c, s, p.workloadRef, p.fingerprint);
      DestinationIs(d, c, s, p.destinationRef);
    }
  }

  lemma FilledRoute(lib: Library, d: Db, before: seq<WorkloadRow>, c: Counters, s: Snapshot, i: nat)
    requires Valid(lib, s) && Filled(d, before, c, s) && i < |s.businessRoutes|
    ensures IsDestination(d, d.routes[i].destination, s.businessRoutes[i].destinationRef)
    ensures IsAccountOf(d, d.routes[i].account, s.businessRoutes[i].botRef)
  {
    var r := s.businessRoutes[i];
    assert r in s.businessRoutes;
    assert ValidBusinessRoute(lib, s, r);
    DestinationIs(d, c, s, r.destinationRef);
    DestinationIndex(s, r.destinationRef);
    var k := Index(s.destinations, DestinationKey, [r.destinationRef]);
    DistinctFound(s.destinations, k);
    AccountIs(lib, d, c, s, k);
  }

  lemma FilledRoutes(lib: Library, d: Db, before: seq<WorkloadRow>, c: Counters, s: Snapshot)
    requires Valid(lib, s) && Filled(d, before, c, s)
    ensures RoutesMean(d, s)
  {
    forall i | 0 <= i < |s.businessRoutes|
      ensures IsDestination(d, d.routes[i].destination, s.businessRoutes[i].destinationRef)
        && IsAccountOf(d, d.routes[i].account, s.businessRoutes[i].botRef)
    {
      FilledRoute(lib, d, before, c, s, i);
    }
  }

  lemma {:induction false} InFlatten<R>(blocks: seq<seq<R>>, j: nat, i: nat)
    requires j < |blocks| && i < |blocks[j]|
    ensures blocks[j][i] in Flatten(blocks)
    decreases j
  {
    if j > 0 { InFlatten(blocks[1..], j - 1, i); }
  }

  lemma WorkloadRowIs(d: Db, before: seq<WorkloadRow>, c: Counters, s: Snapshot, j: nat)
    requires WorkloadsAre(d, before, c, s) && j < |s.workloads|
    ensures IsWorkload(d, c.workload + j, s.workloads[j].ref)
  {
    assert d.workloads[|before| + j] == WorkloadRows(c, s)[j];
  }

  lemma PermissionIs(d: Db, before: seq<WorkloadRow>, c: Counters, s: Snapshot, j: nat, i: nat)
    requires WorkloadsAre(d, before, c, s) && d.routes == RouteRows(c, s) && d.permissions == Flatten(PermissionBlocks(c, s))
    requires j < |s.workloads| && i < |s.workloads[j].permissions| && HasRoute(s, s.workloads[j].permissions[i].routeKey)
    ensures HasPermission(d, s.workloads[j].ref, s.workloads[j].permissions[i])
  {
    var p := s.workloads[j].permissions[i];
    var r := PermissionRow(c.workload + j, NewRouteId(c, s, p.routeKey), p.action);
    InFlatten(PermissionBlocks(c, s), j, i);
    assert PermissionBlocks(c, s)[j][i] == r;
    WorkloadRowIs(d, before, c, s, j);
    RouteIs(d, c, s, p.routeKey);
  }

  lemma CredentialIs(d: Db, before: seq<WorkloadRow>, c: Counters, s: Snapshot, j: nat, i: nat)
    requires WorkloadsAre(d, before, c, s) && d.credentials == Flatten(CredentialBlocks(c, s))
    requires j < |s.workloads| && i < |s.workloads[j].credentials|
    ensures HasCredential(d, s.workloads[j].ref, s.workloads[j].credentials[i])
  {
    var k := s.workloads[j].credentials[i];
    InFlatten(CredentialBlocks(c, s), j, i);
    assert CredentialBlocks(c, s)[j][i] == CredentialRow(c.workload + j, k.name, k.verifier, k.enabled);
    WorkloadRowIs(d, before, c, s, j);
  }

  lemma RouteOfPermission(lib: Library, s: Snapshot, j: nat, i: nat)
    requires Valid(lib, s) && j < |s.workloads| && i < |s.workloads[j].permissions|
    ensures HasRoute(s, s.workloads[j].permissions[i].routeKey)
  {
    assert s.workloads[j] in s.workloads;
    assert ValidWorkload(lib, s, s.workloads[j]);
    assert s.workloads[j].permissions[i] in s.workloads[j].permissions;
  }

  lemma FilledWorkload(lib: Library, d: Db, before: seq<WorkloadRow>, c: Counters, s: Snapshot, j: nat)
    requires Valid(lib, s) && Filled(d, before, c, s) && j < |s.workloads|
    ensures WorkloadMeans(d, s.workloads[j])
  {
    var w := s.workloads[j];
    forall p | p in w.permissions ensures HasPermission(d, w.ref, p) {
      var i :| 0 <= i < |w.permissions| && w.permissions[i] == p;
      RouteOfPermission(lib, s, j, i);
      PermissionIs(d, before, c, s, j, i);
    }
    forall k | k in w.credentials ensures HasCredential(d, w.ref, k) {
      var i :| 0 <= i < |w.credentials| && w.credentials[i] == k;
      CredentialIs(d, before, c, s, j, i);
    }
  }

  lemma FilledNested(lib: Library, d: Db, before: seq<WorkloadRow>, c: Counters, s: Snapshot)
    requires Valid(lib, s) && Filled(d, before, c, s)
    ensures NestedMean(d, s)
  {
    forall w | w in s.workloads ensures WorkloadMeans(d, w) {
      var j :| 0 <= j < |s.workloads| && s.workloads[j] == w;
      FilledWorkload(lib, d, before, c, s, j);
    }
  }

  // ----------------------------------------------------------------------- main result

  ghost predicate RowsMean(d: Db, s: Snapshot) {
    && BotsMean(d, s) && DestinationsMean(d, s) && ConditionalsMean(d, s) && ServicesMean(d, s)
    && SubscriptionsMean(d, s) && RoutesMean(d, s) && NestedMean(d, s)
  }

  lemma FilledMeans(lib: Library, d: Db, before: seq<WorkloadRow>, c: Counters, s: Snapshot)
    requires Valid(lib, s) && Filled(d, before, c, s)
    ensures RowsMean(d, s)
  {
    FilledDestinations(lib, d, before, c, s);
    FilledConditionals(lib, d, before, c, s);
    FilledServices(lib, d, before, c, s);
    FilledSubscriptions(lib, d, before, c, s);
    FilledRoutes(lib, d, before, c, s);
    FilledNested(lib, d, before, c, s);
  }

  /** After a committed restore every row means what the snapshot says, column by column:
      source and target bots, accounts, chats, services, destinations, permissions and
      credentials each refer to the row of that name. */
  lemma RestoredRowsMean(lib: Library, db: Db, s: Snapshot)
    requires Sound(db) && RestoreOutcome(lib, db, s) == Committed
    ensures RowsMean(RestoreConfiguration(lib, db, s), s)
  {
    CommittedFills(lib, db, s);
    FilledMeans(lib, Restored(db, s), db.workloads, db.next, s);
  }

  ghost predicate IdsDiffer(d: Db) {
    && DistinctIds(d.bots, BotId) && DistinctIds(d.accounts, AccountId) && DistinctIds(d.destinations, DestinationId)
    && DistinctIds(d.services, ServiceId) && DistinctIds(d.routes, RouteId)
  }

  lemma FilledIds(lib: Library, d: Db, before: seq<WorkloadRow>, c: Counters, s: Snapshot)
    requires Valid(lib, s) && Filled(d, before, c, s)
    ensures IdsDiffer(d)
  {
    RestoreAllocates(lib, c, s);
    assert A.Ascending(LastBooks(c, s));
  }

  /** The new IDs tell the rows of a table apart, so that each of them is the one named. */
  lemma NewIdsDiffer(lib: Library, db: Db, s: Snapshot)
    requires Sound(db) && RestoreOutcome(lib, db, s) == Committed
    ensures IdsDiffer(RestoreConfiguration(lib, db, s))
  {
    CommittedFills(lib, db, s);
    FilledIds(lib, Restored(db, s), db.workloads, db.next, s);
  }
}
