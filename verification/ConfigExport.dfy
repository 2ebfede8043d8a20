/** The export as it runs: loops over rows that append to the snapshot, where
    credentials and permissions find their workload through a map of positions. */
module ConfigExport {
  import opened Prelude
  import opened Ordering
  import opened ConfigSnapshot
  import opened ConfigStore
  import T = ConfigRoundTrip
  import V = ConfigValidation

  method Collect<R, U>(rows: seq<R>, convert: R -> U) returns (out: seq<U>)
    ensures out == Map(convert, rows)
  {
    out := [];
    var k := 0;
    while k < |rows|
      invariant 0 <= k <= |rows| && |out| == k
      invariant forall i :: 0 <= i < k ==> out[i] == convert(rows[i])
    {
      out := out + [convert(rows[k])];
      k := k + 1;
    }
  }

  /** The workload positions by reference; references are unique. */
  ghost predicate PositionsOf(rows: seq<WorkloadRow>, positions: map<string, nat>) {
    && (forall ref :: ref in positions <==> exists w :: w in rows && w.ref == ref)
    && (forall ref :: ref in positions ==> positions[ref] < |rows| && rows[positions[ref]].ref == ref)
  }

  /** The unique index on config_ref. */
  predicate UniqueRefs(rows: seq<WorkloadRow>) {
    forall i, j :: 0 <= i < j < |rows| ==> rows[i].ref != rows[j].ref
  }

  method CollectWorkloads(rows: seq<WorkloadRow>) returns (out: seq<Workload>, positions: map<string, nat>)
    ensures |out| == |rows| && PositionsOf(rows, positions)
    ensures forall i :: 0 <= i < |rows| ==> out[i] == Workload(rows[i].ref, rows[i].basics, [], [])
  {
    out, positions := [], map[];
    var k := 0;
    assert rows[..0] == [];
    while k < |rows|
      invariant 0 <= k <= |rows| && |out| == k && PositionsOf(rows[..k], positions)
      invariant forall i :: 0 <= i < k ==> out[i] == Workload(rows[i].ref, rows[i].basics, [], [])
    {
      PositionsStep(rows, k, positions);
      positions := positions[rows[k].ref := k];
      out := out + [Workload(rows[k].ref, rows[k].basics, [], [])];
      k := k + 1;
    }
    assert rows[..k] == rows;
  }

  lemma PositionsStep(rows: seq<WorkloadRow>, k: nat, positions: map<string, nat>)
    requires k < |rows| && PositionsOf(rows[..k], positions)
    ensures PositionsOf(rows[..k + 1], positions[rows[k].ref := k])
  {
    var more, next := rows[..k + 1], positions[rows[k].ref := k];
    assert more == rows[..k] + [rows[k]];
    forall ref ensures ref in next <==> exists w :: w in more && w.ref == ref {
      if ref == rows[k].ref {
        assert rows[k] in more;
      } else if ref in positions {
        var w :| w in rows[..k] && w.ref == ref;
        assert w in more;
      }
    }
  }

  /** The loop over the credential rows; None: a row's workload is missing or reserved. */
  method AttachCredentials(db: Db, rows: seq<WorkloadRow>, positions: map<string, nat>, workloads: seq<Workload>)
    returns (out: Option<seq<Workload>>)
    requires PositionsOf(rows, positions) && UniqueRefs(rows) && |workloads| == |rows|
    requires forall i :: 0 <= i < |rows| ==> workloads[i].credentials == []
    ensures out.Some? <==> forall c :: c in db.credentials ==> WorkloadRef(db, c.workload) in positions
    ensures out.Some? ==> |out.value| == |rows| && forall i :: 0 <= i < |rows| ==>
              out.value[i] == workloads[i].(credentials := Pick(db.credentials, CredentialRef(db), ExportCredential, rows[i].ref))
  {
    var result := workloads;
    var k := 0;
    assert db.credentials[..0] == [];
    while k < |db.credentials|
      invariant 0 <= k <= |db.credentials| && |result| == |rows|
      invariant forall c :: c in db.credentials[..k] ==> WorkloadRef(db, c.workload) in positions
      invariant forall i :: 0 <= i < |rows| ==>
                  result[i] == workloads[i].(credentials := Pick(db.credentials[..k], CredentialRef(db), ExportCredential, rows[i].ref))
    {
      var c := db.credentials[k];
      var ref := WorkloadRef(db, c.workload);
      assert c in db.credentials && db.credentials[..k + 1] == db.credentials[..k] + [c];
      if ref !in positions { return None; }
      PickRound(db.credentials, k, rows, positions, CredentialRef(db), ExportCredential);
      var at := positions[ref];
      result := result[at := result[at].(credentials := result[at].credentials + [ExportCredential(c)])];
      k := k + 1;
    }
    assert db.credentials[..k] == db.credentials;
    return Some(result);
  }

  /** One more row shows up at the position of its workload and nowhere else. */
  lemma PickRound<R, U>(all: seq<R>, k: nat, rows: seq<WorkloadRow>, positions: map<string, nat>,
                        refOf: R -> string, convert: R -> U)
    requires k < |all| && PositionsOf(rows, positions) && UniqueRefs(rows) && refOf(all[k]) in positions
    ensures forall i :: 0 <= i < |rows| ==>
              Pick(all[..k + 1], refOf, convert, rows[i].ref)
              == Pick(all[..k], refOf, convert, rows[i].ref)
                 + if i == positions[refOf(all[k])] then [convert(all[k])] else []
  {
    assert all[..k + 1] == all[..k] + [all[k]];
    forall i | 0 <= i < |rows|
      ensures Pick(all[..k + 1], refOf, convert, rows[i].ref)
              == Pick(all[..k], refOf, convert, rows[i].ref)
                 + if i == positions[refOf(all[k])] then [convert(all[k])] else []
    {
      PickMore(all[..k], all[k], refOf, convert, rows[i].ref);
    }
  }

  lemma PickMore<R, U>(rows: seq<R>, r: R, refOf: R -> string, convert: R -> U, ref: string)
    ensures Pick(rows + [r], refOf, convert, ref)
            == Pick(rows, refOf, convert, ref) + if refOf(r) == ref then [convert(r)] else []
  {
    T.PickConcat(rows, [r], refOf, convert, ref);
    assert [r][1..] == [];
  }

  /** The loop over the permission rows, likewise. */
  method AttachPermissions(db: Db, rows: seq<WorkloadRow>, positions: map<string, nat>, workloads: seq<Workload>)
    returns (out: Option<seq<Workload>>)
    requires PositionsOf(rows, positions) && UniqueRefs(rows) && |workloads| == |rows|
    requires forall i :: 0 <= i < |rows| ==> workloads[i].permissions == []
    ensures out.Some? <==> forall p :: p in db.permissions ==> WorkloadRef(db, p.workload) in positions
    ensures out.Some? ==> |out.value| == |rows| && forall i :: 0 <= i < |rows| ==>
              out.value[i] == workloads[i].(permissions := Pick(db.permissions, PermissionRef(db), ExportPermission(db), rows[i].ref))
  {
    var result := workloads;
    var k := 0;
    assert db.permissions[..0] == [];
    while k < |db.permissions|
      invariant 0 <= k <= |db.permissions| && |result| == |rows|
      invariant forall p :: p in db.permissions[..k] ==> WorkloadRef(db, p.workload) in positions
      invariant forall i :: 0 <= i < |rows| ==>
                  result[i] == workloads[i].(permissions := Pick(db.permissions[..k], PermissionRef(db), ExportPermission(db), rows[i].ref))
    {
      var p := db.permissions[k];
      var ref := WorkloadRef(db, p.workload);
      assert p in db.permissions && db.permissions[..k + 1] == db.permissions[..k] + [p];
      if ref !in positions { return None; }
      PickRound(db.permissions, k, rows, positions, PermissionRef(db), ExportPermission(db));
      var at := positions[ref];
      result := result[at := result[at].(permissions := result[at].permissions + [ExportPermission(db)(p)])];
      k := k + 1;
    }
    assert db.permissions[..k] == db.permissions;
    return Some(result);
  }

  /** The portable workloads with what hangs below them. */
  method ExportWorkloadTables(db: Db) returns (out: Option<seq<Workload>>)
    requires UniqueRefs(Portables(db.workloads))
    ensures out.Some? <==>
              && (forall c :: c in db.credentials ==> exists w :: w in Portables(db.workloads) && w.ref == WorkloadRef(db, c.workload))
              && (forall p :: p in db.permissions ==> exists w :: w in Portables(db.workloads) && w.ref == WorkloadRef(db, p.workload))
    ensures out.Some? ==> out.value == ExportWorkloads(db)
  {
    var rows := Portables(db.workloads);
    var workloads, positions := CollectWorkloads(rows);
    var withCredentials := AttachCredentials(db, rows, positions, workloads);
    if withCredentials.None? { return None; }
    out := AttachPermissions(db, rows, positions, withCredentials.value);
    if out.Some? { assert |out.value| == |ExportWorkloads(db)|; }
  }

  /** Scanning a destination fails where the join finds no bot. */
  method DestinationsJoin(db: Db) returns (ok: bool)
    ensures ok == Scannable(db)
  {
    var k := 0;
    while k < |db.destinations|
      invariant 0 <= k <= |db.destinations|
      invariant forall d :: d in db.destinations[..k] ==> AccountBot(db, d.account).Some?
    {
      var d := db.destinations[k];
      assert d in db.destinations && db.destinations[..k + 1] == db.destinations[..k] + [d];
      if AccountBot(db, d.account).None? { return false; }
      k := k + 1;
    }
    assert db.destinations[..k] == db.destinations;
    return true;
  }

  method CollectDestinations(db: Db) returns (out: seq<Destination>)
    ensures out == ExportDestinations(db)
  {
    out := Collect(db.destinations, r => ExportDestination(db, r));
  }

  method CollectConditionals(db: Db) returns (out: seq<ConditionalRoute>)
    ensures out == ExportConditionals(db)
  {
    out := Collect(db.conditionals, r => ExportConditional(db, r));
  }

  method CollectServices(db: Db) returns (out: seq<NotificationService>)
    ensures out == ExportServices(db)
  {
    out := Collect(db.services, r => ExportService(db, r));
  }

  method CollectSubscriptions(db: Db) returns (out: seq<Subscription>)
    ensures out == ExportSubscriptions(db)
  {
    out := Collect(db.subscriptions, r => ExportSubscription(db, r));
  }

  method CollectRoutes(db: Db) returns (out: seq<BusinessRoute>)
    ensures out == ExportRoutes(db)
  {
    out := Collect(db.routes, r => ExportRoute(db, r));
  }

  method Assemble(db: Db, workloads: seq<Workload>) returns (s: Snapshot)
    requires workloads == ExportWorkloads(db)
    ensures s == Assembled(db)
  {
    var bots := Collect(db.bots, ExportBot);
    var destinations := CollectDestinations(db);
    var conditionals := CollectConditionals(db);
    var services := CollectServices(db);
    var subscriptions := CollectSubscriptions(db);
    var routes := CollectRoutes(db);
    return Snapshot(1, SortBy(bots, BotKey), SortBy(destinations, DestinationKey), conditionals, services, subscriptions,
                    routes, workloads);
  }

  /** exportConfigurationTx. */
  method ExportConfiguration(lib: Library, db: Db) returns (out: Option<Snapshot>)
    requires UniqueRefs(Portables(db.workloads))
    ensures out == Export(lib, db)
  {
    var joined := DestinationsJoin(db);
    if !joined { return None; }
    var workloads := ExportWorkloadTables(db);
    if workloads.None? { return None; }
    var s := Assemble(db, workloads.value);
    var valid := V.Validate(lib, s);
    return if valid then Some(s) else None;
  }
}
