/** What a committed restore means: the export is the snapshot again, a repeat is a
    replay, and any change since is a conflict. */
module ConfigRestore {
  import opened Prelude
  import opened Ordering
  import opened ConfigSnapshot
  import opened ConfigCanonical
  import opened ConfigStore
  import opened ConfigRoundTrip

  // --------------------------------------------- validity does not depend on order

  lemma TwiceIn<T>(s: seq<T>, i: nat, j: nat)
    requires i < j < |s| && s[i] == s[j]
    ensures multiset(s)[s[i]] >= 2
  {
    assert s == s[..j] + s[j..];
    assert s[i] in s[..j] && s[i] in s[j..];
    assert multiset(s) == multiset(s[..j]) + multiset(s[j..]);
  }

  lemma DistinctPermutes<T(!new)>(a: seq<T>, b: seq<T>, key: T -> Key)
    requires Distinct(a, key) && multiset(a) == multiset(b)
    ensures Distinct(b, key)
  {
    DistinctTells(a, key);
    DistinctOnce(a, key);
    SameElements(a, b);
    forall i, j | 0 <= i < j < |b| ensures key(b[i]) != key(b[j]) {
      assert b[i] in b && b[j] in b;
      if b[i] == b[j] { TwiceIn(b, i, j); }
    }
  }

  /** Both searches answer alike in two snapshots. */
  ghost predicate FindsAlike(s: Snapshot, t: Snapshot) {
    && (forall ref :: FindBot(s.bots, ref) == FindBot(t.bots, ref))
    && (forall ref :: FindDestination(s.destinations, ref) == FindDestination(t.destinations, ref))
  }

  lemma SortedFindsBot(bots: seq<Bot>, ref: string)
    requires Distinct(bots, BotKey)
    ensures FindBot(SortBy(bots, BotKey), ref) == FindBot(bots, ref)
  {
    var sorted := SortBy(bots, BotKey);
    SortBySorts(bots, BotKey);
    SameElements(bots, sorted);
    DistinctTells(bots, BotKey);
    FoundBot(bots, ref);
    FoundBot(sorted, ref);
    if FindBot(bots, ref).Some? {
      var b := FindBot(bots, ref).value;
      var i :| 0 <= i < |sorted| && sorted[i] == b;
      assert BotKey(FindBot(sorted, ref).value) == BotKey(b);
    }
    assert FindBot(sorted, ref).Some? ==> FindBot(sorted, ref).value in bots;
  }

  lemma SortedFindsDestination(ds: seq<Destination>, ref: string)
    requires Distinct(ds, DestinationKey)
    ensures FindDestination(SortBy(ds, DestinationKey), ref) == FindDestination(ds, ref)
  {
    var sorted := SortBy(ds, DestinationKey);
    SortBySorts(ds, DestinationKey);
    SameElements(ds, sorted);
    DistinctTells(ds, DestinationKey);
    FoundDestination(ds, ref);
    FoundDestination(sorted, ref);
    if FindDestination(ds, ref).Some? {
      var d := FindDestination(ds, ref).value;
      var i :| 0 <= i < |sorted| && sorted[i] == d;
      assert DestinationKey(FindDestination(sorted, ref).value) == DestinationKey(d);
    }
    assert FindDestination(sorted, ref).Some? ==> FindDestination(sorted, ref).value in ds;
  }

  /** The snapshot as an export lists it. */
  function Listed(s: Snapshot): Snapshot {
    s.(bots := SortBy(s.bots, BotKey), destinations := SortBy(s.destinations, DestinationKey))
  }

  lemma ListedFinds(lib: Library, s: Snapshot)
    requires Valid(lib, s)
    ensures FindsAlike(s, Listed(s))
  {
    forall ref ensures FindBot(s.bots, ref) == FindBot(Listed(s).bots, ref) { SortedFindsBot(s.bots, ref); }
    forall ref ensures FindDestination(s.destinations, ref) == FindDestination(Listed(s).destinations, ref) {
      SortedFindsDestination(s.destinations, ref);
    }
  }

  lemma ListedBots(lib: Library, s: Snapshot)
    requires ValidBots(lib, s)
    ensures ValidBots(lib, Listed(s))
  {
    SortBySorts(s.bots, BotKey);
    SameElements(s.bots, Listed(s).bots);
    DistinctPermutes(s.bots, Listed(s).bots, BotKey);
    DistinctPermutes(s.bots, Listed(s).bots, TokenKey);
  }

  lemma ListedDestinations(s: Snapshot)
    requires ValidDestinations(s) && FindsAlike(s, Listed(s))
    ensures ValidDestinations(Listed(s))
  {
    SortBySorts(s.destinations, DestinationKey);
    SameElements(s.destinations, Listed(s).destinations);
    DistinctPermutes(s.destinations, Listed(s).destinations, DestinationKey);
  }

  lemma ListedRest(lib: Library, s: Snapshot)
    requires FindsAlike(s, Listed(s))
    ensures ValidRoutes(lib, s) ==> ValidRoutes(lib, Listed(s))
    ensures ValidWorkloads(lib, s) ==> ValidWorkloads(lib, Listed(s))
    ensures ValidServices(lib, s) ==> ValidServices(lib, Listed(s))
  {
    var t := Listed(s);
    forall w | w in s.workloads ensures ValidWorkload(lib, s, w) ==> ValidWorkload(lib, t, w) {
      assert forall key :: HasRoute(s, key) == HasRoute(t, key);
    }
    assert forall ref :: HasWorkload(s, ref) == HasWorkload(t, ref);
  }

  lemma ListedBusiness(lib: Library, s: Snapshot)
    requires FindsAlike(s, Listed(s)) && ValidBusinessRoutes(lib, s)
    ensures ValidBusinessRoutes(lib, Listed(s))
  {
    var t := Listed(s);
    forall r ensures Listens(t, r) == Listens(s, r) && ValidBusinessRoute(lib, t, r) == ValidBusinessRoute(lib, s, r) {
      assert FindBot(s.bots, r.botRef) == FindBot(t.bots, r.botRef);
      assert FindDestination(s.destinations, r.destinationRef) == FindDestination(t.destinations, r.destinationRef);
    }
  }

  lemma SameRecipient(s: Snapshot, p: Subscription)
    requires FindsAlike(s, Listed(s))
    ensures Recipient(Listed(s), p) == Recipient(s, p)
  {
    var d := FindDestination(s.destinations, p.destinationRef);
    assert d == FindDestination(Listed(s).destinations, p.destinationRef);
    if d.Some? { assert FindBot(s.bots, d.value.botRef) == FindBot(Listed(s).bots, d.value.botRef); }
  }

  lemma ListedSubscriptions(s: Snapshot)
    requires FindsAlike(s, Listed(s)) && ValidSubscriptions(s)
    ensures ValidSubscriptions(Listed(s))
  {
    var t := Listed(s);
    forall p ensures Recipient(t, p) == Recipient(s, p) { SameRecipient(s, p); }
    forall w, f ensures HasService(s, w, f) == HasService(t, w, f) { }
    forall p | p in t.subscriptions ensures FindDestination(t.destinations, p.destinationRef).Some? {
      assert FindDestination(s.destinations, p.destinationRef) == FindDestination(t.destinations, p.destinationRef);
    }
  }

  lemma ListedIsValid(lib: Library, s: Snapshot)
    requires Valid(lib, s)
    ensures Valid(lib, Listed(s))
  {
    ListedFinds(lib, s);
    ListedBots(lib, s);
    ListedDestinations(s);
    ListedRest(lib, s);
    ListedBusiness(lib, s);
    ListedSubscriptions(s);
  }

  // ------------------------------------------------------------------- the export

  lemma {:induction false} FromBlock<R>(blocks: seq<seq<R>>, r: R) returns (j: nat)
    requires r in Flatten(blocks)
    ensures j < |blocks| && r in blocks[j]
  {
    if r in blocks[0] {
      j := 0;
    } else {
      j := FromBlock(blocks[1..], r);
      j := j + 1;
    }
  }

  lemma CredentialJoins(d: Db, before: seq<WorkloadRow>, c: Counters, s: Snapshot, r: CredentialRow)
    requires WorkloadsAre(d, before, c, s) && Portables(d.workloads) == WorkloadRows(c, s)
    requires r in Flatten(CredentialBlocks(c, s))
    ensures exists w :: w in Portables(d.workloads) && w.ref == WorkloadRef(d, r.workload)
  {
    var j := FromBlock(CredentialBlocks(c, s), r);
    WorkloadBack(d, before, c, s, j);
    assert r.workload == c.workload + j;
    assert WorkloadRows(c, s)[j] in Portables(d.workloads);
  }

  lemma PermissionJoins(d: Db, before: seq<WorkloadRow>, c: Counters, s: Snapshot, r: PermissionRow)
    requires WorkloadsAre(d, before, c, s) && Portables(d.workloads) == WorkloadRows(c, s)
    requires r in Flatten(PermissionBlocks(c, s))
    ensures exists w :: w in Portables(d.workloads) && w.ref == WorkloadRef(d, r.workload)
  {
    var j := FromBlock(PermissionBlocks(c, s), r);
    WorkloadBack(d, before, c, s, j);
    assert r.workload == c.workload + j;
    assert WorkloadRows(c, s)[j] in Portables(d.workloads);
  }

  lemma RestoredJoins(lib: Library, d: Db, before: seq<WorkloadRow>, c: Counters, s: Snapshot)
    requires Valid(lib, s) && Filled(d, before, c, s)
    ensures Joined(d)
  {
    DestinationsBack(lib, d, before, c, s);
    WorkloadsBack(lib, d, before, c, s);
    forall r | r in d.credentials
      ensures exists w :: w in Portables(d.workloads) && w.ref == WorkloadRef(d, r.workload)
    {
      CredentialJoins(d, before, c, s, r);
    }
    forall r | r in d.permissions
      ensures exists w :: w in Portables(d.workloads) && w.ref == WorkloadRef(d, r.workload)
    {
      PermissionJoins(d, before, c, s, r);
    }
  }

  lemma FilledExports(lib: Library, d: Db, before: seq<WorkloadRow>, c: Counters, s: Snapshot)
    requires Valid(lib, s) && Filled(d, before, c, s)
    ensures Export(lib, d) == Some(Listed(s))
  {
    RestoredJoins(lib, d, before, c, s);
    BotsBack(d, before, c, s);
    DestinationsBack(lib, d, before, c, s);
    ConditionalsBack(lib, d, before, c, s);
    ServicesBack(lib, d, before, c, s);
    SubscriptionsBack(lib, d, before, c, s);
    RoutesBack(lib, d, before, c, s);
    WorkloadsBack(lib, d, before, c, s);
    assert Assembled(d) == Listed(s);
    ListedIsValid(lib, s);
  }

  lemma ListedIsCanonicallySame(lib: Library, s: Snapshot)
    requires Valid(lib, s)
    ensures Canonical(Listed(s)) == Canonical(s)
  {
    DistinctTells(s.bots, BotKey);
    DistinctTells(s.destinations, DestinationKey);
    SortTwice(s.bots, BotKey);
    SortTwice(s.destinations, DestinationKey);
  }

  /** Primary keys are distinct. */
  predicate Sound(db: Db) {
    DistinctIds(db.workloads, WorkloadId)
  }

  lemma CommittedFills(lib: Library, db: Db, s: Snapshot)
    requires Sound(db) && RestoreOutcome(lib, db, s) == Committed
    ensures Filled(Restored(db, s), db.workloads, db.next, s)
  {
    UnconfiguredIsBlank(db);
    BlankFills(db, s);
    RestoredFills(WithRows(db, s), Restored(db, s), db.workloads, db.next, s);
  }

  lemma RestoredFills(d: Db, e: Db, before: seq<WorkloadRow>, c: Counters, s: Snapshot)
    requires Filled(d, before, c, s) && e == d.(receipts := e.receipts)
    ensures Filled(e, before, c, s)
  {
  }

  // ------------------------------------------------------------------ main results

  /** A committed restore exports as the snapshot itself: bots and destinations in
      order of their reference, everything else, conditional routes included, as it
      was; so the canonical form and the digest are those of the snapshot. */
  lemma RestoreThenExport(lib: Library, db: Db, s: Snapshot)
    requires Sound(db) && RestoreOutcome(lib, db, s) == Committed
    ensures Export(lib, RestoreConfiguration(lib, db, s)) == Some(Listed(s))
    ensures Listed(s).routes == s.routes && Same(Listed(s), s)
    ensures Canonical(Listed(s)) == Canonical(s)
  {
    CommittedFills(lib, db, s);
    FilledExports(lib, Restored(db, s), db.workloads, db.next, s);
    ListedIsCanonicallySame(lib, s);
    ListedIsValid(lib, s);
    CanonicalTells(lib, Listed(s), s);
  }

  /** Restoring again whatever has the same canonical form changes nothing and
      reports a replay with the first receipt's counts. */
  lemma RestoreAgainReplays(lib: Library, db: Db, s: Snapshot, t: Snapshot)
    requires Sound(db) && RestoreOutcome(lib, db, s) == Committed && Valid(lib, t) && Same(s, t)
    ensures var after := RestoreConfiguration(lib, db, s);
            && RestoreOutcome(lib, after, t) == Replayed(|s.bots|, |s.destinations|)
            && RestoreConfiguration(lib, after, t) == after
  {
    RestoreThenExport(lib, db, s);
    CanonicalTells(lib, s, t);
  }

  /** With a receipt, a restore is a replay exactly while the current configuration
      is the snapshot up to order, and a conflict from the first difference on; in
      both cases nothing changes. */
  lemma ReplayExactlyWhileUnchanged(lib: Library, db: Db, s: Snapshot)
    requires Valid(lib, s) && Canonical(s) in db.receipts && Scannable(db)
    ensures RestoreConfiguration(lib, db, s) == db
    ensures RestoreOutcome(lib, db, s).Replayed? || RestoreOutcome(lib, db, s) == Conflict
    ensures RestoreOutcome(lib, db, s).Replayed? <==> Export(lib, db).Some? && Same(Export(lib, db).value, s)
  {
    if Export(lib, db).Some? { CanonicalTells(lib, Export(lib, db).value, s); }
  }

  /** A restore commits exactly for a valid snapshot without receipt on a database
      that holds nothing but, at most, the adapter's row under another name. */
  lemma CommitsExactlyWhenBlank(lib: Library, db: Db, s: Snapshot)
    requires Sound(db) && Valid(lib, s) && Canonical(s) !in db.receipts
    ensures RestoreOutcome(lib, db, s) == Committed <==> Blank(db) && !Taken(db, s)
  {
    if Blank(db) { BlankExports(lib, db); }
    if RestoreOutcome(lib, db, s) == Committed { UnconfiguredIsBlank(db); }
  }

  lemma BlankExports(lib: Library, db: Db)
    requires Blank(db)
    ensures Export(lib, db) == Some(EMPTY) && Unconfigured(db, EMPTY)
  {
    NoPortables(db.workloads);
    assert Assembled(db) == EMPTY;
  }
}
