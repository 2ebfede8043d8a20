/** Business routes and the immutable rows of their revisions, across edits, bot
    rotation and destination migration. Every event is one transaction. */
module Routes {
  import opened Prelude

  /** The columns a revision row keeps. */
  datatype Config = Config(
    displayName: string, account: nat, destination: nat,
    inboundEnabled: bool, inboundTarget: string, backendUrl: string, backendToken: string,
    outboundEnabled: bool, callers: seq<string>, enabled: bool, status: string, validatedAt: string)

  datatype Route = Route(config: Config, revision: nat)

  datatype Account = Account(bot: nat, revision: nat)

  datatype Destination = Destination(account: nat, chat: int, revision: nat)

  /** What an inbound delivery is pinned to. */
  datatype Pin = Pin(route: nat, revision: nat)

  datatype State = State(
    keys: map<string, nat>, routes: map<nat, Route>, revisions: map<Pin, Config>, next: nat,
    accounts: map<nat, Account>, destinations: map<nat, Destination>, deliveries: map<nat, Pin>)

  const EMPTY := State(map[], map[], map[], 0, map[], map[], map[])

  datatype Outcome = ExpectedRequired | NotFound | RevisionConflict | KeyImmutable | Failed | Done

  datatype Event =
    | Insert(key: string, config: Config, fails: bool)
    | Edit(key: string, newKey: string, config: Config, expected: int, fails: bool)
    | AddAccount(account: nat, bot: nat)
    | AddDestination(destination: nat, account: nat, chat: int)
    | SyncBot(bot: nat, changed: bool, fails: bool)                        // a native Bot was edited
    | Rotate(account: nat, expected: int, fails: bool)
    | Migrate(destination: nat, account: nat, chat: int, validatedAt: string, expected: int, fails: bool)
    | Accept(delivery: nat, route: nat)                                    // PrepareInboundDelivery

  /** How a fan-out changes a route it gives a new revision. */
  datatype Change = Keep | Rebind(account: nat, validatedAt: string)

  function Changed(c: Config, change: Change): Config {
    match change
    case Keep => c
    case Rebind(account, validatedAt) => c.(account := account, validatedAt := validatedAt)
  }

  function Bump(s: State, id: nat, config: Config): State
    requires id in s.routes
  {
    var revision := s.routes[id].revision + 1;
    s.(routes := s.routes[id := Route(config, revision)], revisions := s.revisions[Pin(id, revision) := config])
  }

  /** The loop over the affected routes. */
  function BumpAll(s: State, ids: seq<nat>, change: Change): State
    requires forall id :: id in ids ==> id in s.routes
    decreases |ids|
  {
    if ids == [] then s
    else
      var n := |ids| - 1;
      var before := BumpAll(s, ids[..n], change);
      if ids[n] in before.routes then Bump(before, ids[n], Changed(before.routes[ids[n]].config, change)) else before
  }

  /** SELECT id FROM gateway_business_routes WHERE ..., for IDs below n. */
  function OfBot(s: State, bot: nat, n: nat): seq<nat> {
    if n == 0 then []
    else OfBot(s, bot, n - 1) + (if n - 1 in s.routes && OnBot(s, s.routes[n - 1], bot) then [n - 1] else [])
  }

  predicate OnBot(s: State, r: Route, bot: nat) {
    r.config.account in s.accounts && s.accounts[r.config.account].bot == bot
  }

  function OfDestination(s: State, destination: nat, n: nat): seq<nat> {
    if n == 0 then []
    else OfDestination(s, destination, n - 1)
         + (if n - 1 in s.routes && s.routes[n - 1].config.destination == destination then [n - 1] else [])
  }

  lemma {:induction false} OfBotAreRoutes(s: State, bot: nat, n: nat)
    ensures forall id :: id in OfBot(s, bot, n) <==> id < n && id in s.routes && OnBot(s, s.routes[id], bot)
  {
    if n > 0 { OfBotAreRoutes(s, bot, n - 1); }
  }

  lemma {:induction false} OfDestinationAreRoutes(s: State, destination: nat, n: nat)
    ensures forall id :: id in OfDestination(s, destination, n)
              <==> id < n && id in s.routes && s.routes[id].config.destination == destination
  {
    if n > 0 { OfDestinationAreRoutes(s, destination, n - 1); }
  }

  function EditOutcome(s: State, e: Event): Outcome
    requires e.Edit?
  {
    if e.expected <= 0 then ExpectedRequired
    else if e.key !in s.keys || s.keys[e.key] !in s.routes then NotFound
    else if s.routes[s.keys[e.key]].revision != e.expected then RevisionConflict
    else if e.newKey != "" && e.newKey != e.key then KeyImmutable
    else if e.fails then Failed
    else Done
  }

  function RotateOutcome(s: State, account: nat, expected: int, fails: bool): Outcome {
    if expected <= 0 then ExpectedRequired
    else if account !in s.accounts then NotFound
    else if s.accounts[account].revision != expected then RevisionConflict
    else if fails then Failed
    else Done
  }

  function MigrateOutcome(s: State, destination: nat, expected: int, fails: bool): Outcome {
    if expected <= 0 then ExpectedRequired
    else if destination !in s.destinations then NotFound
    else if s.destinations[destination].revision != expected then RevisionConflict
    else if fails then Failed
    else Done
  }

  /** Every alias of the bot gets a new revision. */
  function AliasesBumped(s: State, bot: nat): State {
    s.(accounts := map a | a in s.accounts ::
                     if s.accounts[a].bot == bot then s.accounts[a].(revision := s.accounts[a].revision + 1) else s.accounts[a])
  }

  /** syncBotAccountsTx when something changed or it is forced. */
  function Synced(s: State, bot: nat): State {
    var t := AliasesBumped(s, bot);
    OfBotAreRoutes(t, bot, t.next);
    BumpAll(t, OfBot(t, bot, t.next), Keep)
  }

  function Moved(s: State, destination: nat, account: nat, chat: int): State
    requires destination in s.destinations
  {
    s.(destinations := s.destinations[destination := Destination(account, chat, s.destinations[destination].revision + 1)])
  }

  function Migrated(s: State, destination: nat, account: nat, chat: int, validatedAt: string): State
    requires destination in s.destinations
  {
    var t := Moved(s, destination, account, chat);
    OfDestinationAreRoutes(t, destination, t.next);
    BumpAll(t, OfDestination(t, destination, t.next), Rebind(account, validatedAt))
  }

  function Next(s: State, e: Event): State {
    match e
    case Insert(key, config, fails) =>
      if fails || key in s.keys then s
      else Fresh(s, key, config)
    case Edit(key, _, config, _, _) =>
      if EditOutcome(s, e) == Done then Bump(s, s.keys[key], config) else s
    case AddAccount(account, bot) =>
      if account in s.accounts then s else s.(accounts := s.accounts[account := Account(bot, 1)])
    case AddDestination(destination, account, chat) =>
      if destination in s.destinations then s
      else s.(destinations := s.destinations[destination := Destination(account, chat, 1)])
    case SyncBot(bot, changed, fails) => if changed && !fails then Synced(s, bot) else s
    case Rotate(account, expected, fails) =>
      if RotateOutcome(s, account, expected, fails) == Done then Synced(s, s.accounts[account].bot) else s
    case Migrate(destination, account, chat, validatedAt, expected, fails) =>
      if MigrateOutcome(s, destination, expected, fails) == Done
      then Migrated(s, destination, account, chat, validatedAt) else s
    case Accept(delivery, route) =>
      if delivery in s.deliveries || route !in s.routes then s
      else Accepted(s, delivery, route)
  }

  function Run(s: State, events: seq<Event>): State
    decreases |events|
  {
    if events == [] then s else Next(Run(s, events[..|events| - 1]), events[|events| - 1])
  }

  // ------------------------------------------------------------------ the invariant

  /** Revision rows for exactly 1 to the current revision, the last one current. */
  ghost predicate Complete(s: State, id: nat)
    requires id in s.routes
  {
    && s.routes[id].revision >= 1
    && (forall rev: nat :: Pin(id, rev) in s.revisions <==> 1 <= rev <= s.routes[id].revision)
    && s.revisions[Pin(id, s.routes[id].revision)] == s.routes[id].config
  }

  ghost predicate AllComplete(s: State) {
    forall id :: id in s.routes ==> id < s.next && Complete(s, id)
  }

  predicate Linked(s: State) {
    && (forall p :: p in s.revisions ==> p.route in s.routes)
    && (forall key :: key in s.keys ==> s.keys[key] in s.routes)
    && (forall d :: d in s.deliveries ==> s.deliveries[d] in s.revisions)
  }

  ghost predicate Valid(s: State) {
    AllComplete(s) && Linked(s)
  }

  /** Nothing recorded is ever rewritten. */
  predicate Grown(s: State, t: State) {
    && (forall p :: p in s.revisions ==> p in t.revisions && t.revisions[p] == s.revisions[p])
    && (forall d :: d in s.deliveries ==> d in t.deliveries && t.deliveries[d] == s.deliveries[d])
    && (forall key :: key in s.keys ==> key in t.keys && t.keys[key] == s.keys[key])
    && (forall id :: id in s.routes ==> id in t.routes && s.routes[id].revision <= t.routes[id].revision)
  }

  lemma GrownFurther(s: State, t: State, u: State)
    requires Grown(s, t) && Grown(t, u)
    ensures Grown(s, u)
  {
  }

  /** A route no row of which changes stays complete. */
  lemma StaysComplete(s: State, t: State, id: nat)
    requires id in s.routes && id in t.routes && t.routes[id] == s.routes[id] && Complete(s, id)
    requires forall rev: nat :: Pin(id, rev) in t.revisions <==> Pin(id, rev) in s.revisions
    requires forall p :: p in s.revisions ==> p in t.revisions && t.revisions[p] == s.revisions[p]
    ensures Complete(t, id)
  {
  }

  /** Only route id may have changed, and it is complete. */
  lemma OthersComplete(s: State, t: State, id: nat)
    requires AllComplete(s) && s.next <= t.next && t.routes.Keys == s.routes.Keys + {id}
    requires id < t.next && id in t.routes && Complete(t, id)
    requires forall i :: i in s.routes && i != id ==> t.routes[i] == s.routes[i]
    requires forall i, rev: nat :: i != id ==> (Pin(i, rev) in t.revisions <==> Pin(i, rev) in s.revisions)
    requires forall p :: p in s.revisions ==> p in t.revisions && t.revisions[p] == s.revisions[p]
    ensures AllComplete(t)
  {
    forall i | i in t.routes ensures i < t.next && Complete(t, i) {
      if i != id {
        assert Complete(s, i);
        StaysComplete(s, t, i);
      }
    }
  }

  lemma BumpedIsComplete(s: State, id: nat, config: Config)
    requires id in s.routes && Complete(s, id)
    ensures Complete(Bump(s, id, config), id)
    ensures Grown(s, Bump(s, id, config))
  {
  }

  lemma BumpKeeps(s: State, id: nat, config: Config)
    requires Valid(s) && id in s.routes
    ensures Valid(Bump(s, id, config)) && Grown(s, Bump(s, id, config))
    ensures Bump(s, id, config).routes.Keys == s.routes.Keys
  {
    assert Complete(s, id);
    BumpedIsComplete(s, id, config);
    OthersComplete(s, Bump(s, id, config), id);
    assert Linked(Bump(s, id, config));
  }

  lemma {:induction false} BumpAllKeeps(s: State, ids: seq<nat>, change: Change)
    requires Valid(s) && forall id :: id in ids ==> id in s.routes
    ensures Valid(BumpAll(s, ids, change)) && Grown(s, BumpAll(s, ids, change))
    ensures BumpAll(s, ids, change).routes.Keys == s.routes.Keys
    decreases |ids|
  {
    if ids != [] {
      var n := |ids| - 1;
      var before := BumpAll(s, ids[..n], change);
      BumpAllKeeps(s, ids[..n], change);
      assert ids[n] in ids;
      BumpKeeps(before, ids[n], Changed(before.routes[ids[n]].config, change));
      GrownFurther(s, before, BumpAll(s, ids, change));
    }
  }

  lemma SyncedKeeps(s: State, bot: nat)
    requires Valid(s)
    ensures Valid(Synced(s, bot)) && Grown(s, Synced(s, bot))
  {
    var t := AliasesBumped(s, bot);
    OfBotAreRoutes(t, bot, t.next);
    assert Valid(t) by { SameRoutesValid(s, t); }
    BumpAllKeeps(t, OfBot(t, bot, t.next), Keep);
    GrownFurther(s, t, Synced(s, bot));
  }

  lemma SameRoutesValid(s: State, t: State)
    requires Valid(s) && t.routes == s.routes && t.revisions == s.revisions && t.keys == s.keys && t.next == s.next
    requires t.deliveries == s.deliveries
    ensures Valid(t) && Grown(s, t)
  {
    SameComplete(s, t);
  }

  lemma MigratedKeeps(s: State, destination: nat, account: nat, chat: int, validatedAt: string)
    requires Valid(s) && destination in s.destinations
    ensures Valid(Migrated(s, destination, account, chat, validatedAt))
    ensures Grown(s, Migrated(s, destination, account, chat, validatedAt))
  {
    var t := Moved(s, destination, account, chat);
    var ids := OfDestination(t, destination, t.next);
    OfDestinationAreRoutes(t, destination, t.next);
    SameRoutesValid(s, t);
    BumpAllKeeps(t, ids, Rebind(account, validatedAt));
    GrownFurther(s, t, BumpAll(t, ids, Rebind(account, validatedAt)));
  }

  function Fresh(s: State, key: string, config: Config): State {
    s.(keys := s.keys[key := s.next], routes := s.routes[s.next := Route(config, 1)],
       revisions := s.revisions[Pin(s.next, 1) := config], next := s.next + 1)
  }

  lemma FreshIsComplete(s: State, key: string, config: Config)
    requires s.next !in s.routes && forall p :: p in s.revisions ==> p.route in s.routes
    ensures Complete(Fresh(s, key, config), s.next)
  {
  }

  lemma InsertKeeps(s: State, key: string, config: Config)
    requires Valid(s) && key !in s.keys
    ensures Valid(Fresh(s, key, config)) && Grown(s, Fresh(s, key, config))
  {
    FreshLinks(s, key, config);
    FreshIsComplete(s, key, config);
    OthersComplete(s, Fresh(s, key, config), s.next);
  }

  lemma FreshLinks(s: State, key: string, config: Config)
    requires s.next !in s.routes && Linked(s) && key !in s.keys
    ensures Linked(Fresh(s, key, config)) && Grown(s, Fresh(s, key, config))
  {
  }

  function Accepted(s: State, delivery: nat, route: nat): State
    requires route in s.routes
  {
    s.(deliveries := s.deliveries[delivery := Pin(route, s.routes[route].revision)])
  }

  lemma AcceptKeeps(s: State, delivery: nat, route: nat)
    requires Valid(s) && delivery !in s.deliveries && route in s.routes
    ensures Valid(Accepted(s, delivery, route)) && Grown(s, Accepted(s, delivery, route))
    ensures Pinned(Accepted(s, delivery, route), delivery) == Some(s.routes[route].config)
  {
    var t := Accepted(s, delivery, route);
    SameComplete(s, t);
    PinExists(s, route);
    assert Linked(t);
  }

  lemma PinExists(s: State, route: nat)
    requires AllComplete(s) && route in s.routes
    ensures Pin(route, s.routes[route].revision) in s.revisions
    ensures s.revisions[Pin(route, s.routes[route].revision)] == s.routes[route].config
  {
    assert Complete(s, route);
  }

  lemma SameComplete(s: State, t: State)
    requires AllComplete(s) && t.routes == s.routes && t.revisions == s.revisions && t.next == s.next
    ensures AllComplete(t)
  {
    forall id | id in t.routes ensures id < t.next && Complete(t, id) {
      assert Complete(s, id);
      StaysComplete(s, t, id);
    }
  }

  lemma FanOutKeeps(s: State, e: Event)
    requires Valid(s) && (e.SyncBot? || e.Rotate? || e.Migrate?)
    ensures Valid(Next(s, e)) && Grown(s, Next(s, e))
  {
    match e
    case SyncBot(bot, changed, fails) => if changed && !fails { SyncedKeeps(s, bot); }
    case Rotate(account, expected, fails) =>
      if RotateOutcome(s, account, expected, fails) == Done { SyncedKeeps(s, s.accounts[account].bot); }
    case Migrate(destination, account, chat, validatedAt, expected, fails) =>
      if MigrateOutcome(s, destination, expected, fails) == Done { MigratedKeeps(s, destination, account, chat, validatedAt); }
  }

  lemma StepKeeps(s: State, e: Event)
    requires Valid(s)
    ensures Valid(Next(s, e)) && Grown(s, Next(s, e))
  {
    match e
    case Insert(key, config, fails) => if !fails && key !in s.keys { InsertKeeps(s, key, config); }
    case Edit(key, _, config, _, _) => if EditOutcome(s, e) == Done { BumpKeeps(s, s.keys[key], config); }
    case AddAccount(_, _) => SameRoutesValid(s, Next(s, e));
    case AddDestination(_, _, _) => SameRoutesValid(s, Next(s, e));
    case Accept(delivery, route) =>
      if delivery !in s.deliveries && route in s.routes { AcceptKeeps(s, delivery, route); }
    case _ => FanOutKeeps(s, e);
  }

  lemma {:induction false} RunKeeps(s: State, events: seq<Event>)
    requires Valid(s)
    ensures Valid(Run(s, events)) && Grown(s, Run(s, events))
    decreases |events|
  {
    if events != [] {
      var before := Run(s, events[..|events| - 1]);
      RunKeeps(s, events[..|events| - 1]);
      StepKeeps(before, events[|events| - 1]);
      GrownFurther(s, before, Run(s, events));
    }
  }

  // ------------------------------------------------------------------- main results

  /** In every reachable state each route has revision rows for exactly 1 to its
      current revision, and the last of them is its current configuration. */
  lemma RevisionsAreComplete(events: seq<Event>)
    ensures var s := Run(EMPTY, events); forall id :: id in s.routes ==> Complete(s, id)
  {
    RunKeeps(EMPTY, events);
  }

  /** The backend an accepted delivery is sent to: the joined revision row. */
  function Pinned(s: State, delivery: nat): Option<Config> {
    if delivery in s.deliveries && s.deliveries[delivery] in s.revisions
    then Some(s.revisions[s.deliveries[delivery]]) else None
  }

  /** Whatever happens to the routes later, an accepted delivery keeps the
      configuration that was current when it was accepted. */
  lemma PinnedForEver(before: seq<Event>, delivery: nat, route: nat, after: seq<Event>)
    requires var s := Run(EMPTY, before); delivery !in s.deliveries && route in s.routes
    ensures var s := Run(EMPTY, before);
            Pinned(Run(Next(s, Accept(delivery, route)), after), delivery) == Some(s.routes[route].config)
  {
    RunKeeps(EMPTY, before);
    PinnedFrom(Run(EMPTY, before), delivery, route, after);
  }

  lemma PinnedFrom(s: State, delivery: nat, route: nat, after: seq<Event>)
    requires Valid(s) && delivery !in s.deliveries && route in s.routes
    ensures Pinned(Run(Next(s, Accept(delivery, route)), after), delivery) == Some(s.routes[route].config)
  {
    var t := Accepted(s, delivery, route);
    AcceptKeeps(s, delivery, route);
    RunKeeps(t, after);
    PinnedGrows(t, Run(t, after), delivery);
  }

  lemma PinnedGrows(s: State, t: State, delivery: nat)
    requires Grown(s, t) && Pinned(s, delivery).Some?
    ensures Pinned(t, delivery) == Pinned(s, delivery)
  {
  }

  /** The k-th event is an edit that commits. */
  predicate Commits(s: State, events: seq<Event>, k: nat)
    requires k < |events|
  {
    events[k].Edit? && EditOutcome(Run(s, events[..k]), events[k]) == Done
  }

  lemma {:induction false} RunAppends(s: State, a: seq<Event>, b: seq<Event>)
    ensures Run(s, a + b) == Run(Run(s, a), b)
    decreases |b|
  {
    if b == [] {
      assert a + b == a;
    } else {
      var n := |b| - 1;
      assert (a + b)[..|a + b| - 1] == a + b[..n];
      RunAppends(s, a, b[..n]);
    }
  }

  /** Of all edits of one route with the same expected revision at most one commits. */
  lemma OneEditorCommits(events: seq<Event>, i: nat, j: nat)
    requires i < j < |events| && Commits(EMPTY, events, i) && Commits(EMPTY, events, j)
    ensures events[i].key != events[j].key || events[i].expected != events[j].expected
  {
    RunKeeps(EMPTY, events[..i]);
    RunSplits(EMPTY, events, i, j);
    LaterEdit(Run(EMPTY, events[..i]), events[i], events[i + 1..j], events[j]);
  }

  lemma RunSplits(s: State, events: seq<Event>, i: nat, j: nat)
    requires i < j <= |events|
    ensures Run(s, events[..j]) == Run(Next(Run(s, events[..i]), events[i]), events[i + 1..j])
  {
    assert events[..i + 1][..i] == events[..i];
    assert Run(s, events[..i + 1]) == Next(Run(s, events[..i]), events[i]);
    assert events[..j] == events[..i + 1] + events[i + 1..j];
    RunAppends(s, events[..i + 1], events[i + 1..j]);
  }

  lemma LaterEdit(s: State, first: Event, between: seq<Event>, second: Event)
    requires Valid(s) && first.Edit? && EditOutcome(s, first) == Done
    requires second.Edit? && EditOutcome(Run(Next(s, first), between), second) == Done
    ensures first.key != second.key || first.expected != second.expected
  {
    var t := Next(s, first);
    BumpKeeps(s, s.keys[first.key], first.config);
    RunKeeps(t, between);
    var u := Run(t, between);
    assert t.routes[s.keys[first.key]].revision == first.expected + 1;
    assert u.routes[s.keys[first.key]].revision >= first.expected + 1;
    assert u.keys[first.key] == s.keys[first.key];
  }

  // ------------------------------------------------------------------ the fan-outs

  predicate NoRepeats(ids: seq<nat>) {
    forall i, j :: 0 <= i < j < |ids| ==> ids[i] != ids[j]
  }

  /** A fan-out gives every listed route one new revision with the changed
      configuration, and leaves the others alone. */
  lemma {:induction false} BumpAllIs(s: State, ids: seq<nat>, change: Change)
    requires forall id :: id in ids ==> id in s.routes
    requires NoRepeats(ids)
    ensures var t := BumpAll(s, ids, change);
            && t.routes.Keys == s.routes.Keys
            && forall id :: id in s.routes ==>
                 t.routes[id] == if id in ids then Route(Changed(s.routes[id].config, change), s.routes[id].revision + 1)
                                 else s.routes[id]
    decreases |ids|
  {
    if ids != [] {
      var n := |ids| - 1;
      BumpAllIs(s, ids[..n], change);
      assert ids == ids[..n] + [ids[n]];
      assert ids[n] in ids;
      assert ids[n] !in ids[..n];
    }
  }

  lemma {:induction false} OfDestinationDistinct(s: State, destination: nat, n: nat)
    ensures NoRepeats(OfDestination(s, destination, n))
  {
    if n > 0 {
      OfDestinationDistinct(s, destination, n - 1);
      OfDestinationAreRoutes(s, destination, n - 1);
    }
  }

  /** A migration moves exactly the destination's routes, one revision each, to the
      account the destination now belongs to. */
  lemma MigrationReachesItsRoutes(s: State, destination: nat, account: nat, chat: int, validatedAt: string, id: nat)
    requires destination in s.destinations && id in s.routes && id < s.next
    ensures var t := Migrated(s, destination, account, chat, validatedAt);
            && t.destinations
               == s.destinations[destination := Destination(account, chat, s.destinations[destination].revision + 1)]
            && t.accounts == s.accounts && id in t.routes
            && t.routes[id] == if s.routes[id].config.destination == destination
                               then Route(s.routes[id].config.(account := account, validatedAt := validatedAt),
                                          s.routes[id].revision + 1)
                               else s.routes[id]
  {
    var t := Moved(s, destination, account, chat);
    OfDestinationAreRoutes(t, destination, t.next);
    OfDestinationDistinct(t, destination, t.next);
    BumpAllIs(t, OfDestination(t, destination, t.next), Rebind(account, validatedAt));
    BumpAllRest(t, OfDestination(t, destination, t.next), Rebind(account, validatedAt));
  }

  lemma {:induction false} BumpAllRest(s: State, ids: seq<nat>, change: Change)
    requires forall id :: id in ids ==> id in s.routes
    ensures var t := BumpAll(s, ids, change);
            t.destinations == s.destinations && t.accounts == s.accounts && t.keys == s.keys && t.next == s.next
    decreases |ids|
  {
    if ids != [] { BumpAllRest(s, ids[..|ids| - 1], change); }
  }
}
