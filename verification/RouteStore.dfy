/** The store methods behind the route events, with their loops over affected rows. */
module RouteStores {
  import opened Prelude
  import opened Routes

  class RouteStore {
    var keys: map<string, nat>
    var routes: map<nat, Route>
    var revisions: map<Pin, Config>
    var next: nat
    var accounts: map<nat, Account>
    var destinations: map<nat, Destination>
    var deliveries: map<nat, Pin>

    constructor ()
      ensures View() == EMPTY && Valid(View())
    {
      keys, routes, revisions, next := map[], map[], map[], 0;
      accounts, destinations, deliveries := map[], map[], map[];
    }

    function View(): State
      reads this
    {
      State(keys, routes, revisions, next, accounts, destinations, deliveries)
    }

    /** insertBusinessRoute. */
    method AddBusinessRoute(key: string, config: Config, fails: bool) returns (id: Option<nat>)
      requires Valid(View())
      modifies this`keys, this`routes, this`revisions, this`next
      ensures View() == Next(old(View()), Insert(key, config, fails)) && Valid(View())
      ensures id == if fails || key in old(keys) then None else Some(old(next))
    {
      if fails || key in keys { return None; }
      InsertKeeps(View(), key, config);
      id := Some(next);
      keys := keys[key := next];
      routes := routes[next := Route(config, 1)];
      revisions := revisions[Pin(next, 1) := config];
      next := next + 1;
    }

    /** The two statements every change of a route ends with. */
    method SaveRevision(id: nat, config: Config)
      requires id in routes
      modifies this`routes, this`revisions
      ensures View() == Bump(old(View()), id, config)
    {
      var revision := routes[id].revision + 1;
      routes := routes[id := Route(config, revision)];
      revisions := revisions[Pin(id, revision) := config];
    }

    method UpdateBusinessRouteExpected(key: string, newKey: string, config: Config, expected: int, fails: bool)
      returns (outcome: Outcome)
      requires Valid(View())
      modifies this`routes, this`revisions
      ensures outcome == EditOutcome(old(View()), Edit(key, newKey, config, expected, fails))
      ensures View() == Next(old(View()), Edit(key, newKey, config, expected, fails)) && Valid(View())
      ensures Grown(old(View()), View())
    {
      if expected <= 0 { return ExpectedRequired; }
      if key !in keys || keys[key] !in routes { return NotFound; }
      var id := keys[key];
      if routes[id].revision != expected { return RevisionConflict; }
      if newKey != "" && newKey != key { return KeyImmutable; }
      if fails { return Failed; }
      BumpKeeps(View(), id, config);
      SaveRevision(id, config);
      return Done;
    }

    /** The loop over the affected routes. */
    method BumpEach(ids: seq<nat>, change: Change)
      requires forall id :: id in ids ==> id in routes
      modifies this`routes, this`revisions
      ensures View() == BumpAll(old(View()), ids, change)
    {
      var k := 0;
      while k < |ids|
        invariant 0 <= k <= |ids|
        invariant View() == BumpAll(old(View()), ids[..k], change)
        invariant old(routes).Keys <= routes.Keys
      {
        assert ids[..k + 1][..k] == ids[..k];
        assert ids[k] in ids;
        SaveRevision(ids[k], Changed(routes[ids[k]].config, change));
        k := k + 1;
      }
      assert ids[..k] == ids;
    }

    /** syncBotAccountsTx. */
    method SyncBotAccounts(bot: nat)
      requires Valid(View())
      modifies this`accounts, this`routes, this`revisions
      ensures View() == Synced(old(View()), bot) && Valid(View()) && Grown(old(View()), View())
    {
      SyncedKeeps(View(), bot);
      accounts := AliasesBumped(View(), bot).accounts;
      var ids := SelectOfBot(bot);
      OfBotAreRoutes(View(), bot, next);
      BumpEach(ids, Keep);
    }

    method SelectOfBot(bot: nat) returns (ids: seq<nat>)
      ensures ids == OfBot(View(), bot, next)
    {
      ids := [];
      var n := 0;
      while n < next
        invariant 0 <= n <= next && ids == OfBot(View(), bot, n)
      {
        if n in routes && routes[n].config.account in accounts && accounts[routes[n].config.account].bot == bot {
          ids := ids + [n];
        }
        n := n + 1;
      }
    }

    method RotateBotAccount(account: nat, expected: int, fails: bool) returns (outcome: Outcome)
      requires Valid(View())
      modifies this`accounts, this`routes, this`revisions
      ensures outcome == RotateOutcome(old(View()), account, expected, fails)
      ensures View() == Next(old(View()), Rotate(account, expected, fails)) && Valid(View())
      ensures Grown(old(View()), View())
    {
      if expected <= 0 { return ExpectedRequired; }
      if account !in accounts { return NotFound; }
      if accounts[account].revision != expected { return RevisionConflict; }
      if fails { return Failed; }
      SyncBotAccounts(accounts[account].bot);
      return Done;
    }

    method SelectOfDestination(destination: nat) returns (ids: seq<nat>)
      ensures ids == OfDestination(View(), destination, next)
    {
      ids := [];
      var n := 0;
      while n < next
        invariant 0 <= n <= next && ids == OfDestination(View(), destination, n)
      {
        if n in routes && routes[n].config.destination == destination {
          ids := ids + [n];
        }
        n := n + 1;
      }
    }

    method MigrateTelegramDestination(destination: nat, account: nat, chat: int, validatedAt: string, expected: int, fails: bool)
      returns (outcome: Outcome)
      requires Valid(View())
      modifies this`destinations, this`routes, this`revisions
      ensures outcome == MigrateOutcome(old(View()), destination, expected, fails)
      ensures View() == Next(old(View()), Migrate(destination, account, chat, validatedAt, expected, fails)) && Valid(View())
      ensures Grown(old(View()), View())
    {
      if expected <= 0 { return ExpectedRequired; }
      if destination !in destinations { return NotFound; }
      if destinations[destination].revision != expected { return RevisionConflict; }
      if fails { return Failed; }
      MigratedKeeps(View(), destination, account, chat, validatedAt);
      destinations := destinations[destination := Destination(account, chat, destinations[destination].revision + 1)];
      var ids := SelectOfDestination(destination);
      OfDestinationAreRoutes(View(), destination, next);
      BumpEach(ids, Rebind(account, validatedAt));
      return Done;
    }

    /** The pinning part of PrepareInboundDelivery. */
    method PinDelivery(delivery: nat, route: nat)
      requires Valid(View()) && delivery !in deliveries && route in routes
      modifies this`deliveries
      ensures View() == Next(old(View()), Accept(delivery, route)) && Valid(View())
      ensures Pinned(View(), delivery) == Some(routes[route].config)
    {
      AcceptKeeps(View(), delivery, route);
      deliveries := deliveries[delivery := Pin(route, routes[route].revision)];
    }
  }
}
