/** What a committed change of routes, bots and destinations brings about, and what
    it leaves alone. */
module RouteEffects {
  import opened Prelude
  import opened Routes

  /** Only route id changed: to this configuration, under a new revision. */
  predicate Replaced(s: State, t: State, id: nat, config: Config) {
    && id in s.routes && t.routes == s.routes[id := Route(config, s.routes[id].revision + 1)]
    && t.revisions == s.revisions[Pin(id, s.routes[id].revision + 1) := config]
    && t.keys == s.keys && t.accounts == s.accounts && t.destinations == s.destinations && t.deliveries == s.deliveries
  }

  /** A committed edit makes the submitted configuration the current one, of this route
      alone; every delivery accepted next is pinned to it for ever, and the ones before
      keep theirs. An edit that does not commit changes nothing. */
  lemma EditTakesEffect(before: seq<Event>, e: Event, delivery: nat, after: seq<Event>)
    requires e.Edit?
    ensures var s := Run(EMPTY, before);
            var t := Next(s, e);
            if EditOutcome(s, e) != Done then t == s
            else
              && e.key in s.keys && Replaced(s, t, s.keys[e.key], e.config)
              && (forall d :: d in s.deliveries ==> Pinned(t, d) == Pinned(s, d))
              && (delivery !in s.deliveries ==>
                    Pinned(Run(Next(t, Accept(delivery, s.keys[e.key])), after), delivery) == Some(e.config))
  {
    RunKeeps(EMPTY, before);
    var s := Run(EMPTY, before);
    if EditOutcome(s, e) == Done {
      EditReplaces(s, e);
      CommittedEdit(s, e);
      if delivery !in s.deliveries { PinnedToEdit(s, e, delivery, after); }
    }
  }

  lemma EditReplaces(s: State, e: Event)
    requires e.Edit? && EditOutcome(s, e) == Done
    ensures Replaced(s, Next(s, e), s.keys[e.key], e.config)
  {
  }

  lemma CommittedEdit(s: State, e: Event)
    requires Valid(s) && e.Edit? && EditOutcome(s, e) == Done
    ensures forall d :: d in s.deliveries ==> Pinned(Next(s, e), d) == Pinned(s, d)
  {
    StepKeeps(s, e);
    EarlierPinsStay(s, Next(s, e));
  }

  lemma PinnedToEdit(s: State, e: Event, delivery: nat, after: seq<Event>)
    requires Valid(s) && e.Edit? && EditOutcome(s, e) == Done && delivery !in s.deliveries
    ensures Pinned(Run(Next(Next(s, e), Accept(delivery, s.keys[e.key])), after), delivery) == Some(e.config)
  {
    BumpKeeps(s, s.keys[e.key], e.config);
    PinnedFrom(Next(s, e), delivery, s.keys[e.key], after);
  }

  lemma EarlierPinsStay(s: State, t: State)
    requires Valid(s) && Grown(s, t)
    ensures forall d :: d in s.deliveries ==> Pinned(t, d) == Pinned(s, d)
  {
    forall d | d in s.deliveries ensures Pinned(t, d) == Pinned(s, d) { PinnedGrows(s, t, d); }
  }

  /** A new route starts at revision 1 with the submitted configuration, which every
      delivery accepted next is pinned to; nothing else changes. */
  lemma InsertTakesEffect(before: seq<Event>, key: string, config: Config, delivery: nat, after: seq<Event>)
    requires key !in Run(EMPTY, before).keys
    ensures var s := Run(EMPTY, before);
            var t := Next(s, Insert(key, config, false));
            && s.next !in s.routes && t.keys == s.keys[key := s.next]
            && t.routes == s.routes[s.next := Route(config, 1)] && t.revisions == s.revisions[Pin(s.next, 1) := config]
            && t.accounts == s.accounts && t.destinations == s.destinations && t.deliveries == s.deliveries
            && (delivery !in s.deliveries ==>
                  Pinned(Run(Next(t, Accept(delivery, s.next)), after), delivery) == Some(config))
  {
    var s := Run(EMPTY, before);
    RunKeeps(EMPTY, before);
    InsertKeeps(s, key, config);
    if delivery !in s.deliveries { PinnedFrom(Next(s, Insert(key, config, false)), delivery, s.next, after); }
  }

  lemma {:induction false} OfBotDistinct(s: State, bot: nat, n: nat)
    ensures NoRepeats(OfBot(s, bot, n))
  {
    if n > 0 {
      OfBotDistinct(s, bot, n - 1);
      OfBotAreRoutes(s, bot, n - 1);
    }
  }

  /** A rotation, or an edit of a native bot, gives every alias of the bot one new
      revision and exactly the routes on its accounts one new revision of the same
      configuration; other accounts, routes, keys, destinations and deliveries stay. */
  lemma SyncReachesTheBot(s: State, bot: nat)
    requires Valid(s)
    ensures var t := Synced(s, bot);
            && t.accounts.Keys == s.accounts.Keys && t.routes.Keys == s.routes.Keys
            && (forall a :: a in s.accounts ==>
                  t.accounts[a] == if s.accounts[a].bot == bot then Account(bot, s.accounts[a].revision + 1) else s.accounts[a])
            && (forall id :: id in s.routes ==>
                  t.routes[id] == if OnBot(s, s.routes[id], bot)
                                  then Route(s.routes[id].config, s.routes[id].revision + 1) else s.routes[id])
            && t.keys == s.keys && t.destinations == s.destinations && t.deliveries == s.deliveries
  {
    var t := AliasesBumped(s, bot);
    OfBotAreRoutes(t, bot, t.next);
    OfBotDistinct(t, bot, t.next);
    BumpAllIs(t, OfBot(t, bot, t.next), Keep);
    BumpAllRest(t, OfBot(t, bot, t.next), Keep);
    BumpAllDeliveries(t, OfBot(t, bot, t.next), Keep);
  }

  lemma {:induction false} BumpAllDeliveries(s: State, ids: seq<nat>, change: Change)
    requires forall id :: id in ids ==> id in s.routes
    ensures BumpAll(s, ids, change).deliveries == s.deliveries
    decreases |ids|
  {
    if ids != [] { BumpAllDeliveries(s, ids[..|ids| - 1], change); }
  }

  /** In every run a rotation commits exactly at the expected revision of its account,
      and then reaches the bot behind it. */
  lemma RotationTakesEffect(before: seq<Event>, account: nat, expected: int, fails: bool)
    ensures var s := Run(EMPTY, before);
            var t := Next(s, Rotate(account, expected, fails));
            if !fails && expected > 0 && account in s.accounts && s.accounts[account].revision == expected
            then
              && account in t.accounts && t.accounts[account].revision == expected + 1
              && (forall id :: id in s.routes ==>
                    id in t.routes && t.routes[id].config == s.routes[id].config
                    && t.routes[id].revision == s.routes[id].revision
                       + if OnBot(s, s.routes[id], s.accounts[account].bot) then 1 else 0)
            else t == s
  {
    var s := Run(EMPTY, before);
    RunKeeps(EMPTY, before);
    if account in s.accounts { SyncReachesTheBot(s, s.accounts[account].bot); }
  }

  /** A migration commits exactly at the destination's expected revision; then the
      destination is where it was sent, and its routes, and only they, follow. */
  lemma MigrationTakesEffect(before: seq<Event>, e: Event)
    requires e.Migrate?
    ensures var s := Run(EMPTY, before);
            var t := Next(s, e);
            if !e.fails && e.expected > 0 && e.destination in s.destinations && s.destinations[e.destination].revision == e.expected
            then
              && t.destinations == s.destinations[e.destination := Destination(e.account, e.chat, e.expected + 1)]
              && (forall id :: id in s.routes ==>
                    id in t.routes
                    && t.routes[id] == if s.routes[id].config.destination == e.destination
                                       then Route(s.routes[id].config.(account := e.account, validatedAt := e.validatedAt),
                                                  s.routes[id].revision + 1)
                                       else s.routes[id])
            else t == s
  {
    var s := Run(EMPTY, before);
    RunKeeps(EMPTY, before);
    if MigrateOutcome(s, e.destination, e.expected, e.fails) == Done {
      var t := Next(s, e);
      forall id | id in s.routes
        ensures id in t.routes
          && t.routes[id] == if s.routes[id].config.destination == e.destination
                             then Route(s.routes[id].config.(account := e.account, validatedAt := e.validatedAt),
                                        s.routes[id].revision + 1)
                             else s.routes[id]
      {
        MigrationReachesItsRoutes(s, e.destination, e.account, e.chat, e.validatedAt, id);
      }
      DestinationMoves(s, e);
    }
  }

  lemma DestinationMoves(s: State, e: Event)
    requires e.Migrate? && MigrateOutcome(s, e.destination, e.expected, e.fails) == Done
    ensures Next(s, e).destinations == s.destinations[e.destination := Destination(e.account, e.chat, e.expected + 1)]
  {
    var t := Moved(s, e.destination, e.account, e.chat);
    OfDestinationAreRoutes(t, e.destination, t.next);
    BumpAllRest(t, OfDestination(t, e.destination, t.next), Rebind(e.account, e.validatedAt));
  }
}
