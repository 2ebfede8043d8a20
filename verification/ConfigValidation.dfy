/** Validate as it runs: loops over the collections that fill maps of what was seen.
    Only whether it fails is modelled, not the path of the first field error. */
module ConfigValidation {
  import opened Prelude
  import opened Ordering
  import opened ConfigSnapshot

  /** The map a loop over records with unique keys has filled after n of them. */
  function SeenKeys<T>(s: seq<T>, key: T -> Key, n: nat): set<Key>
    requires n <= |s|
  {
    if n == 0 then {} else SeenKeys(s, key, n - 1) + {key(s[n - 1])}
  }

  /** None of the first n records was seen before. */
  predicate AllNew<T>(s: seq<T>, key: T -> Key, n: nat)
    requires n <= |s|
  {
    n == 0 || (AllNew(s, key, n - 1) && key(s[n - 1]) !in SeenKeys(s, key, n - 1))
  }

  lemma {:induction false} SeenKeysAre<T>(s: seq<T>, key: T -> Key, n: nat)
    requires n <= |s|
    ensures forall k :: k in SeenKeys(s, key, n) <==> exists i :: 0 <= i < n && key(s[i]) == k
  {
    if n > 0 {
      SeenKeysAre(s, key, n - 1);
      forall k ensures k in SeenKeys(s, key, n) <==> exists i :: 0 <= i < n && key(s[i]) == k {
        if k in SeenKeys(s, key, n - 1) {
          var i :| 0 <= i < n - 1 && key(s[i]) == k;
          assert 0 <= i < n;
        }
        if k == key(s[n - 1]) { assert 0 <= n - 1 < n; }
      }
    }
  }

  lemma {:induction false} AllNewIsDistinct<T>(s: seq<T>, key: T -> Key, n: nat)
    requires n <= |s|
    ensures AllNew(s, key, n) <==> forall i, j :: 0 <= i < j < n ==> key(s[i]) != key(s[j])
  {
    if n > 0 {
      AllNewIsDistinct(s, key, n - 1);
      SeenKeysAre(s, key, n - 1);
    }
  }

  /** A loop that came to n saw no key twice if there is none twice; at the end it knows. */
  lemma NewSoFar<T>(s: seq<T>, key: T -> Key, n: nat)
    requires n <= |s|
    ensures Distinct(s, key) ==> AllNew(s, key, n)
    ensures n == |s| && AllNew(s, key, n) ==> Distinct(s, key)
  {
    AllNewIsDistinct(s, key, n);
  }

  /** The first n records pass the checks that concern one record. */
  predicate AllOk<T>(s: seq<T>, ok: T -> bool, n: nat)
    requires n <= |s|
  {
    n == 0 || (AllOk(s, ok, n - 1) && ok(s[n - 1]))
  }

  lemma {:induction false} AllOkAre<T>(s: seq<T>, ok: T -> bool, n: nat)
    requires n <= |s|
    ensures AllOk(s, ok, n) <==> forall i :: 0 <= i < n ==> ok(s[i])
  {
    if n > 0 { AllOkAre(s, ok, n - 1); }
  }

  ghost predicate Every<T(!new)>(s: seq<T>, ok: T -> bool) {
    forall x :: x in s ==> ok(x)
  }

  lemma OkSoFar<T(!new)>(s: seq<T>, ok: T -> bool, n: nat)
    requires n <= |s|
    ensures Every(s, ok) ==> AllOk(s, ok, n)
    ensures n == |s| && AllOk(s, ok, n) ==> Every(s, ok)
  {
    AllOkAre(s, ok, n);
  }

  predicate BotOk(lib: Library, b: Bot) {
    ValidRef(b.ref) && !lib.blank(b.token) && b.settings.pollingTimeout >= 0
  }

  function BotCheck(lib: Library): Bot -> bool {
    b => BotOk(lib, b)
  }

  predicate BotsNew(lib: Library, s: Snapshot, n: nat)
    requires n <= |s.bots|
  {
    AllNew(s.bots, BotKey, n) && AllNew(s.bots, TokenKey, n) && AllOk(s.bots, BotCheck(lib), n)
  }

  lemma BotsSoFar(lib: Library, s: Snapshot, n: nat)
    requires n <= |s.bots|
    ensures ValidBots(lib, s) ==> BotsNew(lib, s, n)
    ensures n == |s.bots| && BotsNew(lib, s, n) ==> ValidBots(lib, s)
  {
    NewSoFar(s.bots, BotKey, n);
    NewSoFar(s.bots, TokenKey, n);
    OkSoFar(s.bots, BotCheck(lib), n);
    assert Every(s.bots, BotCheck(lib)) <==> forall b :: b in s.bots ==> BotOk(lib, b);
  }

  lemma BotsStep(lib: Library, s: Snapshot, i: nat)
    requires i < |s.bots| && BotsNew(lib, s, i)
    ensures var b, refs, tokens := s.bots[i], SeenKeys(s.bots, BotKey, i), SeenKeys(s.bots, TokenKey, i);
            && (BotsNew(lib, s, i + 1) <==> [b.ref] !in refs && [b.token] !in tokens && BotOk(lib, b))
            && SeenKeys(s.bots, BotKey, i + 1) == refs + {[b.ref]}
            && SeenKeys(s.bots, TokenKey, i + 1) == tokens + {[b.token]}
  {
  }

  method ValidateBots(lib: Library, s: Snapshot) returns (ok: bool)
    ensures ok == ValidBots(lib, s)
  {
    var refs: set<Key>, tokens: set<Key> := {}, {};
    var i := 0;
    while i < |s.bots|
      invariant 0 <= i <= |s.bots|
      invariant refs == SeenKeys(s.bots, BotKey, i) && tokens == SeenKeys(s.bots, TokenKey, i)
      invariant BotsNew(lib, s, i)
    {
      var b := s.bots[i];
      BotsStep(lib, s, i);
      BotsSoFar(lib, s, i + 1);
      if !ValidRef(b.ref) || [b.ref] in refs { return false; }
      if lib.blank(b.token) || [b.token] in tokens { return false; }
      if b.settings.pollingTimeout < 0 { return false; }
      refs := refs + {[b.ref]};
      tokens := tokens + {[b.token]};
      i := i + 1;
    }
    BotsSoFar(lib, s, i);
    return true;
  }

  predicate DestinationOk(s: Snapshot, d: Destination) {
    ValidRef(d.ref) && FindBot(s.bots, d.botRef).Some? && d.chatId != 0 && ValidStatus(d.status)
  }

  function DestinationCheck(s: Snapshot): Destination -> bool {
    d => DestinationOk(s, d)
  }

  predicate DestinationsNew(s: Snapshot, n: nat)
    requires n <= |s.destinations|
  {
    AllNew(s.destinations, DestinationKey, n) && AllOk(s.destinations, DestinationCheck(s), n)
  }

  lemma DestinationsSoFar(s: Snapshot, n: nat)
    requires n <= |s.destinations|
    ensures ValidDestinations(s) ==> DestinationsNew(s, n)
    ensures n == |s.destinations| && DestinationsNew(s, n) ==> ValidDestinations(s)
  {
    NewSoFar(s.destinations, DestinationKey, n);
    OkSoFar(s.destinations, DestinationCheck(s), n);
    assert Every(s.destinations, DestinationCheck(s)) <==> forall d :: d in s.destinations ==> DestinationOk(s, d);
  }

  method ValidateDestinations(s: Snapshot) returns (ok: bool)
    ensures ok == ValidDestinations(s)
  {
    var targets: set<Key> := {};
    var i := 0;
    while i < |s.destinations|
      invariant 0 <= i <= |s.destinations|
      invariant targets == SeenKeys(s.destinations, DestinationKey, i) && DestinationsNew(s, i)
    {
      var d := s.destinations[i];
      DestinationsSoFar(s, i + 1);
      if !ValidRef(d.ref) || [d.ref] in targets { return false; }
      if FindBot(s.bots, d.botRef).None? { return false; }
      if d.chatId == 0 { return false; }
      if d.status != "active" && d.status != "disabled" { return false; }
      targets := targets + {[d.ref]};
      i := i + 1;
    }
    DestinationsSoFar(s, i);
    return true;
  }

  predicate ConditionalOk(lib: Library, s: Snapshot, r: ConditionalRoute) {
    && ValidRef(r.ref) && FindBot(s.bots, r.sourceBotRef).Some? && FindBot(s.bots, r.targetBotRef).Some?
    && ValidRule(lib, r.rule)
  }

  function ConditionalCheck(lib: Library, s: Snapshot): ConditionalRoute -> bool {
    r => ConditionalOk(lib, s, r)
  }

  predicate RoutesNew(lib: Library, s: Snapshot, n: nat)
    requires n <= |s.routes|
  {
    AllNew(s.routes, ConditionalKey, n) && AllOk(s.routes, ConditionalCheck(lib, s), n)
  }

  lemma RoutesSoFar(lib: Library, s: Snapshot, n: nat)
    requires n <= |s.routes|
    ensures ValidRoutes(lib, s) ==> RoutesNew(lib, s, n)
    ensures n == |s.routes| && RoutesNew(lib, s, n) ==> ValidRoutes(lib, s)
  {
    NewSoFar(s.routes, ConditionalKey, n);
    OkSoFar(s.routes, ConditionalCheck(lib, s), n);
    assert Every(s.routes, ConditionalCheck(lib, s)) <==> forall r :: r in s.routes ==> ConditionalOk(lib, s, r);
  }

  method ValidateRoutes(lib: Library, s: Snapshot) returns (ok: bool)
    ensures ok == ValidRoutes(lib, s)
  {
    var refs: set<Key> := {};
    var i := 0;
    while i < |s.routes|
      invariant 0 <= i <= |s.routes|
      invariant refs == SeenKeys(s.routes, ConditionalKey, i) && RoutesNew(lib, s, i)
    {
      var r := s.routes[i];
      RoutesSoFar(lib, s, i + 1);
      if !ValidRef(r.ref) || [r.ref] in refs { return false; }
      refs := refs + {[r.ref]};
      if FindBot(s.bots, r.sourceBotRef).None? { return false; }
      if FindBot(s.bots, r.targetBotRef).None? { return false; }
      var ruleOk := RuleOk(lib, r.rule);
      if !ruleOk { return false; }
      i := i + 1;
    }
    RoutesSoFar(lib, s, i);
    return true;
  }

  /** The two switches over condition type and action. */
  method RuleOk(lib: Library, r: Rule) returns (ok: bool)
    ensures ok == ValidRule(lib, r)
  {
    match r.conditionType {
      case "text" => if !lib.compiles(r.conditionValue) { return false; }
      case "user_id" => if ParseInt64(r.conditionValue).None? { return false; }
      case "chat_id" => if ParseInt64(r.conditionValue).None? { return false; }
      case _ => return false;
    }
    return r.action == "forward" || r.action == "copy" || r.action == "drop";
  }

  /** The pairs the first n of some records stand for, and whether none came twice. */
  function SeenPairs<T, P(==)>(s: seq<T>, pair: T -> Option<P>, n: nat): set<P>
    requires n <= |s|
  {
    if n == 0 then {}
    else SeenPairs(s, pair, n - 1) + (match pair(s[n - 1]) case None => {} case Some(p) => {p})
  }

  lemma {:induction false} SeenPairIs<T, P>(s: seq<T>, pair: T -> Option<P>, n: nat, p: P)
    requires n <= |s|
    ensures p in SeenPairs(s, pair, n) <==> exists i :: 0 <= i < n && pair(s[i]).Some? && pair(s[i]).value == p
  {
    if n > 0 {
      SeenPairIs(s, pair, n - 1, p);
      if p in SeenPairs(s, pair, n - 1) {
        var i :| 0 <= i < n - 1 && pair(s[i]).Some? && pair(s[i]).value == p;
        assert 0 <= i < n;
      }
      if pair(s[n - 1]).Some? && pair(s[n - 1]).value == p { assert 0 <= n - 1 < n; }
    }
  }

  predicate PairsNew<T, P(==)>(s: seq<T>, pair: T -> Option<P>, n: nat)
    requires n <= |s|
  {
    n == 0 || (PairsNew(s, pair, n - 1) && (pair(s[n - 1]).Some? ==> pair(s[n - 1]).value !in SeenPairs(s, pair, n - 1)))
  }

  lemma {:induction false} PairsNewIsDistinct<T, P>(s: seq<T>, pair: T -> Option<P>, n: nat)
    requires n <= |s|
    ensures PairsNew(s, pair, n) <==> forall i, j :: 0 <= i < j < n && pair(s[i]).Some? ==> pair(s[i]) != pair(s[j])
  {
    if n > 0 {
      PairsNewIsDistinct(s, pair, n - 1);
      var last := pair(s[n - 1]);
      if last.Some? {
        SeenPairIs(s, pair, n - 1, last.value);
        if last.value in SeenPairs(s, pair, n - 1) {
          var i :| 0 <= i < n - 1 && pair(s[i]).Some? && pair(s[i]).value == last.value;
          assert pair(s[i]) == pair(s[n - 1]);
        }
      }
    }
  }

  lemma PairsSoFar<T, P>(s: seq<T>, pair: T -> Option<P>, n: nat)
    requires n <= |s|
    ensures PairsDiffer(s, pair) ==> PairsNew(s, pair, n)
    ensures n == |s| && PairsNew(s, pair, n) ==> PairsDiffer(s, pair)
  {
    PairsNewIsDistinct(s, pair, n);
  }

  ghost predicate PairsDiffer<T, P>(s: seq<T>, pair: T -> Option<P>) {
    forall i, j :: 0 <= i < j < |s| && pair(s[i]).Some? ==> pair(s[i]) != pair(s[j])
  }

  function RouteCheck(lib: Library, s: Snapshot): BusinessRoute -> bool {
    r => ValidBusinessRoute(lib, s, r)
  }

  function Listening(s: Snapshot): BusinessRoute -> Option<(int, int)> {
    r => Listens(s, r)
  }

  predicate BusinessRoutesNew(lib: Library, s: Snapshot, n: nat)
    requires n <= |s.businessRoutes|
  {
    && AllNew(s.businessRoutes, RouteKey, n) && PairsNew(s.businessRoutes, Listening(s), n)
    && AllOk(s.businessRoutes, RouteCheck(lib, s), n)
  }

  lemma BusinessRoutesSoFar(lib: Library, s: Snapshot, n: nat)
    requires n <= |s.businessRoutes|
    ensures ValidBusinessRoutes(lib, s) ==> BusinessRoutesNew(lib, s, n)
    ensures n == |s.businessRoutes| && BusinessRoutesNew(lib, s, n) ==> ValidBusinessRoutes(lib, s)
  {
    NewSoFar(s.businessRoutes, RouteKey, n);
    PairsSoFar(s.businessRoutes, Listening(s), n);
    OkSoFar(s.businessRoutes, RouteCheck(lib, s), n);
    assert Every(s.businessRoutes, RouteCheck(lib, s)) <==>
      forall r :: r in s.businessRoutes ==> ValidBusinessRoute(lib, s, r);
    assert PairsDiffer(s.businessRoutes, Listening(s)) <==>
      forall i, j :: 0 <= i < j < |s.businessRoutes| && Listens(s, s.businessRoutes[i]).Some? ==>
        Listens(s, s.businessRoutes[i]) != Listens(s, s.businessRoutes[j]);
  }

  lemma BusinessRoutesStep(lib: Library, s: Snapshot, i: nat)
    requires i < |s.businessRoutes| && BusinessRoutesNew(lib, s, i)
    ensures var r, keys := s.businessRoutes[i], SeenKeys(s.businessRoutes, RouteKey, i);
            var inbound := SeenPairs(s.businessRoutes, Listening(s), i);
            && (BusinessRoutesNew(lib, s, i + 1) <==>
                  && [r.routeKey] !in keys && ValidBusinessRoute(lib, s, r)
                  && (Listens(s, r).Some? ==> Listens(s, r).value !in inbound))
            && SeenKeys(s.businessRoutes, RouteKey, i + 1) == keys + {[r.routeKey]}
            && SeenPairs(s.businessRoutes, Listening(s), i + 1)
               == inbound + (match Listens(s, r) case None => {} case Some(target) => {target})
  {
  }

  method ValidateBusinessRoutes(lib: Library, s: Snapshot) returns (ok: bool)
    ensures ok == ValidBusinessRoutes(lib, s)
  {
    var keys: set<Key>, inbound: set<(int, int)> := {}, {};
    var i := 0;
    while i < |s.businessRoutes|
      invariant 0 <= i <= |s.businessRoutes|
      invariant keys == SeenKeys(s.businessRoutes, RouteKey, i)
      invariant inbound == SeenPairs(s.businessRoutes, Listening(s), i)
      invariant BusinessRoutesNew(lib, s, i)
    {
      var r := s.businessRoutes[i];
      BusinessRoutesStep(lib, s, i);
      BusinessRoutesSoFar(lib, s, i + 1);
      if [r.routeKey] in keys { return false; }
      keys := keys + {[r.routeKey]};
      var valid := RouteOk(lib, s, r);
      if !valid { return false; }
      if r.settings.enabled && r.settings.inboundEnabled {
        var target := Listens(s, r).value;
        if target in inbound { return false; }
        inbound := inbound + {target};
      }
      i := i + 1;
    }
    BusinessRoutesSoFar(lib, s, i);
    return true;
  }

  /** The checks of one route that do not depend on the others. */
  method RouteOk(lib: Library, s: Snapshot, r: BusinessRoute) returns (ok: bool)
    ensures ok == ValidBusinessRoute(lib, s, r)
  {
    if !ValidRouteKey(r.routeKey) { return false; }
    if lib.blank(r.settings.displayName) { return false; }
    var bot := FindBot(s.bots, r.botRef);
    if bot.None? { return false; }
    var destination := FindDestination(s.destinations, r.destinationRef);
    if destination.None? || destination.value.botRef != r.botRef { return false; }
    if r.settings.status != "active" && r.settings.status != "disabled" { return false; }
    if r.settings.inboundTarget == "backend" {
      if r.settings.inboundEnabled {
        if !lib.endpoint(r.settings.backendUrl) { return false; }
        if r.settings.healthUrl != "" && !lib.endpoint(r.settings.healthUrl) { return false; }
      }
    } else if r.settings.inboundTarget == "it_manage" {
      if r.settings.backendUrl != "" || r.settings.healthUrl != "" || r.settings.backendToken != "" { return false; }
      if r.settings.inboundEnabled && !r.settings.outboundEnabled { return false; }
    } else {
      return false;
    }
    return !(r.settings.enabled && r.settings.inboundEnabled) || TelegramId(bot.value.token).Some?;
  }

  predicate SubscriptionOk(s: Snapshot, p: Subscription) {
    && ValidRef(p.ref) && HasService(s, p.workloadRef, p.fingerprint)
    && FindDestination(s.destinations, p.destinationRef).Some?
    && (p.active ==> Recipient(s, p).Some?)
  }

  method CheckSubscription(s: Snapshot, p: Subscription) returns (ok: bool)
    ensures ok == SubscriptionOk(s, p)
  {
    if !ValidRef(p.ref) { return false; }
    if !HasService(s, p.workloadRef, p.fingerprint) { return false; }
    if FindDestination(s.destinations, p.destinationRef).None? { return false; }
    return !p.active || Recipient(s, p).Some?;
  }

  function SubscriptionCheck(s: Snapshot): Subscription -> bool {
    p => SubscriptionOk(s, p)
  }

  function Receiving(s: Snapshot): Subscription -> Option<(string, string, int, int)> {
    p => Recipient(s, p)
  }

  predicate SubscriptionsNew(s: Snapshot, n: nat)
    requires n <= |s.subscriptions|
  {
    && AllNew(s.subscriptions, SubscriptionKey, n) && PairsNew(s.subscriptions, Receiving(s), n)
    && AllOk(s.subscriptions, SubscriptionCheck(s), n)
  }

  lemma SubscriptionsSoFar(s: Snapshot, n: nat)
    requires n <= |s.subscriptions|
    ensures ValidSubscriptions(s) ==> SubscriptionsNew(s, n)
    ensures n == |s.subscriptions| && SubscriptionsNew(s, n) ==> ValidSubscriptions(s)
  {
    NewSoFar(s.subscriptions, SubscriptionKey, n);
    PairsSoFar(s.subscriptions, Receiving(s), n);
    OkSoFar(s.subscriptions, SubscriptionCheck(s), n);
    assert Every(s.subscriptions, SubscriptionCheck(s)) <==> forall p :: p in s.subscriptions ==> SubscriptionOk(s, p);
    assert PairsDiffer(s.subscriptions, Receiving(s)) <==>
      forall i, j :: 0 <= i < j < |s.subscriptions| && Recipient(s, s.subscriptions[i]).Some? ==>
        Recipient(s, s.subscriptions[i]) != Recipient(s, s.subscriptions[j]);
  }

  lemma SubscriptionsStep(s: Snapshot, i: nat)
    requires i < |s.subscriptions| && SubscriptionsNew(s, i)
    ensures var p, refs := s.subscriptions[i], SeenKeys(s.subscriptions, SubscriptionKey, i);
            var recipients := SeenPairs(s.subscriptions, Receiving(s), i);
            && (SubscriptionsNew(s, i + 1) <==>
                  && [p.ref] !in refs && SubscriptionOk(s, p)
                  && (Recipient(s, p).Some? ==> Recipient(s, p).value !in recipients))
            && SeenKeys(s.subscriptions, SubscriptionKey, i + 1) == refs + {[p.ref]}
            && SeenPairs(s.subscriptions, Receiving(s), i + 1)
               == recipients + (match Recipient(s, p) case None => {} case Some(recipient) => {recipient})
  {
  }

  /** The last loop of validateNotifications. */
  method ValidateSubscriptions(s: Snapshot) returns (ok: bool)
    ensures ok == ValidSubscriptions(s)
  {
    var refs: set<Key>, recipients: set<(string, string, int, int)> := {}, {};
    var i := 0;
    while i < |s.subscriptions|
      invariant 0 <= i <= |s.subscriptions|
      invariant refs == SeenKeys(s.subscriptions, SubscriptionKey, i)
      invariant recipients == SeenPairs(s.subscriptions, Receiving(s), i)
      invariant SubscriptionsNew(s, i)
    {
      var p := s.subscriptions[i];
      SubscriptionsStep(s, i);
      SubscriptionsSoFar(s, i + 1);
      if [p.ref] in refs { return false; }
      refs := refs + {[p.ref]};
      var fine := CheckSubscription(s, p);
      if !fine { return false; }
      if p.active {
        var recipient := Recipient(s, p).value;
        if recipient in recipients { return false; }
        recipients := recipients + {recipient};
      }
      i := i + 1;
    }
    SubscriptionsSoFar(s, i);
    return true;
  }

  // ---------------------------------------------------------------- workloads

  predicate PermissionOk(s: Snapshot, p: RoutePermission) {
    HasRoute(s, p.routeKey) && ValidAction(p.action)
  }

  function PermissionCheck(s: Snapshot): RoutePermission -> bool {
    p => PermissionOk(s, p)
  }

  predicate PermissionsOk(s: Snapshot, permissions: seq<RoutePermission>) {
    Distinct(permissions, PermissionKey) && forall p :: p in permissions ==> PermissionOk(s, p)
  }

  predicate PermissionsNew(s: Snapshot, permissions: seq<RoutePermission>, n: nat)
    requires n <= |permissions|
  {
    AllNew(permissions, PermissionKey, n) && AllOk(permissions, PermissionCheck(s), n)
  }

  lemma PermissionsSoFar(s: Snapshot, permissions: seq<RoutePermission>, n: nat)
    requires n <= |permissions|
    ensures PermissionsOk(s, permissions) ==> PermissionsNew(s, permissions, n)
    ensures n == |permissions| && PermissionsNew(s, permissions, n) ==> PermissionsOk(s, permissions)
  {
    NewSoFar(permissions, PermissionKey, n);
    OkSoFar(permissions, PermissionCheck(s), n);
    assert Every(permissions, PermissionCheck(s)) <==> forall p :: p in permissions ==> PermissionOk(s, p);
  }

  method ValidatePermissions(s: Snapshot, permissions: seq<RoutePermission>) returns (ok: bool)
    ensures ok == PermissionsOk(s, permissions)
  {
    var seen: set<Key> := {};
    var i := 0;
    while i < |permissions|
      invariant 0 <= i <= |permissions|
      invariant seen == SeenKeys(permissions, PermissionKey, i) && PermissionsNew(s, permissions, i)
    {
      var p := permissions[i];
      PermissionsSoFar(s, permissions, i + 1);
      if !HasRoute(s, p.routeKey) { return false; }
      if !ValidAction(p.action) { return false; }
      if [p.routeKey, p.action] in seen { return false; }
      seen := seen + {[p.routeKey, p.action]};
      i := i + 1;
    }
    PermissionsSoFar(s, permissions, i);
    return true;
  }

  lemma {:induction false} SeenKeysOfLonger<T>(a: seq<T>, b: seq<T>, key: T -> Key, n: nat)
    requires n <= |a|
    ensures SeenKeys(a + b, key, n) == SeenKeys(a, key, n) && AllNew(a + b, key, n) == AllNew(a, key, n)
  {
    if n > 0 { SeenKeysOfLonger(a, b, key, n - 1); }
  }

  lemma {:induction false} NewInFront<T>(s: seq<T>, key: T -> Key, n: nat, m: nat)
    requires n <= m <= |s|
    ensures AllNew(s, key, m) ==> AllNew(s, key, n)
  {
    if n < m { NewInFront(s, key, n, m - 1); }
  }

  lemma {:induction false} OkInFront<T>(s: seq<T>, ok: T -> bool, n: nat, m: nat)
    requires n <= m <= |s|
    ensures AllOk(s, ok, m) ==> AllOk(s, ok, n)
  {
    if n < m { OkInFront(s, ok, n, m - 1); }
  }

  predicate CredentialOk(c: Credential) {
    c.algorithm == "sha256" && |c.verifier| == 64 && LowerHex(c.verifier)
  }

  /** The inner loop over one workload's credentials; before holds the earlier ones. */
  method ValidateCredentials(credentials: seq<Credential>, seen: set<Key>, ghost before: seq<Credential>)
    returns (ok: bool, hashes: set<Key>)
    requires seen == SeenKeys(before, CredentialKey, |before|) && AllNew(before, CredentialKey, |before|)
    ensures var all := before + credentials;
            && (ok <==> AllNew(all, CredentialKey, |all|) && AllOk(credentials, CredentialOk, |credentials|))
            && (ok ==> hashes == SeenKeys(all, CredentialKey, |all|))
  {
    hashes := seen;
    ghost var all, b := before + credentials, |before|;
    SeenKeysOfLonger(before, credentials, CredentialKey, b);
    var i := 0;
    while i < |credentials|
      invariant 0 <= i <= |credentials|
      invariant hashes == SeenKeys(all, CredentialKey, b + i) && AllNew(all, CredentialKey, b + i)
      invariant AllOk(credentials, CredentialOk, i)
    {
      var c := credentials[i];
      assert all[b + i] == c;
      NewInFront(all, CredentialKey, b + i + 1, |all|);
      OkInFront(credentials, CredentialOk, i + 1, |credentials|);
      if c.algorithm != "sha256" { return false, hashes; }
      if |c.verifier| != 64 || !LowerHex(c.verifier) { return false, hashes; }
      if [c.verifier] in hashes { return false, hashes; }
      hashes := hashes + {[c.verifier]};
      i := i + 1;
    }
    return true, hashes;
  }

  /** The credentials of the first n workloads, in order. */
  function CredentialsOf(workloads: seq<Workload>, n: nat): seq<Credential>
    requires n <= |workloads|
  {
    if n == 0 then [] else CredentialsOf(workloads, n - 1) + workloads[n - 1].credentials
  }

  lemma {:induction false} CredentialsSplit(workloads: seq<Workload>, n: nat)
    requires n <= |workloads|
    ensures AllCredentials(workloads) == CredentialsOf(workloads, n) + AllCredentials(workloads[n..])
  {
    if n == 0 {
      assert workloads[0..] == workloads;
    } else {
      var front, own, rest := CredentialsOf(workloads, n - 1), workloads[n - 1].credentials, AllCredentials(workloads[n..]);
      CredentialsSplit(workloads, n - 1);
      assert workloads[n - 1..][1..] == workloads[n..];
      assert front + (own + rest) == (front + own) + rest;
    }
  }

  /** The checks of one workload before its credentials. */
  predicate WorkloadOk(lib: Library, s: Snapshot, w: Workload) {
    && ValidRef(w.ref) && !lib.blank(w.basics.name) && ValidStatus(w.basics.status)
    && PermissionsOk(s, w.permissions)
  }

  function WorkloadCheck(lib: Library, s: Snapshot): Workload -> bool {
    w => WorkloadOk(lib, s, w) && AllOk(w.credentials, CredentialOk, |w.credentials|)
  }

  lemma WorkloadChecked(lib: Library, s: Snapshot, w: Workload)
    ensures ValidWorkload(lib, s, w) <==> WorkloadCheck(lib, s)(w)
  {
    OkSoFar(w.credentials, CredentialOk, |w.credentials|);
    assert Every(w.credentials, CredentialOk) <==> forall c :: c in w.credentials ==> CredentialOk(c);
  }

  method CheckWorkload(lib: Library, s: Snapshot, w: Workload) returns (ok: bool)
    ensures ok == WorkloadOk(lib, s, w)
  {
    if !ValidRef(w.ref) || lib.blank(w.basics.name) { return false; }
    if w.basics.status != "active" && w.basics.status != "disabled" { return false; }
    ok := ValidatePermissions(s, w.permissions);
  }

  predicate WorkloadsNew(lib: Library, s: Snapshot, n: nat)
    requires n <= |s.workloads|
  {
    && AllNew(s.workloads, WorkloadKey, n) && AllNew(s.workloads, WorkloadNameKey, n)
    && AllNew(CredentialsOf(s.workloads, n), CredentialKey, |CredentialsOf(s.workloads, n)|)
    && AllOk(s.workloads, WorkloadCheck(lib, s), n)
  }

  lemma WorkloadsSoFar(lib: Library, s: Snapshot, n: nat)
    requires n <= |s.workloads|
    ensures ValidWorkloads(lib, s) ==> WorkloadsNew(lib, s, n)
    ensures n == |s.workloads| && WorkloadsNew(lib, s, n) ==> ValidWorkloads(lib, s)
  {
    NewSoFar(s.workloads, WorkloadKey, n);
    NewSoFar(s.workloads, WorkloadNameKey, n);
    OkSoFar(s.workloads, WorkloadCheck(lib, s), n);
    CredentialsNewSoFar(s, n);
    forall w ensures ValidWorkload(lib, s, w) <==> WorkloadCheck(lib, s)(w) { WorkloadChecked(lib, s, w); }
    assert Every(s.workloads, WorkloadCheck(lib, s)) <==> forall w :: w in s.workloads ==> ValidWorkload(lib, s, w);
  }

  lemma CredentialsNewSoFar(s: Snapshot, n: nat)
    requires n <= |s.workloads|
    ensures var front := CredentialsOf(s.workloads, n);
            && (Distinct(AllCredentials(s.workloads), CredentialKey) ==> AllNew(front, CredentialKey, |front|))
            && (n == |s.workloads| && AllNew(front, CredentialKey, |front|) ==>
                  Distinct(AllCredentials(s.workloads), CredentialKey))
  {
    var front, rest := CredentialsOf(s.workloads, n), AllCredentials(s.workloads[n..]);
    CredentialsSplit(s.workloads, n);
    NewSoFar(front + rest, CredentialKey, |front|);
    SeenKeysOfLonger(front, rest, CredentialKey, |front|);
  }

  lemma WorkloadsStep(lib: Library, s: Snapshot, i: nat)
    requires i < |s.workloads| && WorkloadsNew(lib, s, i)
    ensures var w, refs := s.workloads[i], SeenKeys(s.workloads, WorkloadKey, i);
            var names, all := SeenKeys(s.workloads, WorkloadNameKey, i), CredentialsOf(s.workloads, i) + w.credentials;
            && (WorkloadsNew(lib, s, i + 1) <==>
                  && [w.ref] !in refs && [w.basics.name] !in names && WorkloadOk(lib, s, w)
                  && AllNew(all, CredentialKey, |all|) && AllOk(w.credentials, CredentialOk, |w.credentials|))
            && SeenKeys(s.workloads, WorkloadKey, i + 1) == refs + {[w.ref]}
            && SeenKeys(s.workloads, WorkloadNameKey, i + 1) == names + {[w.basics.name]}
            && CredentialsOf(s.workloads, i + 1) == all
  {
  }

  /** The first loop of validateNotifications. */
  method ValidateWorkloads(lib: Library, s: Snapshot) returns (ok: bool)
    ensures ok == ValidWorkloads(lib, s)
  {
    var refs: set<Key>, names: set<Key>, hashes: set<Key> := {}, {}, {};
    var i := 0;
    while i < |s.workloads|
      invariant 0 <= i <= |s.workloads|
      invariant refs == SeenKeys(s.workloads, WorkloadKey, i) && names == SeenKeys(s.workloads, WorkloadNameKey, i)
      invariant hashes == SeenKeys(CredentialsOf(s.workloads, i), CredentialKey, |CredentialsOf(s.workloads, i)|)
      invariant WorkloadsNew(lib, s, i)
    {
      var w := s.workloads[i];
      WorkloadsStep(lib, s, i);
      WorkloadsSoFar(lib, s, i + 1);
      if [w.ref] in refs || [w.basics.name] in names { return false; }
      var fine := CheckWorkload(lib, s, w);
      if !fine { return false; }
      refs, names := refs + {[w.ref]}, names + {[w.basics.name]};
      var more;
      more, hashes := ValidateCredentials(w.credentials, hashes, CredentialsOf(s.workloads, i));
      if !more { return false; }
      i := i + 1;
    }
    WorkloadsSoFar(lib, s, i);
    return true;
  }

  predicate ServiceOk(lib: Library, s: Snapshot, n: NotificationService) {
    HasWorkload(s, n.workloadRef) && lib.serviceLabel(n.fingerprint) && lib.serviceLabel(n.displayName)
  }

  function ServiceCheck(lib: Library, s: Snapshot): NotificationService -> bool {
    n => ServiceOk(lib, s, n)
  }

  predicate ServicesNew(lib: Library, s: Snapshot, n: nat)
    requires n <= |s.services|
  {
    AllNew(s.services, ServiceKey, n) && AllOk(s.services, ServiceCheck(lib, s), n)
  }

  lemma ServicesSoFar(lib: Library, s: Snapshot, n: nat)
    requires n <= |s.services|
    ensures ValidServices(lib, s) ==> ServicesNew(lib, s, n)
    ensures n == |s.services| && ServicesNew(lib, s, n) ==> ValidServices(lib, s)
  {
    NewSoFar(s.services, ServiceKey, n);
    OkSoFar(s.services, ServiceCheck(lib, s), n);
    assert Every(s.services, ServiceCheck(lib, s)) <==> forall m :: m in s.services ==> ServiceOk(lib, s, m);
  }

  lemma ServicesStep(lib: Library, s: Snapshot, i: nat)
    requires i < |s.services| && ServicesNew(lib, s, i)
    ensures var n, services := s.services[i], SeenKeys(s.services, ServiceKey, i);
            && (ServicesNew(lib, s, i + 1) <==> [n.workloadRef, n.fingerprint] !in services && ServiceOk(lib, s, n))
            && SeenKeys(s.services, ServiceKey, i + 1) == services + {[n.workloadRef, n.fingerprint]}
  {
  }

  method ValidateServices(lib: Library, s: Snapshot) returns (ok: bool)
    ensures ok == ValidServices(lib, s)
  {
    var services: set<Key> := {};
    var i := 0;
    while i < |s.services|
      invariant 0 <= i <= |s.services|
      invariant services == SeenKeys(s.services, ServiceKey, i) && ServicesNew(lib, s, i)
    {
      var n := s.services[i];
      ServicesStep(lib, s, i);
      ServicesSoFar(lib, s, i + 1);
      if !HasWorkload(s, n.workloadRef) { return false; }
      if !lib.serviceLabel(n.fingerprint) || [n.workloadRef, n.fingerprint] in services { return false; }
      if !lib.serviceLabel(n.displayName) { return false; }
      services := services + {[n.workloadRef, n.fingerprint]};
      i := i + 1;
    }
    ServicesSoFar(lib, s, i);
    return true;
  }

  method Validate(lib: Library, s: Snapshot) returns (ok: bool)
    ensures ok == Valid(lib, s)
  {
    if s.version != 1 { return false; }
    ok := ValidateBots(lib, s);
    if !ok { return; }
    ok := ValidateDestinations(s);
    if !ok { return; }
    ok := ValidateRoutes(lib, s);
    if !ok { return; }
    ok := ValidateBusinessRoutes(lib, s);
    if !ok { return; }
    ok := ValidateWorkloads(lib, s);
    if !ok { return; }
    ok := ValidateServices(lib, s);
    if !ok { return; }
    ok := ValidateSubscriptions(s);
  }
}
