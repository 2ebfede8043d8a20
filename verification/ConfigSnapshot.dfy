/** The portable configuration snapshot: what Validate demands, and the canonical
    form whose bytes the digest is taken of. */
module ConfigSnapshot {
  import opened Prelude
  import opened Ordering

  datatype BotSettings = BotSettings(
    name: string, username: string, description: string,
    manageEnabled: bool, proxyEnabled: bool, longPollEnabled: bool, disabled: bool,
    backendUrl: string, secretToken: string, pollingTimeout: int, source: string)

  datatype Bot = Bot(ref: string, token: string, settings: BotSettings)

  /** A chat ID's only accepted spelling is the decimal one, so it is the number. */
  datatype Destination = Destination(ref: string, botRef: string, name: string, chatId: int, status: string)

  datatype Rule = Rule(conditionType: string, conditionValue: string, action: string, description: string, enabled: bool)

  datatype ConditionalRoute = ConditionalRoute(
    ref: string, sourceBotRef: string, targetBotRef: string, sourceChat: int, targetChat: int, rule: Rule)

  datatype RoutePermission = RoutePermission(routeKey: string, action: string)

  datatype Credential = Credential(name: string, algorithm: string, verifier: string, enabled: bool)

  datatype WorkloadBasics = WorkloadBasics(name: string, status: string, publish: bool, query: bool)

  datatype Workload = Workload(
    ref: string, basics: WorkloadBasics, permissions: seq<RoutePermission>, credentials: seq<Credential>)

  datatype NotificationService = NotificationService(workloadRef: string, fingerprint: string, displayName: string)

  datatype Subscription = Subscription(
    ref: string, workloadRef: string, fingerprint: string, destinationRef: string, active: bool)

  datatype RouteSettings = RouteSettings(
    displayName: string, inboundTarget: string, inboundEnabled: bool, backendUrl: string, healthUrl: string,
    backendToken: string, outboundEnabled: bool, enabled: bool, status: string)

  datatype BusinessRoute = BusinessRoute(
    routeKey: string, botRef: string, destinationRef: string, settings: RouteSettings, callers: seq<string>)

  datatype Snapshot = Snapshot(
    version: int, bots: seq<Bot>, destinations: seq<Destination>, routes: seq<ConditionalRoute>,
    services: seq<NotificationService>, subscriptions: seq<Subscription>,
    businessRoutes: seq<BusinessRoute>, workloads: seq<Workload>)

  const EMPTY := Snapshot(1, [], [], [], [], [], [], [])

  /** Library calls of Validate: regexp.Compile, url.ParseRequestURI with its checks,
      ValidServiceLabel up to 512 characters, and TrimSpace leaving nothing. */
  datatype Library = Library(compiles: string -> bool, endpoint: string -> bool, serviceLabel: string -> bool, blank: string -> bool)

  function BotKey(b: Bot): Key { [b.ref] }

  function TokenKey(b: Bot): Key { [b.token] }

  function DestinationKey(d: Destination): Key { [d.ref] }

  function ConditionalKey(r: ConditionalRoute): Key { [r.ref] }

  function WorkloadKey(w: Workload): Key { [w.ref] }

  function WorkloadNameKey(w: Workload): Key { [w.basics.name] }

  function PermissionKey(p: RoutePermission): Key { [p.routeKey, p.action] }

  function CredentialKey(c: Credential): Key { [c.verifier] }

  function ServiceKey(n: NotificationService): Key { [n.workloadRef, n.fingerprint] }

  function SubscriptionKey(p: Subscription): Key { [p.ref] }

  function RouteKey(r: BusinessRoute): Key { [r.routeKey] }

  function CallerKey(c: string): Key { [c] }

  // ------------------------------------------------------------------- lexical rules

  predicate RefChar(c: char) {
    'a' <= c <= 'z' || 'A' <= c <= 'Z' || '0' <= c <= '9' || c == '_' || c == '-'
  }

  predicate ValidRef(s: string) {
    1 <= |s| <= 128 && forall c :: c in s ==> RefChar(c)
  }

  predicate ValidRouteKey(s: string) {
    1 <= |s| <= 64 && ('a' <= s[0] <= 'z' || '0' <= s[0] <= '9')
    && forall c :: c in s ==> 'a' <= c <= 'z' || '0' <= c <= '9' || c == '_' || c == '-'
  }

  const MAX_INT64 := 0x7fff_ffff_ffff_ffff

  function Digits(s: string): Option<nat>
    decreases |s|
  {
    if s == [] then Some(0)
    else
      var n, c := |s| - 1, s[|s| - 1];
      match Digits(s[..n])
      case None => None
      case Some(v) => if '0' <= c <= '9' then Some(10 * v + (c as int - '0' as int)) else None
  }

  /** strconv.ParseInt with base 10 and 64 bits. */
  function ParseInt64(s: string): Option<int> {
    var signed := s != [] && (s[0] == '-' || s[0] == '+');
    var body := if signed then s[1..] else s;
    if body == [] then None
    else match Digits(body)
      case None => None
      case Some(v) =>
        var n: int := if signed && s[0] == '-' then 0 - v else v;
        if -MAX_INT64 - 1 <= n <= MAX_INT64 then Some(n) else None
  }

  function CutAtColon(s: string): Option<(string, string)> {
    if s == [] then None
    else if s[0] == ':' then Some(("", s[1..]))
    else match CutAtColon(s[1..])
      case None => None
      case Some(parts) => Some(([s[0]] + parts.0, parts.1))
  }

  /** The numeric Telegram identity in a bot token. */
  function TelegramId(token: string): Option<int> {
    match CutAtColon(token)
    case None => None
    case Some(parts) =>
      match ParseInt64(parts.0)
      case None => None
      case Some(id) => if parts.1 != "" && id > 0 then Some(id) else None
  }

  predicate ValidStatus(s: string) {
    s == "active" || s == "disabled"
  }

  predicate LowerHex(s: string) {
    forall c :: c in s ==> '0' <= c <= '9' || 'a' <= c <= 'f'
  }

  // ----------------------------------------------------------------------- Validate

  function FindBot(bots: seq<Bot>, ref: string): Option<Bot> {
    if bots == [] then None else if bots[0].ref == ref then Some(bots[0]) else FindBot(bots[1..], ref)
  }

  function FindDestination(destinations: seq<Destination>, ref: string): Option<Destination> {
    if destinations == [] then None
    else if destinations[0].ref == ref then Some(destinations[0]) else FindDestination(destinations[1..], ref)
  }

  predicate ValidBots(lib: Library, s: Snapshot) {
    && Distinct(s.bots, BotKey) && Distinct(s.bots, TokenKey)
    && forall b :: b in s.bots ==> ValidRef(b.ref) && !lib.blank(b.token) && b.settings.pollingTimeout >= 0
  }

  predicate ValidDestinations(s: Snapshot) {
    && Distinct(s.destinations, DestinationKey)
    && forall d :: d in s.destinations ==>
         ValidRef(d.ref) && FindBot(s.bots, d.botRef).Some? && d.chatId != 0 && ValidStatus(d.status)
  }

  predicate ValidRule(lib: Library, r: Rule) {
    && (match r.conditionType
        case "text" => lib.compiles(r.conditionValue)
        case "user_id" => ParseInt64(r.conditionValue).Some?
        case "chat_id" => ParseInt64(r.conditionValue).Some?
        case _ => false)
    && (r.action == "forward" || r.action == "copy" || r.action == "drop")
  }

  predicate ValidRoutes(lib: Library, s: Snapshot) {
    && Distinct(s.routes, ConditionalKey)
    && forall r :: r in s.routes ==>
         && ValidRef(r.ref) && FindBot(s.bots, r.sourceBotRef).Some? && FindBot(s.bots, r.targetBotRef).Some?
         && ValidRule(lib, r.rule)
  }

  predicate ValidTarget(lib: Library, r: RouteSettings) {
    match r.inboundTarget
    case "backend" =>
      r.inboundEnabled ==> lib.endpoint(r.backendUrl) && (r.healthUrl == "" || lib.endpoint(r.healthUrl))
    case "it_manage" =>
      r.backendUrl == "" && r.healthUrl == "" && r.backendToken == "" && (r.inboundEnabled ==> r.outboundEnabled)
    case _ => false
  }

  /** The Bot and chat an active inbound route listens to. */
  function Listens(s: Snapshot, r: BusinessRoute): Option<(int, int)> {
    if !(r.settings.enabled && r.settings.inboundEnabled) then None
    else
      var bot, destination := FindBot(s.bots, r.botRef), FindDestination(s.destinations, r.destinationRef);
      if bot.None? || destination.None? || TelegramId(bot.value.token).None? then None
      else Some((TelegramId(bot.value.token).value, destination.value.chatId))
  }

  predicate ValidBusinessRoute(lib: Library, s: Snapshot, r: BusinessRoute) {
    var bot, destination := FindBot(s.bots, r.botRef), FindDestination(s.destinations, r.destinationRef);
    && ValidRouteKey(r.routeKey) && !lib.blank(r.settings.displayName)
    && bot.Some? && destination.Some? && destination.value.botRef == r.botRef
    && ValidStatus(r.settings.status) && ValidTarget(lib, r.settings)
    && (r.settings.enabled && r.settings.inboundEnabled ==> Listens(s, r).Some?)
  }

  predicate ValidBusinessRoutes(lib: Library, s: Snapshot) {
    && Distinct(s.businessRoutes, RouteKey)
    && (forall r :: r in s.businessRoutes ==> ValidBusinessRoute(lib, s, r))
    && (forall i, j :: 0 <= i < j < |s.businessRoutes| && Listens(s, s.businessRoutes[i]).Some? ==>
          Listens(s, s.businessRoutes[i]) != Listens(s, s.businessRoutes[j]))
  }

  predicate HasRoute(s: Snapshot, routeKey: string) {
    exists r :: r in s.businessRoutes && r.routeKey == routeKey
  }

  predicate ValidAction(a: string) {
    a == "messages.send" || a == "callbacks.answer" || a == "deliveries.read"
  }

  predicate ValidWorkload(lib: Library, s: Snapshot, w: Workload) {
    && ValidRef(w.ref) && !lib.blank(w.basics.name) && ValidStatus(w.basics.status)
    && Distinct(w.permissions, PermissionKey)
    && (forall p :: p in w.permissions ==> HasRoute(s, p.routeKey) && ValidAction(p.action))
    && (forall c :: c in w.credentials ==> c.algorithm == "sha256" && |c.verifier| == 64 && LowerHex(c.verifier))
  }

  /** All credentials of all workloads, in order. */
  function AllCredentials(workloads: seq<Workload>): seq<Credential> {
    if workloads == [] then [] else workloads[0].credentials + AllCredentials(workloads[1..])
  }

  predicate ValidWorkloads(lib: Library, s: Snapshot) {
    && Distinct(s.workloads, WorkloadKey) && Distinct(s.workloads, WorkloadNameKey)
    && Distinct(AllCredentials(s.workloads), CredentialKey)
    && forall w :: w in s.workloads ==> ValidWorkload(lib, s, w)
  }

  predicate HasWorkload(s: Snapshot, ref: string) {
    exists w :: w in s.workloads && w.ref == ref
  }

  predicate ValidServices(lib: Library, s: Snapshot) {
    && Distinct(s.services, ServiceKey)
    && forall n :: n in s.services ==>
         HasWorkload(s, n.workloadRef) && lib.serviceLabel(n.fingerprint) && lib.serviceLabel(n.displayName)
  }

  predicate HasService(s: Snapshot, workloadRef: string, fingerprint: string) {
    exists n :: n in s.services && n.workloadRef == workloadRef && n.fingerprint == fingerprint
  }

  /** The service, Bot and chat an active subscription connects. */
  function Recipient(s: Snapshot, p: Subscription): Option<(string, string, int, int)> {
    if !p.active then None
    else
      var destination := FindDestination(s.destinations, p.destinationRef);
      if destination.None? || FindBot(s.bots, destination.value.botRef).None? then None
      else
        var id := TelegramId(FindBot(s.bots, destination.value.botRef).value.token);
        if id.None? then None else Some((p.workloadRef, p.fingerprint, id.value, destination.value.chatId))
  }

  predicate ValidSubscriptions(s: Snapshot) {
    && Distinct(s.subscriptions, SubscriptionKey)
    && (forall p :: p in s.subscriptions ==>
          && ValidRef(p.ref) && HasService(s, p.workloadRef, p.fingerprint)
          && FindDestination(s.destinations, p.destinationRef).Some?
          && (p.active ==> Recipient(s, p).Some?))
    && (forall i, j :: 0 <= i < j < |s.subscriptions| && Recipient(s, s.subscriptions[i]).Some? ==>
          Recipient(s, s.subscriptions[i]) != Recipient(s, s.subscriptions[j]))
  }

  predicate Valid(lib: Library, s: Snapshot) {
    && s.version == 1
    && ValidBots(lib, s) && ValidDestinations(s) && ValidRoutes(lib, s)
    && ValidBusinessRoutes(lib, s) && ValidWorkloads(lib, s) && ValidServices(lib, s) && ValidSubscriptions(s)
  }

  // ---------------------------------------------------------------------- Canonical

  function NormalWorkload(w: Workload): Workload {
    w.(permissions := SortBy(w.permissions, PermissionKey), credentials := SortBy(w.credentials, CredentialKey))
  }

  function NormalRoute(r: BusinessRoute): BusinessRoute {
    r.(callers := SortBy(r.callers, CallerKey))
  }

  /** The snapshot whose JSON is hashed; conditional routes keep their order. */
  function Canonical(s: Snapshot): Snapshot {
    s.(bots := SortBy(s.bots, BotKey),
       destinations := SortBy(s.destinations, DestinationKey),
       services := SortBy(s.services, ServiceKey),
       subscriptions := SortBy(s.subscriptions, SubscriptionKey),
       businessRoutes := SortBy(Map(NormalRoute, s.businessRoutes), RouteKey),
       workloads := SortBy(Map(NormalWorkload, s.workloads), WorkloadKey))
  }

  // ------------------------------------------------- the same up to order, directly

  predicate SameWorkload(w: Workload, v: Workload) {
    && w.ref == v.ref && w.basics == v.basics
    && multiset(w.permissions) == multiset(v.permissions) && multiset(w.credentials) == multiset(v.credentials)
  }

  predicate SameRoute(r: BusinessRoute, q: BusinessRoute) {
    r.(callers := []) == q.(callers := []) && multiset(r.callers) == multiset(q.callers)
  }

  predicate SameWorkloads(a: seq<Workload>, b: seq<Workload>) {
    && (forall w :: w in a ==> exists v :: v in b && SameWorkload(w, v))
    && (forall v :: v in b ==> exists w :: w in a && SameWorkload(w, v))
  }

  predicate SameRoutes(a: seq<BusinessRoute>, b: seq<BusinessRoute>) {
    && (forall r :: r in a ==> exists q :: q in b && SameRoute(r, q))
    && (forall q :: q in b ==> exists r :: r in a && SameRoute(r, q))
  }

  /** Equal up to the order of every collection but the conditional routes. */
  predicate Same(s: Snapshot, t: Snapshot) {
    && s.version == t.version && s.routes == t.routes
    && multiset(s.bots) == multiset(t.bots) && multiset(s.destinations) == multiset(t.destinations)
    && multiset(s.services) == multiset(t.services) && multiset(s.subscriptions) == multiset(t.subscriptions)
    && SameWorkloads(s.workloads, t.workloads) && SameRoutes(s.businessRoutes, t.businessRoutes)
  }
}
