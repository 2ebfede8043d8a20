/** The configuration tables of one database, their export as a snapshot, and the
    restore of a snapshot under fresh local IDs. */
module ConfigStore {
  import opened Prelude
  import opened Ordering
  import opened ConfigSnapshot
  import A = ConfigAccounts

  /** sealSecret and openSecret are inverse. */
  datatype Sealed = Sealed(plain: string)

  datatype BotRow = BotRow(id: int, ref: string, token: Sealed, settings: BotSettings)

  datatype DestinationRow = DestinationRow(id: int, ref: string, account: int, name: string, chat: int, status: string)

  datatype ConditionalRow = ConditionalRow(
    id: int, ref: string, source: int, target: int, sourceChat: int, targetChat: int, rule: Rule)

  datatype WorkloadRow = WorkloadRow(id: int, ref: string, basics: WorkloadBasics)

  datatype CredentialRow = CredentialRow(workload: int, name: string, hash: string, enabled: bool)

  datatype ServiceRow = ServiceRow(id: int, workload: int, fingerprint: string, displayName: string)

  datatype SubscriptionRow = SubscriptionRow(id: int, ref: string, service: int, destination: int, active: bool)

  /** With its row in gateway_backend_health_config. */
  datatype RouteRow = RouteRow(
    id: int, routeKey: string, account: int, destination: int, settings: RouteSettings, callers: seq<string>)

  datatype PermissionRow = PermissionRow(workload: int, route: int, action: string)

  /** The next AUTOINCREMENT value of each table. */
  datatype Counters = Counters(
    bot: nat, account: nat, destination: nat, conditional: nat, workload: nat, service: nat, subscription: nat, route: nat)

  /** Tables list their rows by ascending ID. */
  datatype Db = Db(
    bots: seq<BotRow>, accounts: seq<A.Account>, destinations: seq<DestinationRow>, conditionals: seq<ConditionalRow>,
    workloads: seq<WorkloadRow>, credentials: seq<CredentialRow>, services: seq<ServiceRow>,
    subscriptions: seq<SubscriptionRow>, routes: seq<RouteRow>, permissions: seq<PermissionRow>,
    receipts: map<Snapshot, (nat, nat)>, next: Counters)

  // ------------------------------------------------------------------------ lookups

  function Find<T>(rows: seq<T>, idOf: T -> int, id: int): Option<T> {
    if rows == [] then None else if idOf(rows[0]) == id then Some(rows[0]) else Find(rows[1..], idOf, id)
  }

  function BotId(r: BotRow): int { r.id }

  function AccountId(r: A.Account): int { r.id }

  function DestinationId(r: DestinationRow): int { r.id }

  function WorkloadId(r: WorkloadRow): int { r.id }

  function ServiceId(r: ServiceRow): int { r.id }

  function RouteId(r: RouteRow): int { r.id }

  /** COALESCE(b.config_ref,'') over LEFT JOIN bots. */
  function BotRef(db: Db, id: int): string {
    match Find(db.bots, BotId, id) case None => "" case Some(b) => b.ref
  }

  function AccountBot(db: Db, account: int): Option<string> {
    match Find(db.accounts, AccountId, account)
    case None => None
    case Some(a) => match Find(db.bots, BotId, a.bot) case None => None case Some(b) => Some(b.ref)
  }

  function WorkloadRef(db: Db, id: int): string {
    match Find(db.workloads, WorkloadId, id) case None => "" case Some(w) => w.ref
  }

  const ADAPTER_ID := -1234
  const ADAPTER_NAME := "Embedded Gateway Adapter"

  /** Everything but the pristine row of the embedded adapter. */
  predicate Portable(w: WorkloadRow) {
    !(w.id == ADAPTER_ID && w.basics == WorkloadBasics(ADAPTER_NAME, "active", false, false))
  }

  function Portables(rows: seq<WorkloadRow>): seq<WorkloadRow> {
    if rows == [] then [] else (if Portable(rows[0]) then [rows[0]] else []) + Portables(rows[1..])
  }

  // ------------------------------------------------------------------------- export

  function ExportBot(r: BotRow): Bot {
    Bot(r.ref, r.token.plain, r.settings)
  }

  function ExportDestination(db: Db, r: DestinationRow): Destination {
    Destination(r.ref, match AccountBot(db, r.account) case None => "" case Some(ref) => ref, r.name, r.chat, r.status)
  }

  function ExportConditional(db: Db, r: ConditionalRow): ConditionalRoute {
    ConditionalRoute(r.ref, BotRef(db, r.source), BotRef(db, r.target), r.sourceChat, r.targetChat, r.rule)
  }

  function ExportCredential(r: CredentialRow): Credential {
    Credential(r.name, "sha256", r.hash, r.enabled)
  }

  /** The rows joined to one reference, converted, in order. */
  function Pick<R, T>(rows: seq<R>, refOf: R -> string, convert: R -> T, ref: string): seq<T> {
    if rows == [] then []
    else (if refOf(rows[0]) == ref then [convert(rows[0])] else []) + Pick(rows[1..], refOf, convert, ref)
  }

  function KeyOfRoute(db: Db, id: int): string {
    match Find(db.routes, RouteId, id) case None => "" case Some(r) => r.routeKey
  }

  function CredentialRef(db: Db): CredentialRow -> string {
    (r: CredentialRow) => WorkloadRef(db, r.workload)
  }

  function PermissionRef(db: Db): PermissionRow -> string {
    (r: PermissionRow) => WorkloadRef(db, r.workload)
  }

  function ExportPermission(db: Db): PermissionRow -> RoutePermission {
    (r: PermissionRow) => RoutePermission(KeyOfRoute(db, r.route), r.action)
  }

  function ExportWorkload(db: Db, r: WorkloadRow): Workload {
    Workload(r.ref, r.basics, Pick(db.permissions, PermissionRef(db), ExportPermission(db), r.ref),
             Pick(db.credentials, CredentialRef(db), ExportCredential, r.ref))
  }

  function ExportService(db: Db, r: ServiceRow): NotificationService {
    NotificationService(WorkloadRef(db, r.workload), r.fingerprint, r.displayName)
  }

  function ExportSubscription(db: Db, r: SubscriptionRow): Subscription {
    var service := Find(db.services, ServiceId, r.service);
    var destination := Find(db.destinations, DestinationId, r.destination);
    Subscription(r.ref,
                 if service.None? then "" else WorkloadRef(db, service.value.workload),
                 if service.None? then "" else service.value.fingerprint,
                 if destination.None? then "" else destination.value.ref,
                 r.active)
  }

  function ExportRoute(db: Db, r: RouteRow): BusinessRoute {
    var destination := Find(db.destinations, DestinationId, r.destination);
    BusinessRoute(r.routeKey, match AccountBot(db, r.account) case None => "" case Some(ref) => ref,
                  if destination.None? || destination.value.account != r.account then "" else destination.value.ref,
                  r.settings, r.callers)
  }

  function ExportDestinations(db: Db): seq<Destination> {
    Map(r => ExportDestination(db, r), db.destinations)
  }

  function ExportConditionals(db: Db): seq<ConditionalRoute> {
    Map(r => ExportConditional(db, r), db.conditionals)
  }

  function ExportServices(db: Db): seq<NotificationService> {
    Map(r => ExportService(db, r), db.services)
  }

  function ExportSubscriptions(db: Db): seq<Subscription> {
    Map(r => ExportSubscription(db, r), db.subscriptions)
  }

  function ExportRoutes(db: Db): seq<BusinessRoute> {
    Map(r => ExportRoute(db, r), db.routes)
  }

  function ExportWorkloads(db: Db): seq<Workload> {
    Map(r => ExportWorkload(db, r), Portables(db.workloads))
  }

  /** The rows as they are scanned; only bots and destinations come in order of
      their reference, conditional routes in order of their ID. */
  function Assembled(db: Db): Snapshot {
    Snapshot(1, SortBy(Map(ExportBot, db.bots), BotKey), SortBy(ExportDestinations(db), DestinationKey),
             ExportConditionals(db), ExportServices(db), ExportSubscriptions(db), ExportRoutes(db), ExportWorkloads(db))
  }

  /** A destination without a bot cannot even be scanned. */
  predicate Scannable(db: Db) {
    forall d :: d in db.destinations ==> AccountBot(db, d.account).Some?
  }

  /** Every join the export relies on finds a row. */
  predicate Joined(db: Db) {
    && Scannable(db)
    && (forall c :: c in db.credentials ==>
          exists w :: w in Portables(db.workloads) && w.ref == WorkloadRef(db, c.workload))
    && (forall p :: p in db.permissions ==>
          exists w :: w in Portables(db.workloads) && w.ref == WorkloadRef(db, p.workload))
  }

  /** None: the export fails. */
  function Export(lib: Library, db: Db): Option<Snapshot> {
    if Joined(db) && Valid(lib, Assembled(db)) then Some(Assembled(db)) else None
  }

  // ------------------------------------------------------------------------ restore

  /** The position of the record with this key; keys are known to occur. */
  function Index<T>(s: seq<T>, key: T -> Key, k: Key): nat {
    if s == [] || key(s[0]) == k then 0 else 1 + Index(s[1..], key, k)
  }

  function NewBotId(c: Counters, s: Snapshot, ref: string): nat {
    c.bot + Index(s.bots, BotKey, [ref])
  }

  function NewWorkloadId(c: Counters, s: Snapshot, ref: string): nat {
    c.workload + Index(s.workloads, WorkloadKey, [ref])
  }

  function NewDestinationId(c: Counters, s: Snapshot, ref: string): nat {
    c.destination + Index(s.destinations, DestinationKey, [ref])
  }

  function NewServiceId(c: Counters, s: Snapshot, workloadRef: string, fingerprint: string): nat {
    c.service + Index(s.services, ServiceKey, [workloadRef, fingerprint])
  }

  function NewRouteId(c: Counters, s: Snapshot, routeKey: string): nat {
    c.route + Index(s.businessRoutes, RouteKey, [routeKey])
  }

  function BotRows(c: Counters, s: Snapshot): seq<BotRow> {
    seq(|s.bots|, i requires 0 <= i < |s.bots| =>
      BotRow(c.bot + i, s.bots[i].ref, Sealed(s.bots[i].token), s.bots[i].settings))
  }

  /** ensureGatewayAccountTx once per bot. */
  function FirstBooks(c: Counters, s: Snapshot): A.Books {
    A.Books(seq(|s.bots|, i requires 0 <= i < |s.bots| => A.Account(c.account + i, c.bot + i)), [], c.account + |s.bots|)
  }

  function Pairs(c: Counters, s: Snapshot): seq<(nat, int)> {
    seq(|s.destinations|, i requires 0 <= i < |s.destinations| =>
      (NewBotId(c, s, s.destinations[i].botRef), s.destinations[i].chatId))
  }

  function LastBooks(c: Counters, s: Snapshot): A.Books {
    A.PlaceAll(FirstBooks(c, s), Pairs(c, s))
  }

  /** The account the k-th destination was placed on. */
  function AccountOf(c: Counters, s: Snapshot, k: nat): nat {
    if k < |LastBooks(c, s).placed| then LastBooks(c, s).placed[k].account else 0
  }

  function DestinationRows(c: Counters, s: Snapshot): seq<DestinationRow> {
    seq(|s.destinations|, i requires 0 <= i < |s.destinations| =>
      var d := s.destinations[i];
      DestinationRow(c.destination + i, d.ref, AccountOf(c, s, i), d.name, d.chatId, d.status))
  }

  function ConditionalRows(c: Counters, s: Snapshot): seq<ConditionalRow> {
    seq(|s.routes|, i requires 0 <= i < |s.routes| =>
      var r := s.routes[i];
      ConditionalRow(c.conditional + i, r.ref, NewBotId(c, s, r.sourceBotRef), NewBotId(c, s, r.targetBotRef),
                     r.sourceChat, r.targetChat, r.rule))
  }

  function WorkloadRows(c: Counters, s: Snapshot): seq<WorkloadRow> {
    seq(|s.workloads|, i requires 0 <= i < |s.workloads| =>
      WorkloadRow(c.workload + i, s.workloads[i].ref, s.workloads[i].basics))
  }

  function Flatten<R>(blocks: seq<seq<R>>): seq<R> {
    if blocks == [] then [] else blocks[0] + Flatten(blocks[1..])
  }

  function CredentialRowsOf(id: int, credentials: seq<Credential>): seq<CredentialRow> {
    seq(|credentials|, i requires 0 <= i < |credentials| =>
      CredentialRow(id, credentials[i].name, credentials[i].verifier, credentials[i].enabled))
  }

  /** One block per workload. */
  function CredentialBlocks(c: Counters, s: Snapshot): seq<seq<CredentialRow>> {
    seq(|s.workloads|, k requires 0 <= k < |s.workloads| => CredentialRowsOf(c.workload + k, s.workloads[k].credentials))
  }

  function ServiceRows(c: Counters, s: Snapshot): seq<ServiceRow> {
    seq(|s.services|, i requires 0 <= i < |s.services| =>
      var n := s.services[i];
      ServiceRow(c.service + i, NewWorkloadId(c, s, n.workloadRef), n.fingerprint, n.displayName))
  }

  function SubscriptionRows(c: Counters, s: Snapshot): seq<SubscriptionRow> {
    seq(|s.subscriptions|, i requires 0 <= i < |s.subscriptions| =>
      var p := s.subscriptions[i];
      SubscriptionRow(c.subscription + i, p.ref, NewServiceId(c, s, p.workloadRef, p.fingerprint),
                      NewDestinationId(c, s, p.destinationRef), p.active))
  }

  function RouteRows(c: Counters, s: Snapshot): seq<RouteRow> {
    seq(|s.businessRoutes|, i requires 0 <= i < |s.businessRoutes| =>
      var r := s.businessRoutes[i];
      RouteRow(c.route + i, r.routeKey, AccountOf(c, s, Index(s.destinations, DestinationKey, [r.destinationRef])),
               NewDestinationId(c, s, r.destinationRef), r.settings, r.callers))
  }

  function PermissionRowsOf(c: Counters, s: Snapshot, id: int, permissions: seq<RoutePermission>): seq<PermissionRow> {
    seq(|permissions|, i requires 0 <= i < |permissions| =>
      PermissionRow(id, NewRouteId(c, s, permissions[i].routeKey), permissions[i].action))
  }

  function PermissionBlocks(c: Counters, s: Snapshot): seq<seq<PermissionRow>> {
    seq(|s.workloads|, k requires 0 <= k < |s.workloads| => PermissionRowsOf(c, s, c.workload + k, s.workloads[k].permissions))
  }

  /** All inserts of the transaction, the receipt excepted. */
  function WithRows(db: Db, s: Snapshot): Db {
    var c := db.next;
    db.(bots := db.bots + BotRows(c, s), accounts := db.accounts + LastBooks(c, s).accounts,
        destinations := db.destinations + DestinationRows(c, s),
        conditionals := db.conditionals + ConditionalRows(c, s),
        workloads := db.workloads + WorkloadRows(c, s), credentials := db.credentials + Flatten(CredentialBlocks(c, s)),
        services := db.services + ServiceRows(c, s), subscriptions := db.subscriptions + SubscriptionRows(c, s),
        routes := db.routes + RouteRows(c, s), permissions := db.permissions + Flatten(PermissionBlocks(c, s)),
        next := Counters(c.bot + |s.bots|, LastBooks(c, s).nextId, c.destination + |s.destinations|,
                         c.conditional + |s.routes|, c.workload + |s.workloads|, c.service + |s.services|,
                         c.subscription + |s.subscriptions|, c.route + |s.businessRoutes|))
  }

  function Restored(db: Db, s: Snapshot): Db {
    var inserted := WithRows(db, s);
    inserted.(receipts := inserted.receipts[Canonical(s) := (|s.bots|, |s.destinations|)])
  }

  /** Nothing configured: what the emptiness check of RestoreConfiguration counts. */
  predicate Unconfigured(db: Db, current: Snapshot) {
    && current.bots == [] && current.destinations == [] && current.routes == [] && current.services == []
    && current.subscriptions == [] && current.businessRoutes == [] && current.workloads == [] && db.accounts == []
  }

  /** The unique indexes of gateway_workloads: the adapter's row keeps its name and
      its reference. */
  predicate Taken(db: Db, s: Snapshot) {
    exists w, v :: w in db.workloads && v in s.workloads && (w.basics.name == v.basics.name || w.ref == v.ref)
  }

  datatype Outcome =
    | Invalid
    | Unreadable           // the current configuration cannot be scanned
    | Conflict
    | ConstraintFailed
    | Replayed(bots: nat, destinations: nat)
    | Committed

  /** The digest of a snapshot is taken for its canonical form. */
  function RestoreOutcome(lib: Library, db: Db, s: Snapshot): Outcome {
    if !Valid(lib, s) then Invalid
    else if !Scannable(db) then Unreadable
    else match Export(lib, db)
      case None => Conflict
      case Some(current) =>
        if Canonical(s) in db.receipts then
          if Canonical(current) == Canonical(s)
          then Replayed(db.receipts[Canonical(s)].0, db.receipts[Canonical(s)].1) else Conflict
        else if !Unconfigured(db, current) then Conflict
        else if Taken(db, s) then ConstraintFailed
        else Committed
  }

  function RestoreConfiguration(lib: Library, db: Db, s: Snapshot): Db {
    if RestoreOutcome(lib, db, s) == Committed then Restored(db, s) else db
  }
}
