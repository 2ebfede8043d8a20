/** Service subscriptions, who they resolve to, and the notifications accepted for
    them. Every event is one transaction. */
module Subscriptions {
  import opened Prelude

  datatype Service = Service(workload: nat, fingerprint: string, revision: nat)

  /** Row IDs ascend, so a subscription is named by its position. */
  datatype Subscription = Subscription(service: nat, destination: nat, active: bool)

  datatype Destination = Destination(account: nat, chat: int, active: bool)

  /** telegramId: what telegramBotID makes of the account's token; None: an error. */
  datatype Account = Account(bot: nat, telegramId: Option<int>)

  datatype Recipient = Recipient(subscription: nat, account: nat, bot: int, chat: int)

  /** A notification is named by its workload and idempotency key. */
  datatype Key = Key(workload: nat, key: string)

  datatype Notification = Notification(service: nat, hash: nat, count: nat)

  /** A row of gateway_service_recipients; its delivery is created with it. */
  datatype Row = Row(notification: Key, recipient: Recipient)

  datatype State = State(
    services: map<nat, Service>, nextService: nat, subscriptions: seq<Subscription>,
    destinations: map<nat, Destination>, accounts: map<nat, Account>,
    notifications: map<Key, Notification>, rows: seq<Row>)

  datatype Resolution = Targets(recipients: seq<Recipient>) | InvalidTarget | Duplicate

  // ------------------------------------------------------------------- recipients

  /** The joined row of the k-th subscription, if it is an active one of the service. */
  predicate Selected(s: State, service: nat, k: nat)
    requires k < |s.subscriptions|
  {
    var p := s.subscriptions[k];
    p.service == service && p.active && p.destination in s.destinations && s.destinations[p.destination].account in s.accounts
  }

  function DestinationOf(s: State, service: nat, k: nat): Destination
    requires k < |s.subscriptions| && Selected(s, service, k)
  {
    s.destinations[s.subscriptions[k].destination]
  }

  function TelegramIdOf(s: State, service: nat, k: nat): Option<int>
    requires k < |s.subscriptions| && Selected(s, service, k)
  {
    s.accounts[DestinationOf(s, service, k).account].telegramId
  }

  predicate Usable(s: State, service: nat, k: nat)
    requires k < |s.subscriptions| && Selected(s, service, k)
  {
    TelegramIdOf(s, service, k).Some? && DestinationOf(s, service, k).active && DestinationOf(s, service, k).chat != 0
  }

  function RecipientOf(s: State, service: nat, k: nat): Recipient
    requires k < |s.subscriptions| && Selected(s, service, k) && Usable(s, service, k)
  {
    var d := DestinationOf(s, service, k);
    Recipient(k, d.account, TelegramIdOf(s, service, k).value, d.chat)
  }

  predicate Reached(recipients: seq<Recipient>, bot: int, chat: int) {
    exists i :: 0 <= i < |recipients| && recipients[i].bot == bot && recipients[i].chat == chat
  }

  /** serviceRecipients over the first n rows of the table. */
  function Recipients(s: State, service: nat, n: nat): Resolution
    requires n <= |s.subscriptions|
  {
    if n == 0 then Targets([])
    else
      var before := Recipients(s, service, n - 1);
      if !before.Targets? || !Selected(s, service, n - 1) then before
      else if !Usable(s, service, n - 1) then InvalidTarget
      else
        var r := RecipientOf(s, service, n - 1);
        if Reached(before.recipients, r.bot, r.chat) then Duplicate else Targets(before.recipients + [r])
  }

  function Resolved(s: State, service: nat): Resolution {
    Recipients(s, service, |s.subscriptions|)
  }

  // ------------------------------------------------------------------------ events

  datatype Event =
    | AddAccount(account: nat, bot: nat, telegramId: Option<int>)
    | AddDestination(destination: nat, account: nat, chat: int)
    | Subscribe(service: nat, destination: nat, expected: int, fails: bool)
    | Cancel(service: nat, subscription: nat, expected: int, fails: bool)
    | Rotate(bot: nat, telegramId: Option<int>, fails: bool)                 // syncBotAccountsTx
    | Migrate(destination: nat, account: nat, chat: int, active: bool, fails: bool)
    | Notify(key: Key, fingerprint: string, hash: nat, fails: bool)

  /** validateServiceRecipients. */
  predicate AllResolve(s: State) {
    forall k :: 0 <= k < |s.subscriptions| && s.subscriptions[k].active ==> Resolved(s, s.subscriptions[k].service).Targets?
  }

  function Subscribed(s: State, service: nat, destination: nat): State
    requires service in s.services
  {
    s.(subscriptions := s.subscriptions + [Subscription(service, destination, true)],
       services := s.services[service := s.services[service].(revision := s.services[service].revision + 1)])
  }

  predicate MaySubscribe(s: State, service: nat, destination: nat, expected: int) {
    && expected > 0 && service in s.services && s.services[service].revision == expected
    && destination in s.destinations && s.destinations[destination].active
    && (forall k :: 0 <= k < |s.subscriptions| ==>
          !(s.subscriptions[k].service == service && s.subscriptions[k].destination == destination && s.subscriptions[k].active))
    && Resolved(Subscribed(s, service, destination), service).Targets?
  }

  predicate MayCancel(s: State, service: nat, subscription: nat, expected: int) {
    && expected > 0 && service in s.services && s.services[service].revision == expected
    && subscription < |s.subscriptions| && s.subscriptions[subscription].service == service
    && s.subscriptions[subscription].active
  }

  function Cancelled(s: State, service: nat, subscription: nat): State
    requires service in s.services && subscription < |s.subscriptions|
  {
    s.(subscriptions := s.subscriptions[subscription := s.subscriptions[subscription].(active := false)],
       services := s.services[service := s.services[service].(revision := s.services[service].revision + 1)])
  }

  function Rotated(s: State, bot: nat, telegramId: Option<int>): State {
    s.(accounts := map a | a in s.accounts ::
                     if s.accounts[a].bot == bot then s.accounts[a].(telegramId := telegramId) else s.accounts[a])
  }

  function Migrated(s: State, destination: nat, account: nat, chat: int, active: bool): State {
    s.(destinations := s.destinations[destination := Destination(account, chat, active)])
  }

  /** The service registered under the fingerprint, for IDs below n. */
  function FindService(s: State, workload: nat, fingerprint: string, n: nat): Option<nat> {
    if n == 0 then None
    else if n - 1 in s.services && s.services[n - 1].workload == workload && s.services[n - 1].fingerprint == fingerprint
    then Some(n - 1)
    else FindService(s, workload, fingerprint, n - 1)
  }

  /** INSERT ... ON CONFLICT(workload_id, fingerprint). */
  function Registered(s: State, workload: nat, fingerprint: string): (State, nat) {
    match FindService(s, workload, fingerprint, s.nextService)
    case Some(id) => (s, id)
    case None => (s.(services := s.services[s.nextService := Service(workload, fingerprint, 1)], nextService := s.nextService + 1),
                  s.nextService)
  }

  function RowsFor(key: Key, recipients: seq<Recipient>): seq<Row> {
    seq(|recipients|, i requires 0 <= i < |recipients| => Row(key, recipients[i]))
  }

  function Notified(s: State, key: Key, service: nat, hash: nat, recipients: seq<Recipient>): State {
    s.(notifications := s.notifications[key := Notification(service, hash, |recipients|)],
       rows := s.rows + RowsFor(key, recipients))
  }

  datatype Answer = Accepted(count: nat) | Replayed(count: nat) | Conflict | Refused

  function NotifyAnswer(s: State, key: Key, fingerprint: string, hash: nat, fails: bool): Answer {
    if key in s.notifications then
      (if s.notifications[key].hash == hash then Replayed(s.notifications[key].count) else Conflict)
    else
      var (t, service) := Registered(s, key.workload, fingerprint);
      var resolution := Resolved(t, service);
      if fails || !resolution.Targets? then Refused else Accepted(|resolution.recipients|)
  }

  function Next(s: State, e: Event): State {
    match e
    case AddAccount(account, bot, telegramId) =>
      if account in s.accounts then s else s.(accounts := s.accounts[account := Account(bot, telegramId)])
    case AddDestination(destination, account, chat) =>
      if destination in s.destinations || account !in s.accounts then s
      else s.(destinations := s.destinations[destination := Destination(account, chat, true)])
    case Subscribe(service, destination, expected, fails) =>
      if !fails && MaySubscribe(s, service, destination, expected) then Subscribed(s, service, destination) else s
    case Cancel(service, subscription, expected, fails) =>
      if !fails && MayCancel(s, service, subscription, expected) then Cancelled(s, service, subscription) else s
    case Rotate(bot, telegramId, fails) =>
      if !fails && AllResolve(Rotated(s, bot, telegramId)) then Rotated(s, bot, telegramId) else s
    case Migrate(destination, account, chat, active, fails) =>
      if !fails && destination in s.destinations && account in s.accounts
         && AllResolve(Migrated(s, destination, account, chat, active))
      then Migrated(s, destination, account, chat, active) else s
    case Notify(key, fingerprint, hash, fails) =>
      if NotifyAnswer(s, key, fingerprint, hash, fails).Accepted? then
        var (t, service) := Registered(s, key.workload, fingerprint);
        Notified(t, key, service, hash, Resolved(t, service).recipients)
      else s
  }

  function Run(s: State, events: seq<Event>): State
    decreases |events|
  {
    if events == [] then s else Next(Run(s, events[..|events| - 1]), events[|events| - 1])
  }
}
