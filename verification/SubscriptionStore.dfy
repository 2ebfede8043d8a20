/** The store methods behind subscriptions and service notifications. */
module SubscriptionStores {
  import opened Prelude
  import opened Subscriptions
  import P = SubscriptionProofs

  class SubscriptionStore {
    var services: map<nat, Service>
    var nextService: nat
    var subscriptions: seq<Subscription>
    var destinations: map<nat, Destination>
    var accounts: map<nat, Account>
    var notifications: map<Key, Notification>
    var rows: seq<Row>

    constructor ()
      ensures P.Kept(View())
    {
      services, nextService, subscriptions := map[], 0, [];
      destinations, accounts, notifications, rows := map[], map[], map[], [];
    }

    function View(): State
      reads this
    {
      State(services, nextService, subscriptions, destinations, accounts, notifications, rows)
    }

    /** The loop with its map of seen targets. */
    method ServiceRecipients(service: nat) returns (result: Resolution)
      ensures result == Resolved(View(), service)
    {
      var recipients: seq<Recipient> := [];
      var seen: set<(int, int)> := {};
      var k := 0;
      while k < |subscriptions|
        invariant 0 <= k <= |subscriptions|
        invariant Recipients(View(), service, k) == Targets(recipients)
        invariant forall bot, chat :: (bot, chat) in seen <==> Reached(recipients, bot, chat)
      {
        ghost var s := View();
        FailureShows(s, service, k + 1);
        var p := subscriptions[k];
        if p.service == service && p.active && p.destination in destinations && destinations[p.destination].account in accounts {
          var d := destinations[p.destination];
          var id := accounts[d.account].telegramId;
          if id.None? || !d.active || d.chat == 0 { return InvalidTarget; }
          if (id.value, d.chat) in seen { return Duplicate; }
          ReachedMore(recipients, Recipient(k, d.account, id.value, d.chat));
          seen := seen + {(id.value, d.chat)};
          recipients := recipients + [Recipient(k, d.account, id.value, d.chat)];
        }
        k := k + 1;
      }
      return Targets(recipients);
    }

    method AddServiceSubscription(service: nat, destination: nat, expected: int) returns (id: Option<nat>)
      requires P.Kept(View())
      modifies this`subscriptions, this`services
      ensures View() == Next(old(View()), Subscribe(service, destination, expected, false)) && P.Kept(View())
      ensures id == if MaySubscribe(old(View()), service, destination, expected) then Some(|old(subscriptions)|) else None
    {
      ghost var before := View();
      P.StepKeeps(before, Subscribe(service, destination, expected, false));
      if expected <= 0 || service !in services || services[service].revision != expected { return None; }
      if destination !in destinations || !destinations[destination].active { return None; }
      var k := 0;
      while k < |subscriptions|
        invariant 0 <= k <= |subscriptions|
        invariant forall j :: 0 <= j < k ==>
                    !(subscriptions[j].service == service && subscriptions[j].destination == destination && subscriptions[j].active)
      {
        if subscriptions[k].service == service && subscriptions[k].destination == destination && subscriptions[k].active {
          return None;
        }
        k := k + 1;
      }
      var keptServices, keptSubscriptions := services, subscriptions;
      subscriptions := subscriptions + [Subscription(service, destination, true)];
      services := services[service := services[service].(revision := services[service].revision + 1)];
      var resolution := ServiceRecipients(service);
      if !resolution.Targets? {
        services, subscriptions := keptServices, keptSubscriptions;   // rollback
        return None;
      }
      return Some(|keptSubscriptions|);
    }

    method CancelServiceSubscription(service: nat, subscription: nat, expected: int) returns (ok: bool)
      requires P.Kept(View())
      modifies this`subscriptions, this`services
      ensures View() == Next(old(View()), Cancel(service, subscription, expected, false)) && P.Kept(View())
      ensures ok == MayCancel(old(View()), service, subscription, expected)
    {
      P.StepKeeps(View(), Cancel(service, subscription, expected, false));
      if expected <= 0 || service !in services || services[service].revision != expected { return false; }
      if subscription >= |subscriptions| || subscriptions[subscription].service != service || !subscriptions[subscription].active {
        return false;
      }
      subscriptions := subscriptions[subscription := subscriptions[subscription].(active := false)];
      services := services[service := services[service].(revision := services[service].revision + 1)];
      return true;
    }

    method Register(workload: nat, fingerprint: string) returns (service: nat)
      modifies this`services, this`nextService
      ensures (View(), service) == Registered(old(View()), workload, fingerprint)
    {
      var n := nextService;
      while n > 0
        invariant 0 <= n <= nextService && View() == old(View())
        invariant FindService(View(), workload, fingerprint, nextService) == FindService(View(), workload, fingerprint, n)
      {
        if n - 1 in services && services[n - 1].workload == workload && services[n - 1].fingerprint == fingerprint {
          return n - 1;
        }
        n := n - 1;
      }
      service := nextService;
      services := services[service := Service(workload, fingerprint, 1)];
      nextService := nextService + 1;
    }

    /** createServiceDeliveries. */
    method CreateDeliveries(key: Key, recipients: seq<Recipient>)
      modifies this`rows
      ensures rows == old(rows) + RowsFor(key, recipients)
    {
      var i := 0;
      while i < |recipients|
        invariant 0 <= i <= |recipients|
        invariant rows == old(rows) + RowsFor(key, recipients)[..i]
      {
        rows := rows + [Row(key, recipients[i])];
        i := i + 1;
      }
    }

    method AcceptServiceNotification(key: Key, fingerprint: string, hash: nat) returns (answer: Answer)
      requires P.Kept(View())
      modifies this`services, this`nextService, this`notifications, this`rows
      ensures answer == NotifyAnswer(old(View()), key, fingerprint, hash, false)
      ensures View() == Next(old(View()), Notify(key, fingerprint, hash, false)) && P.Kept(View())
    {
      P.StepKeeps(View(), Notify(key, fingerprint, hash, false));
      if key in notifications {
        if notifications[key].hash != hash { return Conflict; }
        return Replayed(notifications[key].count);
      }
      var keptServices, keptNext := services, nextService;
      var service := Register(key.workload, fingerprint);
      var resolution := ServiceRecipients(service);
      if !resolution.Targets? {
        services, nextService := keptServices, keptNext;   // rollback
        return Refused;
      }
      notifications := notifications[key := Notification(service, hash, |resolution.recipients|)];
      CreateDeliveries(key, resolution.recipients);
      return Accepted(|resolution.recipients|);
    }
  }

  /** Once the scan of the first n rows fails, the whole scan fails the same way. */
  lemma FailureShows(s: State, service: nat, n: nat)
    requires n <= |s.subscriptions|
    ensures !Recipients(s, service, n).Targets? ==> Resolved(s, service) == Recipients(s, service, n)
  {
    if !Recipients(s, service, n).Targets? { FailureStays(s, service, n, |s.subscriptions|); }
  }

  lemma {:induction false} FailureStays(s: State, service: nat, n: nat, m: nat)
    requires n <= m <= |s.subscriptions| && !Recipients(s, service, n).Targets?
    ensures Recipients(s, service, m) == Recipients(s, service, n)
  {
    if n < m { FailureStays(s, service, n, m - 1); }
  }

  lemma ReachedMore(recipients: seq<Recipient>, r: Recipient)
    ensures forall bot, chat :: Reached(recipients + [r], bot, chat)
              <==> Reached(recipients, bot, chat) || (bot == r.bot && chat == r.chat)
  {
    forall bot, chat
      ensures Reached(recipients + [r], bot, chat) <==> Reached(recipients, bot, chat) || (bot == r.bot && chat == r.chat)
    {
      if Reached(recipients, bot, chat) {
        var i :| 0 <= i < |recipients| && recipients[i].bot == bot && recipients[i].chat == chat;
        assert (recipients + [r])[i] == recipients[i];
      }
      assert (recipients + [r])[|recipients|] == r;
    }
  }
}
