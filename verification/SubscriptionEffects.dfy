/** What a committed change of subscriptions, bots and destinations means for the
    notifications accepted afterwards. */
module SubscriptionEffects {
  import opened Prelude
  import opened Subscriptions
  import opened SubscriptionProofs

  // --------------------------------------------------------------- cancelled for good

  predicate Inactive(s: State, subscription: nat) {
    subscription < |s.subscriptions| && !s.subscriptions[subscription].active
  }

  /** None of the rows from the n-th on goes to the subscription. */
  predicate NoneTo(rows: seq<Row>, n: nat, subscription: nat) {
    forall i :: n <= i < |rows| ==> rows[i].recipient.subscription != subscription
  }

  /** What a run after the cancellation keeps: n rows were there before. */
  predicate Off(s: State, subscription: nat, n: nat) {
    Inactive(s, subscription) && n <= |s.rows| && NoneTo(s.rows, n, subscription)
  }

  lemma ListedAreActive(s: State, service: nat, subscription: nat)
    requires Resolved(s, service).Targets? && Inactive(s, subscription)
    ensures forall i :: 0 <= i < |Resolved(s, service).recipients| ==>
              Resolved(s, service).recipients[i].subscription != subscription
  {
    ResolvesExactly(s, service, |s.subscriptions|);
  }

  lemma NotifiedOff(s: State, key: Key, service: nat, hash: nat, recipients: seq<Recipient>, subscription: nat, n: nat)
    requires Off(s, subscription, n)
    requires forall i :: 0 <= i < |recipients| ==> recipients[i].subscription != subscription
    ensures var t := Notified(s, key, service, hash, recipients); Off(t, subscription, n) && t.rows[..n] == s.rows[..n]
  {
    var t := Notified(s, key, service, hash, recipients);
    forall i | n <= i < |t.rows| ensures t.rows[i].recipient.subscription != subscription {
      if i >= |s.rows| { assert t.rows[i] == Row(key, recipients[i - |s.rows|]); }
    }
  }

  lemma OffStep(s: State, e: Event, subscription: nat, n: nat)
    requires Kept(s) && Off(s, subscription, n)
    ensures Off(Next(s, e), subscription, n) && Next(s, e).rows[..n] == s.rows[..n]
  {
    if e.Notify? {
      if NotifyAnswer(s, e.key, e.fingerprint, e.hash, e.fails).Accepted? {
        var (t, service) := Registered(s, e.key.workload, e.fingerprint);
        ListedAreActive(t, service, subscription);
        NotifiedOff(t, e.key, service, e.hash, Resolved(t, service).recipients, subscription, n);
      }
    } else {
      assert Next(s, e).rows == s.rows;
    }
  }

  lemma {:induction false} OffRun(s: State, events: seq<Event>, subscription: nat, n: nat)
    requires Kept(s) && Off(s, subscription, n)
    ensures Off(Run(s, events), subscription, n) && Run(s, events).rows[..n] == s.rows[..n]
    decreases |events|
  {
    if events != [] {
      var before := Run(s, events[..|events| - 1]);
      RunKeeps(s, events[..|events| - 1]);
      OffRun(s, events[..|events| - 1], subscription, n);
      OffStep(before, events[|events| - 1], subscription, n);
    }
  }

  lemma {:induction false} RowsOfAreRows(rows: seq<Row>, key: Key)
    ensures forall r :: r in RowsOf(rows, key) ==> exists i :: 0 <= i < |rows| && rows[i].notification == key && rows[i].recipient == r
  {
    if rows != [] {
      RowsOfAreRows(rows[1..], key);
      forall r | r in RowsOf(rows, key) ensures exists i :: 0 <= i < |rows| && rows[i].notification == key && rows[i].recipient == r {
        if r in RowsOf(rows[1..], key) {
          var i :| 0 <= i < |rows[1..]| && rows[1..][i].notification == key && rows[1..][i].recipient == r;
          assert rows[i + 1].notification == key;
        } else {
          assert rows[0].notification == key;
        }
      }
    }
  }

  /** The subscription is off, every other one stays, and only the service's revision
      moved besides. */
  lemma CancelTakesEffect(s: State, service: nat, subscription: nat, expected: int)
    requires MayCancel(s, service, subscription, expected)
    ensures var t := Next(s, Cancel(service, subscription, expected, false));
            && Inactive(t, subscription) && |t.subscriptions| == |s.subscriptions|
            && (forall k :: 0 <= k < |s.subscriptions| && k != subscription ==> t.subscriptions[k] == s.subscriptions[k])
            && (forall k, other :: 0 <= k < |s.subscriptions| && k != subscription ==>
                  Selected(t, other, k) == Selected(s, other, k))
            && (forall other :: !Selected(t, other, subscription))
            && service in t.services && t.services[service].revision == expected + 1
            && t.destinations == s.destinations && t.accounts == s.accounts
            && t.notifications == s.notifications && t.rows == s.rows
  {
  }

  /** After a committed cancel no notification accepted later, over every run, has a
      recipient with that subscription. */
  lemma CancelledIsNeverReached(s: State, service: nat, subscription: nat, expected: int, after: seq<Event>, key: Key)
    requires Kept(s) && MayCancel(s, service, subscription, expected) && key !in s.notifications
    ensures var t := Run(Next(s, Cancel(service, subscription, expected, false)), after);
            forall r :: r in RowsOf(t.rows, key) ==> r.subscription != subscription
  {
    var e := Cancel(service, subscription, expected, false);
    StepKeeps(s, e);
    CancelTakesEffect(s, service, subscription, expected);
    var t, n := Run(Next(s, e), after), |s.rows|;
    OffRun(Next(s, e), after, subscription, n);
    RowsOfAreRows(t.rows, key);
    forall j | 0 <= j < n ensures t.rows[j].notification != key { assert t.rows[j] == t.rows[..n][j]; }
    forall r | r in RowsOf(t.rows, key) ensures r.subscription != subscription {
      var i :| 0 <= i < |t.rows| && t.rows[i].notification == key && t.rows[i].recipient == r;
    }
  }

  // ------------------------------------------------------------- subscribed and reached

  /** The subscription is added as active, behind the others, which stay as they are. */
  lemma SubscribeTakesEffect(s: State, service: nat, destination: nat, expected: int)
    requires Linked(s) && MaySubscribe(s, service, destination, expected)
    ensures var t, n := Next(s, Subscribe(service, destination, expected, false)), |s.subscriptions|;
            && |t.subscriptions| == n + 1 && t.subscriptions[..n] == s.subscriptions
            && Selected(t, service, n) && t.subscriptions[n].destination == destination
            && (forall k, other :: 0 <= k < n ==> Selected(t, other, k) == Selected(s, other, k))
            && service in t.services && t.services[service].revision == expected + 1
            && t.destinations == s.destinations && t.accounts == s.accounts
            && t.notifications == s.notifications && t.rows == s.rows
  {
  }

  /** An accepted notification reaches every active subscription of its service, at the
      chat and through the bot its destination now has. */
  lemma ActiveIsReached(s: State, key: Key, fingerprint: string, hash: nat, k: nat)
    requires Kept(s) && NotifyAnswer(s, key, fingerprint, hash, false).Accepted?
    requires k < |s.subscriptions| && s.subscriptions[k].active
    requires var t := Next(s, Notify(key, fingerprint, hash, false));
             key in t.notifications && t.notifications[key].service == s.subscriptions[k].service
    ensures var t, p := Next(s, Notify(key, fingerprint, hash, false)), s.subscriptions[k];
            exists r :: r in RowsOf(t.rows, key) && r.subscription == k && p.destination in s.destinations
              && r.account == s.destinations[p.destination].account && r.chat == s.destinations[p.destination].chat
              && r.account in s.accounts && s.accounts[r.account].telegramId == Some(r.bot)
  {
    AcceptReachesAll(s, key, fingerprint, hash);
    AcceptedIsNotified(s, key, fingerprint, hash);
    var t, service := Next(s, Notify(key, fingerprint, hash, false)), s.subscriptions[k].service;
    assert t.subscriptions == s.subscriptions && t.destinations == s.destinations && t.accounts == s.accounts;
    assert Selected(t, service, k);
    ListedIsRecipient(t, service, RowsOf(t.rows, key), k);
  }

  lemma ListedIsRecipient(s: State, service: nat, recipients: seq<Recipient>, k: nat)
    requires Lists(s, service, |s.subscriptions|, recipients) && k < |s.subscriptions| && Selected(s, service, k)
    ensures Usable(s, service, k) && RecipientOf(s, service, k) in recipients
  {
    var i :| 0 <= i < |recipients| && recipients[i].subscription == k;
    assert recipients[i] == RecipientOf(s, service, k);
  }

  // ----------------------------------------------------------- bots and destinations

  /** A rotation that commits gives every account of the bot, and no other, the new
      token's identity; one whose recipients would collide changes nothing. */
  lemma RotationTakesEffect(s: State, bot: nat, telegramId: Option<int>)
    ensures var t := Next(s, Rotate(bot, telegramId, false));
            if AllResolve(Rotated(s, bot, telegramId))
            then
              && t.accounts.Keys == s.accounts.Keys
              && (forall a :: a in s.accounts ==>
                    t.accounts[a] == if s.accounts[a].bot == bot then Account(bot, telegramId) else s.accounts[a])
              && t == s.(accounts := t.accounts)
            else t == s
  {
  }

  /** A migration that commits sends every later recipient of that destination to its
      new account and chat, and leaves the other destinations alone. */
  lemma MigrationRedirects(s: State, destination: nat, account: nat, chat: int, active: bool, service: nat, k: nat)
    requires Linked(s) && destination in s.destinations && account in s.accounts
    requires AllResolve(Migrated(s, destination, account, chat, active)) && k < |s.subscriptions|
    ensures var t := Next(s, Migrate(destination, account, chat, active, false));
            && t == s.(destinations := s.destinations[destination := Destination(account, chat, active)])
            && (Selected(t, service, k) && Usable(t, service, k) ==>
                  if s.subscriptions[k].destination == destination
                  then s.accounts[account].telegramId.Some?
                       && RecipientOf(t, service, k) == Recipient(k, account, s.accounts[account].telegramId.value, chat)
                  else Selected(s, service, k) && Usable(s, service, k) && RecipientOf(t, service, k) == RecipientOf(s, service, k))
  {
  }
}
