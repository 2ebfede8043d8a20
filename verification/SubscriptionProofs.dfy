/** One message per chat, and none lost or added afterwards. */
module SubscriptionProofs {
  import opened Prelude
  import opened Subscriptions

  // --------------------------------------------- what serviceRecipients accepts

  /** Both subscriptions are active ones of the service and go to the same chat
      through the same Telegram bot. */
  predicate Collide(s: State, service: nat, i: nat, j: nat)
    requires i < |s.subscriptions| && j < |s.subscriptions|
  {
    && Selected(s, service, i) && Selected(s, service, j)
    && TelegramIdOf(s, service, i).Some? && TelegramIdOf(s, service, i) == TelegramIdOf(s, service, j)
    && DestinationOf(s, service, i).chat == DestinationOf(s, service, j).chat
  }

  predicate NoneCollide(s: State, service: nat, n: nat)
    requires n <= |s.subscriptions|
  {
    forall i, j :: 0 <= i < j < n ==> !Collide(s, service, i, j)
  }

  predicate AllUsable(s: State, service: nat, n: nat)
    requires n <= |s.subscriptions|
  {
    forall k :: 0 <= k < n && Selected(s, service, k) ==> Usable(s, service, k)
  }

  /** The recipients are those of the selected rows, in order. */
  predicate Lists(s: State, service: nat, n: nat, recipients: seq<Recipient>)
    requires n <= |s.subscriptions|
  {
    && (forall i :: 0 <= i < |recipients| ==>
          var k := recipients[i].subscription;
          k < n && Selected(s, service, k) && Usable(s, service, k) && recipients[i] == RecipientOf(s, service, k))
    && (forall i, j :: 0 <= i < j < |recipients| ==> recipients[i].subscription < recipients[j].subscription)
    && (forall k :: 0 <= k < n && Selected(s, service, k) ==>
          exists i :: 0 <= i < |recipients| && recipients[i].subscription == k)
  }

  /** What the loop's outcome over the first n rows tells about them. */
  predicate Tells(s: State, service: nat, n: nat, r: Resolution)
    requires n <= |s.subscriptions|
  {
    && (r.Targets? <==> AllUsable(s, service, n) && NoneCollide(s, service, n))
    && (r.Targets? ==> Lists(s, service, n, r.recipients))
  }

  /** The loop succeeds exactly if every active subscription has a usable target and
      no two of them reach the same chat; then it lists one recipient for each. */
  lemma {:induction false} ResolvesExactly(s: State, service: nat, n: nat)
    requires n <= |s.subscriptions|
    ensures var r := Recipients(s, service, n);
            && (r.Targets? <==> AllUsable(s, service, n) && NoneCollide(s, service, n))
            && (r.Targets? ==> Lists(s, service, n, r.recipients))
  {
    Resolves(s, service, n);
  }

  lemma {:induction false} Resolves(s: State, service: nat, n: nat)
    requires n <= |s.subscriptions|
    ensures Tells(s, service, n, Recipients(s, service, n))
  {
    if n > 0 {
      Resolves(s, service, n - 1);
      var before := Recipients(s, service, n - 1);
      if !before.Targets? {
        TellsFailed(s, service, n - 1, before);
      } else if !Selected(s, service, n - 1) {
        TellsSkipped(s, service, n - 1, before);
      } else if !Usable(s, service, n - 1) {
        assert !AllUsable(s, service, n);
      } else {
        TellsMore(s, service, n - 1, before);
      }
    }
  }

  lemma TellsFailed(s: State, service: nat, n: nat, r: Resolution)
    requires n < |s.subscriptions| && Tells(s, service, n, r) && !r.Targets?
    ensures Tells(s, service, n + 1, r)
  {
    if AllUsable(s, service, n) {
      var i, j :| 0 <= i < j < n && Collide(s, service, i, j);
      assert !NoneCollide(s, service, n + 1);
    }
  }

  lemma TellsSkipped(s: State, service: nat, n: nat, r: Resolution)
    requires n < |s.subscriptions| && Tells(s, service, n, r) && r.Targets? && !Selected(s, service, n)
    ensures Tells(s, service, n + 1, r)
  {
    forall i | 0 <= i < n ensures !Collide(s, service, i, n) { }
  }

  lemma TellsMore(s: State, service: nat, n: nat, before: Resolution)
    requires n < |s.subscriptions| && Tells(s, service, n, before) && before.Targets?
    requires Selected(s, service, n) && Usable(s, service, n)
    ensures var r := RecipientOf(s, service, n);
            Tells(s, service, n + 1,
                  if Reached(before.recipients, r.bot, r.chat) then Duplicate else Targets(before.recipients + [r]))
  {
    var r := RecipientOf(s, service, n);
    ReachedIsCollision(s, service, n, before.recipients);
    if Reached(before.recipients, r.bot, r.chat) {
      var i :| 0 <= i < n && Collide(s, service, i, n);
      assert !NoneCollide(s, service, n + 1);
    } else {
      ListsOneMore(s, service, n, before.recipients);
      assert AllUsable(s, service, n + 1) && NoneCollide(s, service, n + 1);
    }
  }

  lemma ReachedIsCollision(s: State, service: nat, n: nat, recipients: seq<Recipient>)
    requires n < |s.subscriptions| && Lists(s, service, n, recipients)
    requires AllUsable(s, service, n) && Selected(s, service, n) && Usable(s, service, n)
    ensures var r := RecipientOf(s, service, n);
            Reached(recipients, r.bot, r.chat) <==> exists i :: 0 <= i < n && Collide(s, service, i, n)
  {
    var r := RecipientOf(s, service, n);
    if Reached(recipients, r.bot, r.chat) {
      var i :| 0 <= i < |recipients| && recipients[i].bot == r.bot && recipients[i].chat == r.chat;
      assert Collide(s, service, recipients[i].subscription, n);
    }
    if k: nat :| k < n && Collide(s, service, k, n) {
      var i :| 0 <= i < |recipients| && recipients[i].subscription == k;
      assert recipients[i] == RecipientOf(s, service, k);
    }
  }

  lemma ListsOneMore(s: State, service: nat, n: nat, recipients: seq<Recipient>)
    requires n < |s.subscriptions| && Lists(s, service, n, recipients)
    requires Selected(s, service, n) && Usable(s, service, n)
    ensures Lists(s, service, n + 1, recipients + [RecipientOf(s, service, n)])
  {
    var more := recipients + [RecipientOf(s, service, n)];
    forall k | 0 <= k < n + 1 && Selected(s, service, k)
      ensures exists i :: 0 <= i < |more| && more[i].subscription == k
    {
      if k < n {
        var i :| 0 <= i < |recipients| && recipients[i].subscription == k;
        assert more[i].subscription == k;
      } else {
        assert more[|recipients|].subscription == k;
      }
    }
  }

  // ----------------------------------------------------- pairwise distinct targets

  predicate Distinct(s: State) {
    forall service {:trigger NoneCollide(s, service, |s.subscriptions|)} :: service in s.services ==>
      NoneCollide(s, service, |s.subscriptions|)
  }

  /** What the foreign keys keep. */
  predicate Linked(s: State) {
    && (forall k :: 0 <= k < |s.subscriptions| ==>
          s.subscriptions[k].service in s.services && s.subscriptions[k].destination in s.destinations)
    && (forall d :: d in s.destinations ==> s.destinations[d].account in s.accounts)
    && (forall id :: id in s.services ==> id < s.nextService)
  }

  /** Two states in which the first n rows mean the same for a service. */
  predicate SameMeaning(s: State, t: State, service: nat, n: nat)
    requires n <= |s.subscriptions| && n <= |t.subscriptions|
  {
    forall k :: 0 <= k < n && Selected(t, service, k) ==>
      && Selected(s, service, k)
      && TelegramIdOf(t, service, k) == TelegramIdOf(s, service, k)
      && DestinationOf(t, service, k).chat == DestinationOf(s, service, k).chat
  }

  lemma CollideCarries(s: State, t: State, service: nat, i: nat, j: nat)
    requires i < j < |s.subscriptions| && j < |t.subscriptions| && SameMeaning(s, t, service, j + 1)
    ensures Collide(t, service, i, j) ==> Collide(s, service, i, j)
  {
  }

  lemma FewerCollide(s: State, t: State, service: nat, n: nat)
    requires n <= |s.subscriptions| && n <= |t.subscriptions|
    requires SameMeaning(s, t, service, n) && NoneCollide(s, service, n)
    ensures NoneCollide(t, service, n)
  {
    forall i, j | 0 <= i < j < n ensures !Collide(t, service, i, j) {
      CollideCarries(s, t, service, i, j);
    }
  }

  /** The service has no active subscription among the first n. */
  lemma NoneSelected(s: State, service: nat, n: nat)
    requires n <= |s.subscriptions|
    requires forall k :: 0 <= k < n ==> !(s.subscriptions[k].service == service && s.subscriptions[k].active)
    ensures NoneCollide(s, service, n)
  {
  }

  lemma SubscribeKeeps(s: State, service: nat, destination: nat, expected: int)
    requires Linked(s) && Distinct(s) && MaySubscribe(s, service, destination, expected)
    ensures Distinct(Subscribed(s, service, destination)) && Linked(Subscribed(s, service, destination))
  {
    var t, n := Subscribed(s, service, destination), |s.subscriptions|;
    forall other | other in t.services ensures NoneCollide(t, other, n + 1) {
      if other == service {
        ResolvesExactly(t, service, n + 1);
      } else {
        assert NoneCollide(s, other, n);
        FewerCollide(s, t, other, n);
        assert !Selected(t, other, n);
      }
    }
  }

  lemma CancelKeeps(s: State, service: nat, subscription: nat, expected: int)
    requires Linked(s) && Distinct(s) && MayCancel(s, service, subscription, expected)
    ensures Distinct(Cancelled(s, service, subscription)) && Linked(Cancelled(s, service, subscription))
  {
    var t, n := Cancelled(s, service, subscription), |s.subscriptions|;
    forall other | other in t.services ensures NoneCollide(t, other, n) {
      assert NoneCollide(s, other, n);
      FewerCollide(s, t, other, n);
    }
  }

  /** A change of accounts or destinations that validateServiceRecipients let pass. */
  lemma ValidatedIsDistinct(t: State)
    requires AllResolve(t)
    ensures Distinct(t)
  {
    var n := |t.subscriptions|;
    forall service | service in t.services ensures NoneCollide(t, service, n) {
      if k :| 0 <= k < n && t.subscriptions[k].service == service && t.subscriptions[k].active {
        assert Resolved(t, t.subscriptions[k].service).Targets?;
        ResolvesExactly(t, service, n);
      } else {
        NoneSelected(t, service, n);
      }
    }
  }

  lemma UntouchedKeeps(s: State, t: State)
    requires Linked(s) && Distinct(s) && t.subscriptions == s.subscriptions
    requires forall d :: d in s.destinations ==> d in t.destinations && t.destinations[d] == s.destinations[d]
    requires forall a :: a in s.accounts ==> a in t.accounts && t.accounts[a] == s.accounts[a]
    requires forall id :: id in t.services && id !in s.services ==> id >= s.nextService
    ensures Distinct(t)
  {
    var n := |s.subscriptions|;
    forall service | service in t.services ensures NoneCollide(t, service, n) {
      if service in s.services {
        assert NoneCollide(s, service, n);
        FewerCollide(s, t, service, n);
      } else {
        NoneSelected(t, service, n);
      }
    }
  }

  lemma {:induction false} FoundService(s: State, workload: nat, fingerprint: string, n: nat)
    ensures var f := FindService(s, workload, fingerprint, n);
            f.Some? ==> f.value in s.services && s.services[f.value].workload == workload
                        && s.services[f.value].fingerprint == fingerprint
  {
    if n > 0 { FoundService(s, workload, fingerprint, n - 1); }
  }

  lemma RegisteredKeeps(s: State, workload: nat, fingerprint: string)
    requires Linked(s) && Distinct(s)
    ensures var (t, service) := Registered(s, workload, fingerprint);
            && Linked(t) && Distinct(t) && service in t.services
            && t.subscriptions == s.subscriptions && t.rows == s.rows && t.notifications == s.notifications
            && t.services[service].workload == workload && t.services[service].fingerprint == fingerprint
  {
    FoundService(s, workload, fingerprint, s.nextService);
    var (t, service) := Registered(s, workload, fingerprint);
    UntouchedKeeps(s, t);
  }

  lemma DistinctStep(s: State, e: Event)
    requires Linked(s) && Distinct(s)
    ensures Linked(Next(s, e)) && Distinct(Next(s, e))
  {
    match e
    case AddAccount(_, _, _) => UntouchedKeeps(s, Next(s, e));
    case AddDestination(_, _, _) => UntouchedKeeps(s, Next(s, e));
    case Subscribe(service, destination, expected, fails) =>
      if !fails && MaySubscribe(s, service, destination, expected) { SubscribeKeeps(s, service, destination, expected); }
    case Cancel(service, subscription, expected, fails) =>
      if !fails && MayCancel(s, service, subscription, expected) { CancelKeeps(s, service, subscription, expected); }
    case Rotate(bot, telegramId, fails) =>
      if AllResolve(Rotated(s, bot, telegramId)) { ValidatedIsDistinct(Rotated(s, bot, telegramId)); }
    case Migrate(destination, account, chat, active, fails) =>
      if AllResolve(Migrated(s, destination, account, chat, active)) {
        ValidatedIsDistinct(Migrated(s, destination, account, chat, active));
      }
    case Notify(key, fingerprint, hash, fails) => NotifyDistinct(s, key, fingerprint, hash, fails);
  }

  lemma NotifyDistinct(s: State, key: Key, fingerprint: string, hash: nat, fails: bool)
    requires Linked(s) && Distinct(s)
    ensures Linked(Next(s, Notify(key, fingerprint, hash, fails))) && Distinct(Next(s, Notify(key, fingerprint, hash, fails)))
  {
    RegisteredKeeps(s, key.workload, fingerprint);
    var (t, service) := Registered(s, key.workload, fingerprint);
    if NotifyAnswer(s, key, fingerprint, hash, fails).Accepted? {
      UntouchedKeeps(t, Notified(t, key, service, hash, Resolved(t, service).recipients));
    }
  }

  // ---------------------------------------------------------------- notifications

  /** The rows of one notification, in order. */
  function RowsOf(rows: seq<Row>, key: Key): seq<Recipient> {
    if rows == [] then []
    else (if rows[0].notification == key then [rows[0].recipient] else []) + RowsOf(rows[1..], key)
  }

  lemma {:induction false} RowsOfConcat(a: seq<Row>, b: seq<Row>, key: Key)
    ensures RowsOf(a + b, key) == RowsOf(a, key) + RowsOf(b, key)
    decreases |a|
  {
    if a == [] {
      assert a + b == b;
    } else {
      assert (a + b)[1..] == a[1..] + b;
      RowsOfConcat(a[1..], b, key);
    }
  }

  lemma {:induction false} RowsOfNew(key: Key, recipients: seq<Recipient>, other: Key)
    ensures RowsOf(RowsFor(key, recipients), other) == if other == key then recipients else []
    decreases |recipients|
  {
    if recipients != [] {
      var rows := RowsFor(key, recipients);
      assert rows[0] == Row(key, recipients[0]) && rows[1..] == RowsFor(key, recipients[1..]);
      RowsOfNew(key, recipients[1..], other);
      assert [recipients[0]] + recipients[1..] == recipients;
    }
  }

  predicate NoTwoAlike(recipients: seq<Recipient>) {
    forall i, j :: 0 <= i < j < |recipients| ==>
      recipients[i].bot != recipients[j].bot || recipients[i].chat != recipients[j].chat
  }

  predicate Counted(s: State) {
    && (forall key :: key in s.notifications ==>
          |RowsOf(s.rows, key)| == s.notifications[key].count && NoTwoAlike(RowsOf(s.rows, key)))
    && (forall i :: 0 <= i < |s.rows| ==> s.rows[i].notification in s.notifications)
  }

  lemma {:induction false} NoRows(rows: seq<Row>, key: Key)
    requires forall i :: 0 <= i < |rows| ==> rows[i].notification != key
    ensures RowsOf(rows, key) == []
  {
    if rows != [] { NoRows(rows[1..], key); }
  }

  lemma TargetsDiffer(s: State, service: nat)
    requires Resolved(s, service).Targets?
    ensures NoTwoAlike(Resolved(s, service).recipients)
  {
    var n, r := |s.subscriptions|, Resolved(s, service).recipients;
    ResolvesExactly(s, service, n);
    forall i, j | 0 <= i < j < |r| ensures r[i].bot != r[j].bot || r[i].chat != r[j].chat {
      assert !Collide(s, service, r[i].subscription, r[j].subscription);
    }
  }

  lemma NotifiedCounts(s: State, key: Key, service: nat, hash: nat, recipients: seq<Recipient>)
    requires Counted(s) && key !in s.notifications && NoTwoAlike(recipients)
    ensures var t := Notified(s, key, service, hash, recipients);
            Counted(t) && RowsOf(t.rows, key) == recipients && Fixed(s, t)
  {
    var t := Notified(s, key, service, hash, recipients);
    NoRows(s.rows, key);
    forall other ensures RowsOf(t.rows, other) == RowsOf(s.rows, other) + (if other == key then recipients else []) {
      RowsOfConcat(s.rows, RowsFor(key, recipients), other);
      RowsOfNew(key, recipients, other);
    }
  }

  /** Everything that was accepted stays as it was. */
  predicate Fixed(s: State, t: State) {
    forall key :: key in s.notifications ==>
      key in t.notifications && t.notifications[key] == s.notifications[key] && RowsOf(t.rows, key) == RowsOf(s.rows, key)
  }

  predicate Kept(s: State) {
    Linked(s) && Distinct(s) && Counted(s)
  }

  lemma StepKeeps(s: State, e: Event)
    requires Kept(s)
    ensures Kept(Next(s, e)) && Fixed(s, Next(s, e))
  {
    DistinctStep(s, e);
    if e.Notify? {
      NotifyKeeps(s, e.key, e.fingerprint, e.hash, e.fails);
    } else {
      assert Next(s, e).notifications == s.notifications && Next(s, e).rows == s.rows;
    }
  }

  lemma NotifyKeeps(s: State, key: Key, fingerprint: string, hash: nat, fails: bool)
    requires Kept(s)
    ensures var t := Next(s, Notify(key, fingerprint, hash, fails)); Counted(t) && Fixed(s, t)
  {
    if NotifyAnswer(s, key, fingerprint, hash, fails).Accepted? {
      var (t, service) := Registered(s, key.workload, fingerprint);
      RegisteredKeeps(s, key.workload, fingerprint);
      TargetsDiffer(t, service);
      SameRowsCounted(s, t);
      NotifiedCounts(t, key, service, hash, Resolved(t, service).recipients);
    }
  }

  lemma SameRowsCounted(s: State, t: State)
    requires Counted(s) && t.rows == s.rows && t.notifications == s.notifications
    ensures Counted(t)
  {
  }

  lemma {:induction false} RunKeeps(s: State, events: seq<Event>)
    requires Kept(s)
    ensures Kept(Run(s, events)) && Fixed(s, Run(s, events))
    decreases |events|
  {
    if events != [] {
      RunKeeps(s, events[..|events| - 1]);
      StepKeeps(Run(s, events[..|events| - 1]), events[|events| - 1]);
    }
  }

  // ----------------------------------------------------------------- main results

  /** From every database in which they are distinct to begin with, an empty or a
      restored one for instance: in every committed state no two active subscriptions
      of a service reach the same chat through the same Telegram bot. */
  lemma TargetsStayDistinct(s: State, events: seq<Event>, service: nat, i: nat, j: nat)
    requires Kept(s) && service in Run(s, events).services && i < j < |Run(s, events).subscriptions|
    ensures !Collide(Run(s, events), service, i, j)
  {
    RunKeeps(s, events);
    assert NoneCollide(Run(s, events), service, |Run(s, events).subscriptions|);
  }

  /** The notification belongs to the service of that name and went once to every
      active subscription of it, to pairwise different chats. */
  predicate Delivered(s: State, key: Key, fingerprint: string) {
    && key in s.notifications && s.notifications[key].service in s.services
    && s.services[s.notifications[key].service].workload == key.workload
    && s.services[s.notifications[key].service].fingerprint == fingerprint
    && Lists(s, s.notifications[key].service, |s.subscriptions|, RowsOf(s.rows, key))
    && NoTwoAlike(RowsOf(s.rows, key))
  }

  /** Accepting a new key records one recipient for every active subscription of the
      registered service, in order and to pairwise different chats. */
  lemma AcceptReachesAll(s: State, key: Key, fingerprint: string, hash: nat)
    requires Kept(s) && NotifyAnswer(s, key, fingerprint, hash, false).Accepted?
    ensures var t := Next(s, Notify(key, fingerprint, hash, false));
            && Delivered(t, key, fingerprint)
            && NotifyAnswer(s, key, fingerprint, hash, false) == Accepted(|RowsOf(t.rows, key)|)
  {
    AcceptedIsNotified(s, key, fingerprint, hash);
    RegisteredReachesAll(s, key, fingerprint, hash);
  }

  lemma AcceptedIsNotified(s: State, key: Key, fingerprint: string, hash: nat)
    requires NotifyAnswer(s, key, fingerprint, hash, false).Accepted?
    ensures key !in s.notifications
    ensures var (t, service) := Registered(s, key.workload, fingerprint);
            && Resolved(t, service).Targets?
            && NotifyAnswer(s, key, fingerprint, hash, false) == Accepted(|Resolved(t, service).recipients|)
            && Next(s, Notify(key, fingerprint, hash, false)) == Notified(t, key, service, hash, Resolved(t, service).recipients)
  {
  }

  lemma RegisteredReachesAll(s: State, key: Key, fingerprint: string, hash: nat)
    requires Kept(s) && key !in s.notifications
    requires var (t, service) := Registered(s, key.workload, fingerprint); Resolved(t, service).Targets?
    ensures var (t, service) := Registered(s, key.workload, fingerprint);
            var u := Notified(t, key, service, hash, Resolved(t, service).recipients);
            RowsOf(u.rows, key) == Resolved(t, service).recipients && Delivered(u, key, fingerprint)
  {
    RegisteredKeeps(s, key.workload, fingerprint);
    var (t, service) := Registered(s, key.workload, fingerprint);
    SameRowsCounted(s, t);
    NotifiedReachesAll(t, key, service, hash, fingerprint);
  }

  lemma NotifiedReachesAll(t: State, key: Key, service: nat, hash: nat, fingerprint: string)
    requires Counted(t) && key !in t.notifications && Resolved(t, service).Targets?
    requires service in t.services
    requires t.services[service].workload == key.workload && t.services[service].fingerprint == fingerprint
    ensures var u := Notified(t, key, service, hash, Resolved(t, service).recipients);
            RowsOf(u.rows, key) == Resolved(t, service).recipients && Delivered(u, key, fingerprint)
  {
    TargetsDiffer(t, service);
    ResolvesExactly(t, service, |t.subscriptions|);
    NotifiedCounts(t, key, service, hash, Resolved(t, service).recipients);
    var u := Notified(t, key, service, hash, Resolved(t, service).recipients);
    ListsCarriesOver(t, u, service, |t.subscriptions|, RowsOf(u.rows, key));
  }

  lemma ListsCarriesOver(s: State, t: State, service: nat, n: nat, recipients: seq<Recipient>)
    requires s.subscriptions == t.subscriptions && s.destinations == t.destinations && s.accounts == t.accounts
    requires n <= |s.subscriptions| && Lists(s, service, n, recipients)
    ensures Lists(t, service, n, recipients)
  {
    forall k | 0 <= k < n ensures Selected(t, service, k) == Selected(s, service, k) { }
  }

  /** For ever after, the notification has its recorded number of recipients, the same
      ones; and its key, used again, adds none: the same payload is answered with the
      recorded number, another one is a conflict. */
  lemma NotificationStays(s: State, events: seq<Event>, key: Key, fingerprint: string, hash: nat, fails: bool)
    requires Kept(s) && key in s.notifications
    ensures var t := Run(s, events);
            && key in t.notifications && t.notifications[key] == s.notifications[key]
            && RowsOf(t.rows, key) == RowsOf(s.rows, key)
            && |RowsOf(t.rows, key)| == t.notifications[key].count
            && Next(t, Notify(key, fingerprint, hash, fails)) == t
            && NotifyAnswer(t, key, fingerprint, hash, fails)
               == if hash == s.notifications[key].hash then Replayed(s.notifications[key].count) else Conflict
  {
    RunKeeps(s, events);
  }
}
