/** The alias accounts a restore creates: each destination goes to the first account
    of its bot that does not have the chat yet, or to a new one. */
module ConfigAccounts {
  import opened Prelude

  datatype Account = Account(id: nat, bot: nat)

  /** A destination row's (bot_account_id, chat_id). */
  datatype Placed = Placed(account: nat, chat: int)

  datatype Books = Books(accounts: seq<Account>, placed: seq<Placed>, nextId: nat)

  /** SELECT ... WHERE native_bot_id=? AND NOT EXISTS(...) ORDER BY id LIMIT 1, from row k on. */
  function FirstFree(b: Books, bot: nat, chat: int, k: nat): Option<nat>
    requires k <= |b.accounts|
    decreases |b.accounts| - k
  {
    if k == |b.accounts| then None
    else if b.accounts[k].bot == bot && Placed(b.accounts[k].id, chat) !in b.placed then Some(k)
    else FirstFree(b, bot, chat, k + 1)
  }

  function Chosen(b: Books, bot: nat, chat: int): nat {
    match FirstFree(b, bot, chat, 0)
    case Some(k) => if k < |b.accounts| then b.accounts[k].id else b.nextId
    case None => b.nextId
  }

  function Place(b: Books, bot: nat, chat: int): Books {
    var id := Chosen(b, bot, chat);
    Books(if FirstFree(b, bot, chat, 0).None? then b.accounts + [Account(id, bot)] else b.accounts,
          b.placed + [Placed(id, chat)],
          if FirstFree(b, bot, chat, 0).None? then b.nextId + 1 else b.nextId)
  }

  /** All destinations in order, each as its bot and chat. */
  function PlaceAll(b: Books, pairs: seq<(nat, int)>): Books
    decreases |pairs|
  {
    if pairs == [] then b
    else
      var n := |pairs| - 1;
      Place(PlaceAll(b, pairs[..n]), pairs[n].0, pairs[n].1)
  }

  /** The two tables while RestoreConfiguration walks the destinations. */
  class AccountTables {
    var accounts: seq<Account>
    var placed: seq<Placed>
    var nextId: nat

    constructor (b: Books)
      ensures View() == b
    {
      accounts, placed, nextId := b.accounts, b.placed, b.nextId;
    }

    function View(): Books
      reads this
    {
      Books(accounts, placed, nextId)
    }

    method PlaceOne(bot: nat, chat: int) returns (id: nat)
      modifies this
      ensures View() == Place(old(View()), bot, chat) && id == Chosen(old(View()), bot, chat)
      ensures placed == old(placed) + [Placed(id, chat)]
    {
      var k := 0;
      while k < |accounts| && !(accounts[k].bot == bot && Placed(accounts[k].id, chat) !in placed)
        invariant 0 <= k <= |accounts|
        invariant FirstFree(View(), bot, chat, 0) == FirstFree(View(), bot, chat, k)
      {
        k := k + 1;
      }
      if k == |accounts| {
        id := nextId;
        accounts := accounts + [Account(id, bot)];
        nextId := nextId + 1;
      } else {
        id := accounts[k].id;
      }
      placed := placed + [Placed(id, chat)];
    }
  }

  // ------------------------------------------------------------------ the counting

  /** How many of the first k accounts belong to the bot. */
  function Rank(accounts: seq<Account>, bot: nat, k: nat): nat
    requires k <= |accounts|
  {
    if k == 0 then 0 else Rank(accounts, bot, k - 1) + (if accounts[k - 1].bot == bot then 1 else 0)
  }

  function Number(accounts: seq<Account>, bot: nat): nat {
    Rank(accounts, bot, |accounts|)
  }

  lemma {:induction false} RankGrows(accounts: seq<Account>, bot: nat, j: nat, k: nat)
    requires j <= k <= |accounts|
    ensures Rank(accounts, bot, j) <= Rank(accounts, bot, k)
    ensures j < k && accounts[j].bot == bot ==> Rank(accounts, bot, j) < Rank(accounts, bot, k)
    decreases k
  {
    if j < k { RankGrows(accounts, bot, j, k - 1); }
  }

  lemma {:induction false} RankOfLonger(accounts: seq<Account>, a: Account, bot: nat, k: nat)
    requires k <= |accounts|
    ensures Rank(accounts + [a], bot, k) == Rank(accounts, bot, k)
  {
    if k > 0 { RankOfLonger(accounts, a, bot, k - 1); }
  }

  predicate Ascending(b: Books) {
    && (forall i, j :: 0 <= i < j < |b.accounts| ==> b.accounts[i].id < b.accounts[j].id)
    && (forall i :: 0 <= i < |b.accounts| ==> b.accounts[i].id < b.nextId)
    && (forall p :: p in b.placed ==> p.account < b.nextId)
  }

  /** The accounts that have a chat are the first ones of their bot, as many as the
      bot has destinations with that chat. */
  ghost predicate Filled(b: Books, pairs: seq<(nat, int)>) {
    forall i, chat :: 0 <= i < |b.accounts| ==>
      (Placed(b.accounts[i].id, chat) in b.placed
       <==> Rank(b.accounts, b.accounts[i].bot, i) < multiset(pairs)[(b.accounts[i].bot, chat)])
  }

  /** The bot has as many accounts as its most repeated chat needs, or one. */
  ghost predicate Tight(b: Books, pairs: seq<(nat, int)>, bot: nat) {
    && (forall chat :: multiset(pairs)[(bot, chat)] <= Number(b.accounts, bot))
    && (Number(b.accounts, bot) == 1 || exists chat :: multiset(pairs)[(bot, chat)] == Number(b.accounts, bot))
  }

  predicate OnOwnBot(b: Books, pairs: seq<(nat, int)>) {
    && |b.placed| == |pairs|
    && forall k :: 0 <= k < |pairs| ==>
         && b.placed[k].chat == pairs[k].1
         && exists i :: 0 <= i < |b.accounts| && b.accounts[i] == Account(b.placed[k].account, pairs[k].0)
  }

  predicate Once(b: Books) {
    forall i, j :: 0 <= i < j < |b.placed| ==> b.placed[i] != b.placed[j]
  }

  ghost predicate Kept(b: Books, pairs: seq<(nat, int)>, bots: set<nat>) {
    && Ascending(b) && Filled(b, pairs) && OnOwnBot(b, pairs) && Once(b)
    && forall bot :: bot in bots ==> Tight(b, pairs, bot)
  }

  /** Where the first account without the chat is found. */
  lemma {:induction false} FreeAtRank(b: Books, pairs: seq<(nat, int)>, bot: nat, chat: int, k: nat)
    requires Filled(b, pairs) && k <= |b.accounts|
    requires Rank(b.accounts, bot, k) <= multiset(pairs)[(bot, chat)]
    ensures var m, free := multiset(pairs)[(bot, chat)], FirstFree(b, bot, chat, k);
            && (free.Some? <==> m < Number(b.accounts, bot))
            && (free.Some? ==> free.value < |b.accounts| && b.accounts[free.value].bot == bot
                               && Rank(b.accounts, bot, free.value) == m)
    decreases |b.accounts| - k
  {
    if k < |b.accounts| {
      assert Placed(b.accounts[k].id, chat) in b.placed
             <==> Rank(b.accounts, b.accounts[k].bot, k) < multiset(pairs)[(b.accounts[k].bot, chat)];
      if b.accounts[k].bot == bot && Placed(b.accounts[k].id, chat) !in b.placed {
        RankGrows(b.accounts, bot, k, |b.accounts|);
      } else {
        assert Rank(b.accounts, bot, k + 1) <= multiset(pairs)[(bot, chat)];
        FreeAtRank(b, pairs, bot, chat, k + 1);
      }
    }
  }

  lemma CountsStep(pairs: seq<(nat, int)>, pair: (nat, int))
    ensures forall x :: multiset(pairs + [pair])[x] == multiset(pairs)[x] + if x == pair then 1 else 0
  {
    assert multiset(pairs + [pair]) == multiset(pairs) + multiset([pair]);
  }

  lemma OldFilled(b: Books, pairs: seq<(nat, int)>, bot: nat, chat: int, f: nat, i: nat, c: int)
    requires Ascending(b) && Filled(b, pairs) && f < |b.accounts| && i < |b.accounts|
    requires b.accounts[f].bot == bot && Rank(b.accounts, bot, f) == multiset(pairs)[(bot, chat)]
    ensures Placed(b.accounts[i].id, c) in b.placed + [Placed(b.accounts[f].id, chat)]
            <==> Rank(b.accounts, b.accounts[i].bot, i) < multiset(pairs + [(bot, chat)])[(b.accounts[i].bot, c)]
  {
    CountsStep(pairs, (bot, chat));
    assert Placed(b.accounts[i].id, c) in b.placed
           <==> Rank(b.accounts, b.accounts[i].bot, i) < multiset(pairs)[(b.accounts[i].bot, c)];
    if i < f { RankGrows(b.accounts, b.accounts[i].bot, i, f); }
    if f < i { RankGrows(b.accounts, bot, f, i); }
  }

  lemma OldAllFilled(b: Books, pairs: seq<(nat, int)>, bot: nat, chat: int, f: nat)
    requires Ascending(b) && Filled(b, pairs) && f < |b.accounts|
    requires b.accounts[f].bot == bot && Rank(b.accounts, bot, f) == multiset(pairs)[(bot, chat)]
    ensures Filled(b.(placed := b.placed + [Placed(b.accounts[f].id, chat)]), pairs + [(bot, chat)])
  {
    forall i, c | 0 <= i < |b.accounts|
      ensures Placed(b.accounts[i].id, c) in b.placed + [Placed(b.accounts[f].id, chat)]
              <==> Rank(b.accounts, b.accounts[i].bot, i) < multiset(pairs + [(bot, chat)])[(b.accounts[i].bot, c)]
    {
      OldFilled(b, pairs, bot, chat, f, i, c);
    }
  }

  lemma OldOwn(b: Books, pairs: seq<(nat, int)>, bot: nat, chat: int, f: nat)
    requires OnOwnBot(b, pairs) && f < |b.accounts| && b.accounts[f].bot == bot
    ensures OnOwnBot(b.(placed := b.placed + [Placed(b.accounts[f].id, chat)]), pairs + [(bot, chat)])
  {
    var b' := b.(placed := b.placed + [Placed(b.accounts[f].id, chat)]);
    var pairs' := pairs + [(bot, chat)];
    forall k | 0 <= k < |pairs'|
      ensures exists i :: 0 <= i < |b'.accounts| && b'.accounts[i] == Account(b'.placed[k].account, pairs'[k].0)
    {
      if k == |pairs| { assert b'.accounts[f] == Account(b'.placed[k].account, pairs'[k].0); }
    }
  }

  lemma StillOnce(placed: seq<Placed>, p: Placed)
    requires p !in placed && forall i, j :: 0 <= i < j < |placed| ==> placed[i] != placed[j]
    ensures forall i, j :: 0 <= i < j < |placed + [p]| ==> (placed + [p])[i] != (placed + [p])[j]
  {
  }

  lemma OldAccount(b: Books, pairs: seq<(nat, int)>, bots: set<nat>, bot: nat, chat: int)
    requires Kept(b, pairs, bots) && bot in bots && FirstFree(b, bot, chat, 0).Some?
    ensures Kept(Place(b, bot, chat), pairs + [(bot, chat)], bots)
  {
    FreeAtRank(b, pairs, bot, chat, 0);
    OldAccountAt(b, pairs, bots, bot, chat, FirstFree(b, bot, chat, 0).value);
  }

  lemma OldAccountAt(b: Books, pairs: seq<(nat, int)>, bots: set<nat>, bot: nat, chat: int, f: nat)
    requires Kept(b, pairs, bots) && f < |b.accounts| && b.accounts[f].bot == bot
    requires Rank(b.accounts, bot, f) == multiset(pairs)[(bot, chat)] < Number(b.accounts, bot)
    ensures Kept(b.(placed := b.placed + [Placed(b.accounts[f].id, chat)]), pairs + [(bot, chat)], bots)
  {
    var b', pairs' := b.(placed := b.placed + [Placed(b.accounts[f].id, chat)]), pairs + [(bot, chat)];
    OldAllFilled(b, pairs, bot, chat, f);
    assert Placed(b.accounts[f].id, chat) in b.placed
           <==> Rank(b.accounts, b.accounts[f].bot, f) < multiset(pairs)[(b.accounts[f].bot, chat)];
    StillOnce(b.placed, Placed(b.accounts[f].id, chat));
    OldOwn(b, pairs, bot, chat, f);
    CountsStep(pairs, (bot, chat));
    forall bot' | bot' in bots ensures Tight(b', pairs', bot') {
      TightStays(b, b', pairs, pairs', bot', bot, chat);
    }
  }

  lemma TightStays(b: Books, b': Books, pairs: seq<(nat, int)>, pairs': seq<(nat, int)>, bot': nat, bot: nat, chat: int)
    requires Tight(b, pairs, bot') && b'.accounts == b.accounts
    requires forall x :: multiset(pairs')[x] == multiset(pairs)[x] + if x == (bot, chat) then 1 else 0
    requires multiset(pairs)[(bot, chat)] < Number(b.accounts, bot)
    ensures Tight(b', pairs', bot')
  {
    if Number(b.accounts, bot') != 1 {
      var c :| multiset(pairs)[(bot', c)] == Number(b.accounts, bot');
      assert (bot', c) != (bot, chat);
      assert multiset(pairs')[(bot', c)] == Number(b'.accounts, bot');
    }
  }

  lemma NewTight(b: Books, pairs: seq<(nat, int)>, bot: nat, chat: int, bot': nat)
    requires Tight(b, pairs, bot') && multiset(pairs)[(bot, chat)] == Number(b.accounts, bot)
    ensures Tight(b.(accounts := b.accounts + [Account(b.nextId, bot)]), pairs + [(bot, chat)], bot')
  {
    var accounts', pairs' := b.accounts + [Account(b.nextId, bot)], pairs + [(bot, chat)];
    CountsStep(pairs, (bot, chat));
    RankOfLonger(b.accounts, Account(b.nextId, bot), bot', |b.accounts|);
    if bot' == bot {
      assert multiset(pairs')[(bot, chat)] == Number(accounts', bot);
    } else if Number(b.accounts, bot') != 1 {
      var c :| multiset(pairs)[(bot', c)] == Number(b.accounts, bot');
      assert multiset(pairs')[(bot', c)] == Number(accounts', bot');
    }
  }

  lemma NewAccount(b: Books, pairs: seq<(nat, int)>, bots: set<nat>, bot: nat, chat: int)
    requires Kept(b, pairs, bots) && bot in bots && FirstFree(b, bot, chat, 0).None?
    ensures Kept(Place(b, bot, chat), pairs + [(bot, chat)], bots)
  {
    var b', pairs' := Place(b, bot, chat), pairs + [(bot, chat)];
    FreeAtRank(b, pairs, bot, chat, 0);
    assert Tight(b, pairs, bot);
    assert multiset(pairs)[(bot, chat)] == Number(b.accounts, bot);
    forall i, c | 0 <= i < |b'.accounts|
      ensures Placed(b'.accounts[i].id, c) in b'.placed
              <==> Rank(b'.accounts, b'.accounts[i].bot, i) < multiset(pairs')[(b'.accounts[i].bot, c)]
    {
      NewFilled(b, pairs, bot, chat, i, c);
    }
    assert Filled(b', pairs');
    NewOwn(b, pairs, bot, chat);
    assert Placed(b.nextId, chat) !in b.placed;
    StillOnce(b.placed, Placed(b.nextId, chat));
    NewAscending(b, bot, chat);
    forall bot' | bot' in bots ensures Tight(b', pairs', bot') {
      NewTight(b, pairs, bot, chat, bot');
    }
  }

  lemma NewAscending(b: Books, bot: nat, chat: int)
    requires Ascending(b) && FirstFree(b, bot, chat, 0).None?
    ensures Ascending(Place(b, bot, chat))
  {
  }

  lemma NewFilled(b: Books, pairs: seq<(nat, int)>, bot: nat, chat: int, i: nat, c: int)
    requires Ascending(b) && Filled(b, pairs) && Tight(b, pairs, bot) && FirstFree(b, bot, chat, 0).None?
    requires multiset(pairs)[(bot, chat)] == Number(b.accounts, bot)
    requires i < |Place(b, bot, chat).accounts|
    ensures var b', pairs' := Place(b, bot, chat), pairs + [(bot, chat)];
            Placed(b'.accounts[i].id, c) in b'.placed
            <==> Rank(b'.accounts, b'.accounts[i].bot, i) < multiset(pairs')[(b'.accounts[i].bot, c)]
  {
    var n := |b.accounts|;
    CountsStep(pairs, (bot, chat));
    RankOfLonger(b.accounts, Account(b.nextId, bot), if i < n then b.accounts[i].bot else bot, i);
    if i < n {
      RankGrows(b.accounts, b.accounts[i].bot, i, n);
      assert Placed(b.accounts[i].id, c) in b.placed
             <==> Rank(b.accounts, b.accounts[i].bot, i) < multiset(pairs)[(b.accounts[i].bot, c)];
    } else {
      assert Placed(b.nextId, c) !in b.placed;
    }
  }

  lemma NewOwn(b: Books, pairs: seq<(nat, int)>, bot: nat, chat: int)
    requires OnOwnBot(b, pairs) && FirstFree(b, bot, chat, 0).None?
    ensures OnOwnBot(Place(b, bot, chat), pairs + [(bot, chat)])
  {
    var b', pairs' := Place(b, bot, chat), pairs + [(bot, chat)];
    forall k | 0 <= k < |pairs'|
      ensures exists i :: 0 <= i < |b'.accounts| && b'.accounts[i] == Account(b'.placed[k].account, pairs'[k].0)
    {
      if k < |pairs| {
        var i :| 0 <= i < |b.accounts| && b.accounts[i] == Account(b.placed[k].account, pairs[k].0);
        assert b'.accounts[i] == b.accounts[i];
      } else {
        assert b'.accounts[|b.accounts|] == Account(b.nextId, bot);
      }
    }
  }

  lemma PlaceKeeps(b: Books, pairs: seq<(nat, int)>, bots: set<nat>, bot: nat, chat: int)
    requires Kept(b, pairs, bots) && bot in bots
    ensures Kept(Place(b, bot, chat), pairs + [(bot, chat)], bots)
  {
    if FirstFree(b, bot, chat, 0).Some? {
      OldAccount(b, pairs, bots, bot, chat);
    } else {
      NewAccount(b, pairs, bots, bot, chat);
    }
  }

  // ------------------------------------------------------------------- main result

  /** One account per bot, ascending, as the loop over the bots leaves them. */
  predicate OneEach(b: Books, bots: set<nat>) {
    && Ascending(b) && b.placed == []
    && (forall bot :: bot in bots ==> Number(b.accounts, bot) == 1)
  }

  lemma NothingPlaced(b: Books, bots: set<nat>)
    requires OneEach(b, bots)
    ensures Kept(b, [], bots)
  {
    var none: seq<(nat, int)> := [];
    assert forall x :: multiset(none)[x] == 0;
    assert forall bot :: bot in bots ==> Tight(b, none, bot);
  }

  lemma LastPlaced(b: Books, pairs: seq<(nat, int)>)
    requires pairs != []
    ensures var n := |pairs| - 1;
            && PlaceAll(b, pairs) == Place(PlaceAll(b, pairs[..n]), pairs[n].0, pairs[n].1)
            && pairs == pairs[..n] + [(pairs[n].0, pairs[n].1)]
  {
  }

  lemma {:induction false} PlaceAllKeeps(b: Books, pairs: seq<(nat, int)>, bots: set<nat>)
    requires OneEach(b, bots) && forall k :: 0 <= k < |pairs| ==> pairs[k].0 in bots
    ensures Kept(PlaceAll(b, pairs), pairs, bots)
    decreases |pairs|
  {
    if pairs == [] {
      NothingPlaced(b, bots);
    } else {
      var n := |pairs| - 1;
      PlaceAllKeeps(b, pairs[..n], bots);
      LastPlaced(b, pairs);
      PlaceKeeps(PlaceAll(b, pairs[..n]), pairs[..n], bots, pairs[n].0, pairs[n].1);
    }
  }

  /** No account gets one chat twice, every destination is on an account of its own
      bot, and a bot ends with exactly as many accounts as its most repeated chat
      needs, but at least one. */
  lemma AliasesAreMinimal(b: Books, pairs: seq<(nat, int)>, bots: set<nat>)
    requires OneEach(b, bots) && forall k :: 0 <= k < |pairs| ==> pairs[k].0 in bots
    ensures var b' := PlaceAll(b, pairs);
            && Once(b') && OnOwnBot(b', pairs) && Ascending(b')
            && forall bot :: bot in bots ==> Tight(b', pairs, bot) && Number(b'.accounts, bot) >= 1
  {
    PlaceAllKeeps(b, pairs, bots);
    var b' := PlaceAll(b, pairs);
    forall bot | bot in bots ensures Number(b'.accounts, bot) >= 1 {
      NumberGrows(b, pairs, bot);
    }
  }

  lemma {:induction false} NumberGrows(b: Books, pairs: seq<(nat, int)>, bot: nat)
    ensures Number(b.accounts, bot) <= Number(PlaceAll(b, pairs).accounts, bot)
    decreases |pairs|
  {
    if pairs != [] {
      var n := |pairs| - 1;
      NumberGrows(b, pairs[..n], bot);
      var before := PlaceAll(b, pairs[..n]);
      RankOfLonger(before.accounts, Account(before.nextId, pairs[n].0), bot, |before.accounts|);
    }
  }
}
