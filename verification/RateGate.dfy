/** Telegram rate limits: one durable deadline per physical bot and one per account,
    an in-memory copy that a restart loses, and the check before every send. */
module RateGates {
  import opened Prelude

  /** The account a delivery goes through and the Telegram identity in its token;
      0 or less: the token carries none. Times are instants; 0 stands for none. */
  datatype Target = Target(account: int, bot: int)

  datatype State = State(physical: map<int, nat>, accounts: map<int, nat>, memory: map<int, nat>)

  const EMPTY := State(map[], map[], map[])

  function Stored(m: map<int, nat>, key: int): nat {
    if key in m then m[key] else 0
  }

  /** setGatewayRateLimit: a later stored deadline wins. */
  function Raised(m: map<int, nat>, key: int, deadline: nat): map<int, nat> {
    if key in m && m[key] > deadline then m else m[key := deadline]
  }

  /** The memory gate is only ever raised. */
  function Remembered(m: map<int, nat>, key: int, deadline: nat): map<int, nat> {
    if deadline > Stored(m, key) then m[key := deadline] else m
  }

  /** botGate. */
  function Gate(s: State, t: Target): nat {
    var durable := if t.bot > 0 && Stored(s.physical, t.bot) > Stored(s.accounts, t.account)
                   then Stored(s.physical, t.bot) else Stored(s.accounts, t.account);
    if durable > Stored(s.memory, t.account) then durable else Stored(s.memory, t.account)
  }

  /** How far a call of setBotGate gets before a store error or a crash. */
  datatype Reach = Nothing | PhysicalOnly | Durable | All

  function Limited(s: State, t: Target, deadline: nat, reach: Reach): State {
    if reach == Nothing then s
    else
      var physical := if t.bot > 0 then Raised(s.physical, t.bot, deadline) else s.physical;
      if reach == PhysicalOnly then s.(physical := physical)
      else
        var accounts := Raised(s.accounts, t.account, deadline);
        if reach == Durable then s.(physical := physical, accounts := accounts)
        else State(physical, accounts, Remembered(s.memory, t.account, deadline))
  }

  datatype Event =
    | Limit(target: Target, deadline: nat, reach: Reach)
    | Send(target: Target, now: nat)      // the worker reaches the gate with this clock
    | Restart

  function Next(s: State, e: Event): State {
    match e
    case Limit(target, deadline, reach) => Limited(s, target, deadline, reach)
    case Send(_, _) => s
    case Restart => s.(memory := map[])
  }

  /** Whether the send starts: the clock is not before the gate. */
  predicate Starts(s: State, e: Event) {
    e.Send? && e.now >= Gate(s, e.target)
  }

  function Run(s: State, events: seq<Event>): State
    decreases |events|
  {
    if events == [] then s else Run(Next(s, events[0]), events[1..])
  }

  /** The service object: its map under a lock, and the two tables. */
  class Service {
    var physical: map<int, nat>
    var accounts: map<int, nat>
    var botGates: map<int, nat>

    constructor ()
      ensures View() == EMPTY && MemoryBelow(View())
    {
      physical, accounts, botGates := map[], map[], map[];
    }

    function View(): State
      reads this
    {
      State(physical, accounts, botGates)
    }

    /** botGate: with the durable gates at hand the memory gate adds nothing. */
    method BotGate(t: Target) returns (gate: nat)
      requires MemoryBelow(View())
      ensures gate == Gate(View(), t)
      ensures gate == Max(Stored(accounts, t.account), if t.bot > 0 then Stored(physical, t.bot) else 0)
    {
      var memoryGate := Stored(botGates, t.account);
      var durableGate := Stored(accounts, t.account);
      if t.bot > 0 {
        var other := Stored(physical, t.bot);
        if other > durableGate { durableGate := other; }
      }
      gate := if durableGate > memoryGate then durableGate else memoryGate;
    }

    /** setBotGate; reach says which of its three writes happen. */
    method SetBotGate(t: Target, deadline: nat, reach: Reach)
      requires MemoryBelow(View())
      modifies this
      ensures View() == Limited(old(View()), t, deadline, reach)
      ensures MemoryBelow(View()) && NotLower(old(View()), View())
    {
      LimitedKeeps(View(), t, deadline, reach);
      if reach == Nothing { return; }
      if t.bot > 0 && !(t.bot in physical && physical[t.bot] > deadline) {
        physical := physical[t.bot := deadline];
      }
      if reach == PhysicalOnly { return; }
      if !(t.account in accounts && accounts[t.account] > deadline) {
        accounts := accounts[t.account := deadline];
      }
      if reach == Durable { return; }
      if deadline > Stored(botGates, t.account) {
        botGates := botGates[t.account := deadline];
      }
    }
  }

  /** No in-memory gate is above the account's durable one. */
  predicate MemoryBelow(s: State) {
    forall a :: a in s.memory ==> s.memory[a] <= Stored(s.accounts, a)
  }

  /** No stored deadline went down. */
  predicate NotLower(s: State, t: State) {
    && (forall b :: b in s.physical ==> s.physical[b] <= Stored(t.physical, b))
    && (forall a :: a in s.accounts ==> s.accounts[a] <= Stored(t.accounts, a))
  }

  lemma LimitedKeeps(s: State, t: Target, deadline: nat, reach: Reach)
    requires MemoryBelow(s)
    ensures MemoryBelow(Limited(s, t, deadline, reach)) && NotLower(s, Limited(s, t, deadline, reach))
  {
  }

  lemma NextKeeps(s: State, e: Event)
    requires MemoryBelow(s)
    ensures MemoryBelow(Next(s, e)) && NotLower(s, Next(s, e))
  {
    if e.Limit? { LimitedKeeps(s, e.target, e.deadline, e.reach); }
  }

  lemma {:induction false} RunKeeps(s: State, events: seq<Event>)
    requires MemoryBelow(s)
    ensures MemoryBelow(Run(s, events)) && NotLower(s, Run(s, events))
    decreases |events|
  {
    if events != [] {
      var next := Next(s, events[0]);
      NextKeeps(s, events[0]);
      RunKeeps(next, events[1..]);
      Chain(s, next, Run(s, events));
    }
  }

  lemma Chain(s: State, t: State, u: State)
    requires NotLower(s, t) && NotLower(t, u)
    ensures NotLower(s, u)
  {
    forall b | b in s.physical ensures s.physical[b] <= Stored(u.physical, b) {
      assert s.physical[b] <= Stored(t.physical, b);
    }
    forall a | a in s.accounts ensures s.accounts[a] <= Stored(u.accounts, a) {
      assert s.accounts[a] <= Stored(t.accounts, a);
    }
  }

  // ------------------------------------------------------------------- main results

  /** In every run, with any failures and restarts, the gate is the greater of the two
      durable deadlines: what a restart forgets was never needed. */
  lemma GateIsDurable(events: seq<Event>, t: Target)
    ensures var s := Run(EMPTY, events);
            && Gate(s, t) == Max(Stored(s.accounts, t.account), if t.bot > 0 then Stored(s.physical, t.bot) else 0)
            && Gate(Next(s, Restart), t) == Gate(s, t)
  {
    RunKeeps(EMPTY, events);
  }

  /** Once a limit reached the table of the physical bot, no later send through any
      account of that bot starts before the deadline; once it reached the account's
      table, no later send through that account does. */
  lemma NoSendBeforeDeadline(s: State, limit: Event, between: seq<Event>, send: Event)
    requires MemoryBelow(s) && limit.Limit? && limit.reach != Nothing
    requires Starts(Run(Next(s, limit), between), send)
    ensures send.target.bot == limit.target.bot && limit.target.bot > 0 ==> limit.deadline <= send.now
    ensures send.target.account == limit.target.account && limit.reach != PhysicalOnly ==> limit.deadline <= send.now
  {
    var t := Next(s, limit);
    LimitedKeeps(s, limit.target, limit.deadline, limit.reach);
    RunKeeps(t, between);
    if limit.target.bot > 0 {
      assert limit.target.bot in t.physical && t.physical[limit.target.bot] >= limit.deadline;
    }
    if limit.reach != PhysicalOnly {
      assert limit.target.account in t.accounts && t.accounts[limit.target.account] >= limit.deadline;
    }
  }

  /** And nothing else holds a send back: it starts exactly when both durable
      deadlines have passed. */
  lemma StartsExactlyAfterDeadlines(events: seq<Event>, target: Target, now: nat)
    ensures var s := Run(EMPTY, events);
            Starts(s, Send(target, now))
            <==> Stored(s.accounts, target.account) <= now && (target.bot > 0 ==> Stored(s.physical, target.bot) <= now)
  {
    RunKeeps(EMPTY, events);
  }

  /** The run had a limit that reached this table with this deadline. */
  predicate BotLimitedIn(events: seq<Event>, bot: int, deadline: nat) {
    exists e :: e in events && e.Limit? && e.reach != Nothing && e.target.bot == bot && e.deadline == deadline
  }

  predicate AccountLimitedIn(events: seq<Event>, account: int, deadline: nat) {
    exists e :: e in events && e.Limit? && (e.reach == Durable || e.reach == All) && e.target.account == account
                && e.deadline == deadline
  }

  /** Every stored deadline is one that was set. */
  predicate AllSet(past: seq<Event>, s: State) {
    && (forall b :: b in s.physical ==> BotLimitedIn(past, b, s.physical[b]))
    && (forall a :: a in s.accounts ==> AccountLimitedIn(past, a, s.accounts[a]))
  }

  lemma SetStep(past: seq<Event>, s: State, e: Event)
    requires AllSet(past, s)
    ensures AllSet(past + [e], Next(s, e))
  {
    var t, now := Next(s, e), past + [e];
    assert forall d :: d in past ==> d in now;
    forall b | b in t.physical ensures BotLimitedIn(now, b, t.physical[b]) {
      if b in s.physical && t.physical[b] == s.physical[b] {
        var d :| d in past && d.Limit? && d.reach != Nothing && d.target.bot == b && d.deadline == s.physical[b];
        assert d in now;
      } else {
        assert e in now;
      }
    }
    forall a | a in t.accounts ensures AccountLimitedIn(now, a, t.accounts[a]) {
      if a in s.accounts && t.accounts[a] == s.accounts[a] {
        var d :| d in past && d.Limit? && (d.reach == Durable || d.reach == All) && d.target.account == a
                 && d.deadline == s.accounts[a];
        assert d in now;
      } else {
        assert e in now;
      }
    }
  }

  lemma {:induction false} RunSet(past: seq<Event>, s: State, events: seq<Event>)
    requires AllSet(past, s)
    ensures AllSet(past + events, Run(s, events))
    decreases |events|
  {
    if events == [] {
      assert past + events == past;
    } else {
      SetStep(past, s, events[0]);
      RunSet(past + [events[0]], Next(s, events[0]), events[1..]);
      assert past + [events[0]] + events[1..] == past + events;
    }
  }

  /** A send is held back only by a later deadline that some limit of the run set for
      its physical bot or for its account. */
  lemma HeldBackByALimit(events: seq<Event>, target: Target, now: nat)
    requires !Starts(Run(EMPTY, events), Send(target, now))
    ensures || (target.bot > 0 && exists deadline :: deadline > now && BotLimitedIn(events, target.bot, deadline))
            || exists deadline :: deadline > now && AccountLimitedIn(events, target.account, deadline)
  {
    var s := Run(EMPTY, events);
    StartsExactlyAfterDeadlines(events, target, now);
    RunSet([], EMPTY, events);
    assert [] + events == events;
    if Stored(s.accounts, target.account) > now {
      assert AccountLimitedIn(events, target.account, s.accounts[target.account]);
    } else {
      assert BotLimitedIn(events, target.bot, s.physical[target.bot]);
    }
  }
}
