/** The quote and escape splitter of a management request: the loop of the parser,
    and the grammar it turns out to accept. Text is a sequence of code points. */
module Arguments {
  import opened Prelude

  type Rune = nat

  const SINGLE := 0x27
  const DOUBLE := 0x22
  const BACKSLASH := 0x5c

  const MAX_INPUT := 64 * 1024 + 1024
  const MAX_ARGUMENTS := 128
  const MAX_ARGUMENT := 4096
  const MAX_TOTAL := 64 * 1024

  datatype Text = Utf8(runes: seq<Rune>) | NotUtf8

  function Width(r: Rune): nat {
    if r < 0x80 then 1 else if r < 0x800 then 2 else if r < 0x10000 then 3 else 4
  }

  /** The length in UTF-8. */
  function Bytes(s: seq<Rune>): nat {
    if s == [] then 0 else Width(s[0]) + Bytes(s[1..])
  }

  /** White space as Unicode defines it. */
  predicate IsSpace(r: Rune) {
    || 0x09 <= r <= 0x0d || r == 0x20 || r == 0x85 || r == 0xa0 || r == 0x1680
    || 0x2000 <= r <= 0x200a || r == 0x2028 || r == 0x2029 || r == 0x202f || r == 0x205f || r == 0x3000
  }

  predicate Blank(s: seq<Rune>) {
    forall r :: r in s ==> IsSpace(r)
  }

  predicate Allowed(r: Rune) {
    r >= 32 && r != 127
  }

  datatype Quote = NoQuote | Single | Double

  datatype State = State(args: seq<seq<Rune>>, token: seq<Rune>, quote: Quote, escaped: bool, started: bool)

  const START := State([], [], NoQuote, false, false)

  function Mark(q: Quote): Rune {
    if q == Single then SINGLE else DOUBLE
  }

  predicate Fine(arg: seq<Rune>) {
    !Blank(arg) && Bytes(arg) <= MAX_ARGUMENT
  }

  function Flushed(s: State): Option<State> {
    if !s.started then Some(s)
    else if !Fine(s.token) || |s.args| >= MAX_ARGUMENTS then None
    else Some(s.(args := s.args + [s.token], token := [], started := false))
  }

  function Fed(s: State, r: Rune): Option<State> {
    if !Allowed(r) then None
    else if s.escaped then Some(s.(token := s.token + [r], escaped := false, started := true))
    else if r == BACKSLASH && s.quote != Single then Some(s.(escaped := true, started := true))
    else if s.quote != NoQuote then
      Some(if r == Mark(s.quote) then s.(quote := NoQuote) else s.(token := s.token + [r]))
    else if r == SINGLE then Some(s.(quote := Single, started := true))
    else if r == DOUBLE then Some(s.(quote := Double, started := true))
    else if IsSpace(r) then Flushed(s)
    else Some(s.(token := s.token + [r], started := true))
  }

  function FedAll(s: State, text: seq<Rune>): Option<State>
    decreases |text|
  {
    if text == [] then Some(s)
    else match Fed(s, text[0])
      case None => None
      case Some(next) => FedAll(next, text[1..])
  }

  function Total(args: seq<seq<Rune>>): nat {
    if args == [] then 0 else Bytes(args[0]) + Total(args[1..])
  }

  function Finished(s: State): Option<seq<seq<Rune>>> {
    if s.escaped || s.quote != NoQuote then None
    else match Flushed(s)
      case None => None
      case Some(last) => if last.args == [] || Total(last.args) > MAX_TOTAL then None else Some(last.args)
  }

  /** None: invalid_request. */
  function Split(text: Text): Option<seq<seq<Rune>>> {
    if text.NotUtf8? || Bytes(text.runes) > MAX_INPUT then None
    else match FedAll(START, text.runes)
      case None => None
      case Some(s) => Finished(s)
  }

  method Measure(s: seq<Rune>) returns (n: nat)
    ensures n == Bytes(s)
  {
    n := 0;
    var k := 0;
    while k < |s|
      invariant 0 <= k <= |s|
      invariant Bytes(s) == n + Bytes(s[k..])
    {
      assert s[k..][1..] == s[k + 1..];
      n := n + Width(s[k]);
      k := k + 1;
    }
  }

  method AllSpace(s: seq<Rune>) returns (blank: bool)
    ensures blank == Blank(s)
  {
    var k := 0;
    while k < |s|
      invariant 0 <= k <= |s| && Blank(s[..k])
    {
      if !IsSpace(s[k]) {
        assert s[k] in s;
        return false;
      }
      k := k + 1;
    }
    assert s[..k] == s;
    return true;
  }

  /** The variables the loop updates. */
  class Splitter {
    var args: seq<seq<Rune>>
    var token: seq<Rune>
    var quote: Quote
    var escaped: bool
    var started: bool

    constructor ()
      ensures View() == START
    {
      args, token, quote, escaped, started := [], [], NoQuote, false, false;
    }

    function View(): State
      reads this
    {
      State(args, token, quote, escaped, started)
    }

    method Flush() returns (ok: bool)
      modifies this
      ensures ok <==> Flushed(old(View())).Some?
      ensures ok ==> View() == Flushed(old(View())).value
    {
      if !started { return true; }
      var blank := AllSpace(token);
      var length := Measure(token);
      if blank || length > MAX_ARGUMENT { return false; }
      args := args + [token];
      token := [];
      started := false;
      return |args| <= MAX_ARGUMENTS;
    }

    method Feed(ch: Rune) returns (ok: bool)
      modifies this
      ensures ok <==> Fed(old(View()), ch).Some?
      ensures ok ==> View() == Fed(old(View()), ch).value
    {
      if ch < 32 || ch == 127 { return false; }
      if escaped {
        token := token + [ch];
        escaped := false;
        started := true;
        return true;
      }
      if ch == BACKSLASH && quote != Single {
        escaped := true;
        started := true;
        return true;
      }
      if quote != NoQuote {
        if ch == Mark(quote) { quote := NoQuote; } else { token := token + [ch]; }
        return true;
      }
      if ch == SINGLE || ch == DOUBLE {
        quote := if ch == SINGLE then Single else Double;
        started := true;
        return true;
      }
      if IsSpace(ch) {
        ok := Flush();
        return;
      }
      token := token + [ch];
      started := true;
      return true;
    }
  }

  method SplitManagementArguments(text: Text) returns (result: Option<seq<seq<Rune>>>)
    ensures result == Split(text)
  {
    if text.NotUtf8? { return None; }
    var length := Measure(text.runes);
    if length > MAX_INPUT { return None; }
    var p := new Splitter();
    var k := 0;
    while k < |text.runes|
      invariant 0 <= k <= |text.runes|
      invariant FedAll(START, text.runes) == FedAll(p.View(), text.runes[k..])
    {
      assert text.runes[k..][1..] == text.runes[k + 1..];
      var ok := p.Feed(text.runes[k]);
      if !ok { return None; }
      k := k + 1;
    }
    if p.escaped || p.quote != NoQuote { return None; }
    var ok := p.Flush();
    if !ok || p.args == [] { return None; }
    var total := AddUp(p.args);
    if total > MAX_TOTAL { return None; }
    return Some(p.args);
  }

  method AddUp(args: seq<seq<Rune>>) returns (total: nat)
    ensures total == Total(args)
  {
    total := 0;
    var k := 0;
    while k < |args|
      invariant 0 <= k <= |args|
      invariant Total(args) == total + Total(args[k..])
    {
      assert args[k..][1..] == args[k + 1..];
      var length := Measure(args[k]);
      total := total + length;
      k := k + 1;
    }
  }

  // ------------------------------------------------------------------ the grammar

  datatype Item = Raw(r: Rune) | Escape(r: Rune)

  /** What a line consists of. */
  datatype Atom =
    | Gap(r: Rune)
    | Bare(r: Rune)
    | Escaped(r: Rune)
    | SingleQuoted(content: seq<Rune>)
    | DoubleQuoted(items: seq<Item>)

  predicate ValidItem(i: Item) {
    Allowed(i.r) && (i.Raw? ==> i.r != DOUBLE && i.r != BACKSLASH)
  }

  predicate ValidAtom(a: Atom) {
    match a
    case Gap(r) => Allowed(r) && IsSpace(r)
    case Bare(r) => Allowed(r) && !IsSpace(r) && r != SINGLE && r != DOUBLE && r != BACKSLASH
    case Escaped(r) => Allowed(r)
    case SingleQuoted(content) => forall r :: r in content ==> Allowed(r) && r != SINGLE
    case DoubleQuoted(items) => forall i :: i in items ==> ValidItem(i)
  }

  function RenderItems(items: seq<Item>): seq<Rune> {
    if items == [] then []
    else RenderedItem(items[0]) + RenderItems(items[1..])
  }

  function RenderedItem(i: Item): seq<Rune> {
    if i.Raw? then [i.r] else [BACKSLASH, i.r]
  }

  function ItemsValue(items: seq<Item>): seq<Rune> {
    if items == [] then [] else [items[0].r] + ItemsValue(items[1..])
  }

  function Render(a: Atom): seq<Rune> {
    match a
    case Gap(r) => [r]
    case Bare(r) => [r]
    case Escaped(r) => [BACKSLASH, r]
    case SingleQuoted(content) => [SINGLE] + content + [SINGLE]
    case DoubleQuoted(items) => [DOUBLE] + RenderItems(items) + [DOUBLE]
  }

  function Value(a: Atom): seq<Rune> {
    match a
    case Gap(_) => []
    case Bare(r) => [r]
    case Escaped(r) => [r]
    case SingleQuoted(content) => content
    case DoubleQuoted(items) => ItemsValue(items)
  }

  function RenderAll(atoms: seq<Atom>): seq<Rune> {
    if atoms == [] then [] else Render(atoms[0]) + RenderAll(atoms[1..])
  }

  function ValueAll(atoms: seq<Atom>): seq<Rune> {
    if atoms == [] then [] else Value(atoms[0]) + ValueAll(atoms[1..])
  }

  predicate ValidLine(atoms: seq<Atom>) {
    forall a :: a in atoms ==> ValidAtom(a)
  }

  /** How many atoms come before the first gap. */
  function WordLength(atoms: seq<Atom>): (n: nat)
    ensures n <= |atoms|
  {
    if atoms == [] || atoms[0].Gap? then 0 else 1 + WordLength(atoms[1..])
  }

  /** The words of a line: the values between its gaps. */
  function Words(atoms: seq<Atom>): seq<seq<Rune>>
    decreases |atoms|
  {
    if atoms == [] then []
    else if atoms[0].Gap? then Words(atoms[1..])
    else [ValueAll(atoms[..WordLength(atoms)])] + Words(atoms[WordLength(atoms)..])
  }

  predicate Acceptable(args: seq<seq<Rune>>) {
    1 <= |args| <= MAX_ARGUMENTS && (forall a :: a in args ==> Fine(a)) && Total(args) <= MAX_TOTAL
  }

  // ------------------------------------------------------- feeding whole atoms

  lemma {:induction false} FedConcat(s: State, a: seq<Rune>, b: seq<Rune>)
    ensures FedAll(s, a + b) == if FedAll(s, a).None? then None else FedAll(FedAll(s, a).value, b)
    decreases |a|
  {
    if a == [] {
      assert a + b == b;
    } else {
      assert (a + b)[1..] == a[1..] + b;
      if Fed(s, a[0]).Some? { FedConcat(Fed(s, a[0]).value, a[1..], b); }
    }
  }

  predicate Resting(s: State) {
    s.quote == NoQuote && !s.escaped
  }

  lemma {:induction false} SingleContentFed(s: State, content: seq<Rune>)
    requires s.quote == Single && !s.escaped && forall r :: r in content ==> Allowed(r) && r != SINGLE
    ensures FedAll(s, content) == Some(s.(token := s.token + content))
    decreases |content|
  {
    if content == [] {
      assert s.token + content == s.token;
    } else {
      SingleContentFed(s.(token := s.token + [content[0]]), content[1..]);
      assert s.token + [content[0]] + content[1..] == s.token + content;
    }
  }

  lemma {:induction false} ItemsFed(s: State, items: seq<Item>)
    requires s.quote == Double && !s.escaped && s.started && forall i :: i in items ==> ValidItem(i)
    ensures FedAll(s, RenderItems(items)) == Some(s.(token := s.token + ItemsValue(items)))
    decreases |items|
  {
    if items == [] {
      assert s.token + [] == s.token;
    } else {
      assert items[0] in items;
      ItemsFed(s.(token := s.token + [items[0].r]), items[1..]);
      FirstItemFed(s, items);
    }
  }

  lemma FirstItemFed(s: State, items: seq<Item>)
    requires s.quote == Double && !s.escaped && s.started && items != [] && ValidItem(items[0])
    requires var next := s.(token := s.token + [items[0].r]);
             FedAll(next, RenderItems(items[1..])) == Some(next.(token := next.token + ItemsValue(items[1..])))
    ensures FedAll(s, RenderItems(items)) == Some(s.(token := s.token + ItemsValue(items)))
  {
    var head, rest := RenderedItem(items[0]), RenderItems(items[1..]);
    var next := s.(token := s.token + [items[0].r]);
    HeadFed(s, items[0]);
    ValueGrows(s.token, items);
    FedOn(s, head, next, rest, s.(token := s.token + ItemsValue(items)));
  }

  lemma ValueGrows(token: seq<Rune>, items: seq<Item>)
    requires items != []
    ensures token + [items[0].r] + ItemsValue(items[1..]) == token + ItemsValue(items)
  {
  }

  lemma FedOn(s: State, a: seq<Rune>, t: State, b: seq<Rune>, u: State)
    requires FedAll(s, a) == Some(t) && FedAll(t, b) == Some(u)
    ensures FedAll(s, a + b) == Some(u)
  {
    FedConcat(s, a, b);
  }

  lemma HeadFed(s: State, i: Item)
    requires s.quote == Double && !s.escaped && s.started && ValidItem(i)
    ensures FedAll(s, RenderedItem(i)) == Some(s.(token := s.token + [i.r]))
  {
    if i.Raw? { FedOne(s, i.r); } else { FedTwo(s, BACKSLASH, i.r); }
  }

  lemma FedOne(s: State, a: Rune)
    ensures FedAll(s, [a]) == Fed(s, a)
  {
    assert [a][1..] == [];
  }

  lemma FedTwo(s: State, a: Rune, b: Rune)
    ensures FedAll(s, [a, b]) == if Fed(s, a).None? then None else Fed(Fed(s, a).value, b)
  {
    assert [a, b][1..] == [b];
    if Fed(s, a).Some? { FedOne(Fed(s, a).value, b); }
  }

  /** What one atom does to a resting state. */
  function Taken(s: State, a: Atom): Option<State> {
    if a.Gap? then Flushed(s) else Some(s.(token := s.token + Value(a), started := true))
  }

  lemma AtomFed(s: State, a: Atom)
    requires Resting(s) && ValidAtom(a)
    ensures FedAll(s, Render(a)) == Taken(s, a)
  {
    match a
    case Gap(r) => FedOne(s, r);
    case Bare(r) => FedOne(s, r);
    case Escaped(r) => FedTwo(s, BACKSLASH, r);
    case SingleQuoted(content) =>
      var open := s.(quote := Single, started := true);
      FedOne(s, SINGLE);
      SingleContentFed(open, content);
      FedOne(open.(token := s.token + content), SINGLE);
      FedConcat(s, [SINGLE], content);
      FedConcat(s, [SINGLE] + content, [SINGLE]);
    case DoubleQuoted(items) =>
      var open := s.(quote := Double, started := true);
      FedOne(s, DOUBLE);
      ItemsFed(open, items);
      FedOne(open.(token := s.token + ItemsValue(items)), DOUBLE);
      FedConcat(s, [DOUBLE], RenderItems(items));
      FedConcat(s, [DOUBLE] + RenderItems(items), [DOUBLE]);
  }

  function TakenAll(s: State, atoms: seq<Atom>): Option<State>
    decreases |atoms|
  {
    if atoms == [] then Some(s)
    else match Taken(s, atoms[0])
      case None => None
      case Some(next) => TakenAll(next, atoms[1..])
  }

  lemma {:induction false} LineFed(s: State, atoms: seq<Atom>)
    requires Resting(s) && ValidLine(atoms)
    ensures FedAll(s, RenderAll(atoms)) == TakenAll(s, atoms)
    ensures TakenAll(s, atoms).Some? ==> Resting(TakenAll(s, atoms).value)
    decreases |atoms|
  {
    if atoms != [] {
      assert atoms[0] in atoms;
      AtomFed(s, atoms[0]);
      FedConcat(s, Render(atoms[0]), RenderAll(atoms[1..]));
      if Taken(s, atoms[0]).Some? { LineFed(Taken(s, atoms[0]).value, atoms[1..]); }
    }
  }

  // ------------------------------------------------------ atoms are read as words

  /** The arguments once the line has ended. */
  function Ending(s: State, atoms: seq<Atom>): Option<seq<seq<Rune>>> {
    match TakenAll(s, atoms)
    case None => None
    case Some(z) => if Flushed(z).None? then None else Some(Flushed(z).value.args)
  }

  /** The words still to come, the started one included. */
  function Pending(s: State, atoms: seq<Atom>): seq<seq<Rune>> {
    if s.started then [s.token + ValueAll(atoms[..WordLength(atoms)])] + Words(atoms[WordLength(atoms)..])
    else Words(atoms)
  }

  predicate Proper(s: State) {
    Resting(s) && |s.args| <= MAX_ARGUMENTS && (s.started || s.token == [])
  }

  function Appended(args: seq<seq<Rune>>, words: seq<seq<Rune>>): Option<seq<seq<Rune>>> {
    if |args| + |words| <= MAX_ARGUMENTS && forall a :: a in words ==> Fine(a) then Some(args + words) else None
  }

  lemma AppendedStep(args: seq<seq<Rune>>, word: seq<Rune>, words: seq<seq<Rune>>)
    requires |args| <= MAX_ARGUMENTS
    ensures Appended(args, [word] + words) ==
            if Fine(word) && |args| < MAX_ARGUMENTS then Appended(args + [word], words) else None
  {
    assert args + ([word] + words) == args + [word] + words;
    assert word in [word] + words;
    assert forall a :: a in [word] + words <==> a == word || a in words;
  }

  lemma PendingAtGap(s: State, atoms: seq<Atom>)
    requires atoms != [] && atoms[0].Gap?
    ensures Pending(s, atoms) == (if s.started then [s.token] else []) + Words(atoms[1..])
  {
    assert atoms[..0] == [] && atoms[0..] == atoms;
    assert s.token + [] == s.token;
  }

  lemma PendingAtWord(s: State, atoms: seq<Atom>)
    requires atoms != [] && !atoms[0].Gap? && (s.started || s.token == [])
    ensures Pending(s, atoms) == Pending(s.(token := s.token + Value(atoms[0]), started := true), atoms[1..])
  {
    var n := WordLength(atoms[1..]);
    assert WordLength(atoms) == n + 1;
    WordCut(atoms, n);
    var own, more := Value(atoms[0]), ValueAll(atoms[1..][..n]);
    assert s.token + (own + more) == s.token + own + more;
    if !s.started {
      assert s.token + own + more == own + more;
      assert Words(atoms) == [own + more] + Words(atoms[1..][n..]);
    }
  }

  lemma WordCut(atoms: seq<Atom>, n: nat)
    requires atoms != [] && n < |atoms|
    ensures atoms[n + 1..] == atoms[1..][n..]
    ensures ValueAll(atoms[..n + 1]) == Value(atoms[0]) + ValueAll(atoms[1..][..n])
  {
    assert atoms[..n + 1][1..] == atoms[1..][..n];
  }

  lemma {:induction false} EndingIsWords(s: State, atoms: seq<Atom>)
    requires Proper(s)
    ensures Ending(s, atoms) == Appended(s.args, Pending(s, atoms))
    decreases |atoms|
  {
    if atoms == [] {
      EndOfLine(s);
    } else if atoms[0].Gap? {
      PendingAtGap(s, atoms);
      if s.started { AppendedStep(s.args, s.token, Words(atoms[1..])); }
      if Flushed(s).Some? {
        EndingIsWords(Flushed(s).value, atoms[1..]);
      }
      assert [] + Words(atoms[1..]) == Words(atoms[1..]);
    } else {
      PendingAtWord(s, atoms);
      EndingIsWords(Taken(s, atoms[0]).value, atoms[1..]);
    }
  }

  lemma EndOfLine(s: State)
    requires Proper(s)
    ensures Ending(s, []) == Appended(s.args, Pending(s, []))
  {
    var none: seq<Atom> := [];
    assert none[..0] == none && none[0..] == none;
    assert s.token + [] == s.token && s.args + [] == s.args;
    if s.started {
      assert Pending(s, none) == [s.token] + [];
      AppendedStep(s.args, s.token, []);
      assert s.args + [s.token] + [] == s.args + [s.token];
    }
  }

  /** Every line of the grammar is read as its words, and is refused exactly when it
      is too long or its words break a limit. */
  lemma SplitReadsLine(atoms: seq<Atom>)
    requires ValidLine(atoms)
    ensures Split(Utf8(RenderAll(atoms))) ==
            if Bytes(RenderAll(atoms)) <= MAX_INPUT && Acceptable(Words(atoms)) then Some(Words(atoms)) else None
  {
    LineFed(START, atoms);
    EndingIsWords(START, atoms);
    assert [] + Words(atoms) == Words(atoms);
  }

  // -------------------------------------------------- the grammar misses no line

  /** The single-quoted string s is in closes, at n. */
  lemma {:induction false} SingleCloses(s: State, text: seq<Rune>) returns (n: nat, t: State)
    requires s.quote == Single && !s.escaped && s.started && FedAll(s, text).Some? && Resting(FedAll(s, text).value)
    ensures n < |text| && text[n] == SINGLE && forall k :: 0 <= k < n ==> Allowed(text[k]) && text[k] != SINGLE
    ensures Resting(t) && FedAll(t, text[n + 1..]) == FedAll(s, text)
    decreases |text|
  {
    if text[0] == SINGLE {
      n, t := 0, s.(quote := NoQuote);
    } else {
      var rest := text[1..];
      n, t := SingleCloses(s.(token := s.token + [text[0]]), rest);
      assert rest[n + 1..] == text[n + 2..];
      forall k | 0 <= k < n + 1 ensures Allowed(text[k]) && text[k] != SINGLE {
        if k > 0 { assert text[k] == rest[k - 1]; }
      }
      n := n + 1;
    }
  }

  lemma {:induction false} DoubleCloses(s: State, text: seq<Rune>) returns (items: seq<Item>, n: nat, t: State)
    requires s.quote == Double && !s.escaped && s.started && FedAll(s, text).Some? && Resting(FedAll(s, text).value)
    ensures n < |text| && text[n] == DOUBLE && text[..n] == RenderItems(items) && forall i :: i in items ==> ValidItem(i)
    ensures Resting(t) && FedAll(t, text[n + 1..]) == FedAll(s, text)
    decreases |text|
  {
    if text[0] == DOUBLE {
      items, n, t := [], 0, s.(quote := NoQuote);
    } else {
      var width := if text[0] == BACKSLASH then 2 else 1;
      var item := Raw(text[0]);
      if width == 2 { item := EscapeFed(s, text); }
      var rest := text[width..];
      var after := s.(token := s.token + [item.r]);
      DoubleStep(s, text, width, item);
      items, n, t := DoubleCloses(after, rest);
      assert rest[n + 1..] == text[width + n + 1..];
      assert text[..width + n] == text[..width] + rest[..n];
      items, n := [item] + items, width + n;
    }
  }

  /** An escape is never the last character of an accepted text. */
  lemma EscapeFed(s: State, text: seq<Rune>) returns (item: Item)
    requires !s.escaped && s.quote != Single && text != [] && text[0] == BACKSLASH
    requires FedAll(s, text).Some? && Resting(FedAll(s, text).value)
    ensures |text| >= 2 && item == Escape(text[1]) && Allowed(text[1])
    ensures FedAll(s, text) == FedAll(s.(token := s.token + [text[1]], started := true), text[2..])
  {
    var s1 := s.(escaped := true, started := true);
    assert FedAll(s, text) == FedAll(s1, text[1..]);
    assert text[1..] != [];
    assert text[1..][1..] == text[2..];
    item := Escape(text[1]);
  }

  lemma DoubleStep(s: State, text: seq<Rune>, width: nat, item: Item)
    requires s.quote == Double && !s.escaped && s.started && text != [] && text[0] != DOUBLE
    requires FedAll(s, text).Some?
    requires width <= |text| && item == if width == 2 then Escape(text[1]) else Raw(text[0])
    requires width == if text[0] == BACKSLASH then 2 else 1
    requires width == 2 ==> FedAll(s, text) == FedAll(s.(token := s.token + [text[1]], started := true), text[2..])
    requires width == 2 ==> Allowed(text[1])
    ensures ValidItem(item)
    ensures FedAll(s.(token := s.token + [item.r]), text[width..]) == FedAll(s, text)
    ensures text[..width] == if item.Raw? then [item.r] else [BACKSLASH, item.r]
  {
  }

  /** Every accepted text is a line of the grammar. */
  lemma {:induction false} Parsed(s: State, text: seq<Rune>) returns (atoms: seq<Atom>)
    requires Resting(s) && FedAll(s, text).Some? && Resting(FedAll(s, text).value)
    ensures ValidLine(atoms) && RenderAll(atoms) == text
    decreases |text|
  {
    if text == [] { return []; }
    var atom, n, t := FirstAtom(s, text);
    var rest := Parsed(t, text[n..]);
    assert text == text[..n] + text[n..];
    atoms := [atom] + rest;
  }

  lemma FirstAtom(s: State, text: seq<Rune>) returns (atom: Atom, n: nat, t: State)
    requires Resting(s) && text != [] && FedAll(s, text).Some? && Resting(FedAll(s, text).value)
    ensures ValidAtom(atom) && 0 < n <= |text| && text[..n] == Render(atom)
    ensures Resting(t) && FedAll(t, text[n..]) == FedAll(s, text)
  {
    var r := text[0];
    if r == BACKSLASH {
      var item := EscapeFed(s, text);
      return Escaped(item.r), 2, s.(token := s.token + [item.r], started := true);
    } else if r == SINGLE {
      var rest := text[1..];
      var k;
      k, t := SingleCloses(s.(quote := Single, started := true), rest);
      assert text[..k + 2] == [SINGLE] + rest[..k] + [SINGLE];
      assert rest[k + 1..] == text[k + 2..];
      return SingleQuoted(rest[..k]), k + 2, t;
    } else if r == DOUBLE {
      var rest := text[1..];
      var items, k;
      items, k, t := DoubleCloses(s.(quote := Double, started := true), rest);
      assert text[..k + 2] == [DOUBLE] + rest[..k] + [DOUBLE];
      assert rest[k + 1..] == text[k + 2..];
      return DoubleQuoted(items), k + 2, t;
    } else {
      t := Fed(s, r).value;
      return if IsSpace(r) then Gap(r) else Bare(r), 1, t;
    }
  }

  /** The splitter accepts exactly the lines of the grammar that keep the limits, and
      returns their words. */
  lemma SplitIsTheGrammar(text: seq<Rune>, args: seq<seq<Rune>>)
    ensures Split(Utf8(text)) == Some(args)
            <==> (exists atoms :: ValidLine(atoms) && RenderAll(atoms) == text && Words(atoms) == args)
                 && Acceptable(args) && Bytes(text) <= MAX_INPUT
  {
    if Split(Utf8(text)) == Some(args) {
      var atoms := Parsed(START, text);
      SplitReadsLine(atoms);
      assert ValidLine(atoms) && RenderAll(atoms) == text && Words(atoms) == args;
    }
    if exists atoms :: ValidLine(atoms) && RenderAll(atoms) == text && Words(atoms) == args {
      var atoms :| ValidLine(atoms) && RenderAll(atoms) == text && Words(atoms) == args;
      SplitReadsLine(atoms);
    }
  }

  /** What every accepted text yields. */
  lemma AcceptedKeepsLimits(text: Text)
    requires Split(text).Some?
    ensures Acceptable(Split(text).value)
  {
    SplitIsTheGrammar(text.runes, Split(text).value);
  }

  // ----------------------------------------------------------------- the printers

  datatype Style = Backslashes | SingleQuotes | DoubleQuotes

  /** Single quotes cannot print a single quote. */
  predicate Expressible(arg: seq<Rune>, style: Style) {
    (forall r :: r in arg ==> Allowed(r)) && (style == SingleQuotes ==> SINGLE !in arg)
  }

  function EscapedItems(arg: seq<Rune>): seq<Item> {
    if arg == [] then []
    else [if arg[0] == DOUBLE || arg[0] == BACKSLASH then Escape(arg[0]) else Raw(arg[0])] + EscapedItems(arg[1..])
  }

  function EscapedAtoms(arg: seq<Rune>): seq<Atom> {
    if arg == [] then []
    else [if ValidAtom(Bare(arg[0])) then Bare(arg[0]) else Escaped(arg[0])] + EscapedAtoms(arg[1..])
  }

  function Printed(arg: seq<Rune>, style: Style): seq<Atom> {
    match style
    case Backslashes => EscapedAtoms(arg)
    case SingleQuotes => [SingleQuoted(arg)]
    case DoubleQuotes => [DoubleQuoted(EscapedItems(arg))]
  }

  /** The arguments, each in its own style, joined by single spaces. */
  function Joined(args: seq<seq<Rune>>, styles: seq<Style>): seq<Atom>
    requires |styles| == |args|
  {
    if args == [] then []
    else Printed(args[0], styles[0]) + (if |args| == 1 then [] else [Gap(0x20)] + Joined(args[1..], styles[1..]))
  }

  lemma {:induction false} EscapedItemsValue(arg: seq<Rune>)
    requires forall r :: r in arg ==> Allowed(r)
    ensures ItemsValue(EscapedItems(arg)) == arg
    ensures forall i :: i in EscapedItems(arg) ==> ValidItem(i)
  {
    if arg != [] {
      assert Allowed(arg[0]);
      EscapedItemsValue(arg[1..]);
      assert [arg[0]] + arg[1..] == arg;
    }
  }

  /** Atoms of one word. */
  predicate Solid(atoms: seq<Atom>) {
    ValidLine(atoms) && forall a :: a in atoms ==> !a.Gap?
  }

  lemma {:induction false} EscapedAtomsValue(arg: seq<Rune>)
    requires forall r :: r in arg ==> Allowed(r)
    ensures ValueAll(EscapedAtoms(arg)) == arg && Solid(EscapedAtoms(arg))
  {
    if arg != [] {
      assert Allowed(arg[0]);
      EscapedAtomsValue(arg[1..]);
      assert [arg[0]] + arg[1..] == arg;
    }
  }

  lemma PrintedValue(arg: seq<Rune>, style: Style)
    requires Expressible(arg, style) && arg != []
    ensures ValueAll(Printed(arg, style)) == arg && Solid(Printed(arg, style)) && Printed(arg, style) != []
  {
    match style
    case Backslashes => EscapedAtomsValue(arg);
    case SingleQuotes => assert ValueAll([SingleQuoted(arg)]) == arg + [];
    case DoubleQuotes =>
      EscapedItemsValue(arg);
      assert ValueAll([DoubleQuoted(EscapedItems(arg))]) == arg + [];
  }

  lemma {:induction false} WordOfSolid(word: seq<Atom>, rest: seq<Atom>)
    requires Solid(word) && (rest != [] ==> rest[0].Gap?)
    ensures WordLength(word + rest) == |word|
  {
    if word == [] {
      assert word + rest == rest;
    } else {
      assert (word + rest)[1..] == word[1..] + rest;
      WordOfSolid(word[1..], rest);
    }
  }

  lemma FirstWord(word: seq<Atom>, rest: seq<Atom>)
    requires Solid(word) && word != [] && (rest != [] ==> rest[0].Gap?)
    ensures Words(word + rest) == [ValueAll(word)] + Words(rest)
  {
    WordOfSolid(word, rest);
    assert (word + rest)[..|word|] == word && (word + rest)[|word|..] == rest;
    assert (word + rest)[0] == word[0];
  }

  lemma GapFirst(atoms: seq<Atom>)
    ensures Words([Gap(0x20)] + atoms) == Words(atoms)
    ensures ValidLine(atoms) ==> ValidLine([Gap(0x20)] + atoms)
  {
    assert ([Gap(0x20)] + atoms)[1..] == atoms;
  }

  lemma {:induction false} JoinedWords(args: seq<seq<Rune>>, styles: seq<Style>)
    requires |styles| == |args|
    requires forall k :: 0 <= k < |args| ==> args[k] != [] && Expressible(args[k], styles[k])
    ensures ValidLine(Joined(args, styles)) && Words(Joined(args, styles)) == args
  {
    if args != [] {
      var tail := Joined(args[1..], styles[1..]);
      JoinedWords(args[1..], styles[1..]);
      PrintedValue(args[0], styles[0]);
      GapFirst(tail);
      FirstWord(Printed(args[0], styles[0]), if |args| == 1 then [] else [Gap(0x20)] + tail);
      assert [args[0]] + args[1..] == args;
    }
  }

  /** Splitting inverts printing, in any mix of the three styles. */
  lemma SplitInvertsPrinting(args: seq<seq<Rune>>, styles: seq<Style>)
    requires |styles| == |args| && Acceptable(args)
    requires forall k :: 0 <= k < |args| ==> Expressible(args[k], styles[k])
    requires Bytes(RenderAll(Joined(args, styles))) <= MAX_INPUT
    ensures Split(Utf8(RenderAll(Joined(args, styles)))) == Some(args)
  {
    forall k | 0 <= k < |args| ensures args[k] != [] {
      assert Fine(args[k]);
    }
    JoinedWords(args, styles);
    SplitReadsLine(Joined(args, styles));
  }
}
