/** The filter that takes terminal control out of a command's output. Text is a
    sequence of Unicode code points. */
module Terminal {

  type Rune = nat

  const BEL := 0x07
  const TAB := 0x09
  const LF := 0x0a
  const CR := 0x0d
  const ESC := 0x1b
  const ST := 0x9c
  const CSI := 0x9b

  datatype Mode = Ground | Escape | Sequence | String | StringEscape

  /** How many code points the first replacement step takes off s. */
  function Width(s: seq<Rune>): (n: nat)
    requires s != []
    ensures 1 <= n <= |s|
  {
    if |s| >= 2 && s[0] == CR && s[1] == LF then 2 else 1
  }

  function ReplaceCrLf(s: seq<Rune>): seq<Rune> {
    if s == [] then [] else [if Width(s) == 2 then LF else s[0]] + ReplaceCrLf(s[Width(s)..])
  }

  function ReplaceCr(s: seq<Rune>): seq<Rune> {
    if s == [] then [] else [if s[0] == CR then LF else s[0]] + ReplaceCr(s[1..])
  }

  function Normalized(s: seq<Rune>): seq<Rune> {
    ReplaceCr(ReplaceCrLf(s))
  }

  predicate Printable(r: Rune) {
    r == LF || r == TAB || (r >= 0x20 && !(0x7f <= r <= 0x9f))
  }

  predicate OpensStringC1(r: Rune) {
    r == 0x90 || r == 0x98 || r == 0x9d || r == 0x9e || r == 0x9f
  }

  /** ESC ] P X ^ _ */
  predicate OpensStringC0(r: Rune) {
    r == 0x5d || r == 0x50 || r == 0x58 || r == 0x5e || r == 0x5f
  }

  predicate ClosesString(r: Rune) {
    r == BEL || r == ST
  }

  function Step(m: Mode, r: Rune): Mode {
    match m
    case String => if ClosesString(r) then Ground else if r == ESC then StringEscape else String
    case StringEscape => if r == 0x5c || ClosesString(r) then Ground else String
    case Sequence => if 0x40 <= r <= 0x7e then Ground else Sequence
    case Escape =>
      if r == 0x5b then Sequence
      else if OpensStringC0(r) then String
      else if r < 0x20 || r > 0x2f then Ground
      else Escape
    case Ground =>
      if r == ESC then Escape else if r == CSI then Sequence else if OpensStringC1(r) then String else Ground
  }

  /** The mode after reading s. */
  function After(m: Mode, s: seq<Rune>): Mode
    decreases |s|
  {
    if s == [] then m else After(Step(m, s[0]), s[1..])
  }

  function Emitted(m: Mode, r: Rune): seq<Rune> {
    if m == Ground && Printable(r) then [r] else []
  }

  function Clean(m: Mode, s: seq<Rune>): seq<Rune>
    decreases |s|
  {
    if s == [] then [] else Emitted(m, s[0]) + Clean(Step(m, s[0]), s[1..])
  }

  function Cleaned(text: seq<Rune>): seq<Rune> {
    Clean(Ground, Normalized(text))
  }

  method CleanTerminalOutput(text: seq<Rune>) returns (out: seq<Rune>)
    ensures out == Cleaned(text)
  {
    var s := ReplaceAllCrLf(text);
    s := ReplaceAllCr(s);
    out := Filter(s);
  }

  method Filter(s: seq<Rune>) returns (out: seq<Rune>)
    ensures out == Clean(Ground, s)
  {
    out := [];
    var state := Ground;
    var k := 0;
    while k < |s|
      invariant 0 <= k <= |s|
      invariant out + Clean(state, s[k..]) == Clean(Ground, s)
    {
      Unfolds(state, s, k);
      var next, keep := Switch(state, s[k]);
      assert out + Clean(state, s[k..]) == (out + Emitted(state, s[k])) + Clean(next, s[k + 1..]);
      if keep {
        out := out + [s[k]];
      }
      state := next;
      k := k + 1;
    }
  }

  lemma Unfolds(m: Mode, s: seq<Rune>, k: nat)
    requires k < |s|
    ensures Clean(m, s[k..]) == Emitted(m, s[k]) + Clean(Step(m, s[k]), s[k + 1..])
  {
    assert s[k..][1..] == s[k + 1..];
  }

  /** The switch over the state, for one code point. */
  method Switch(state: Mode, r: Rune) returns (next: Mode, keep: bool)
    ensures next == Step(state, r) && keep == (Emitted(state, r) == [r])
  {
    next, keep := state, false;
    match state
    case String =>
      if r == BEL || r == ST { next := Ground; } else if r == ESC { next := StringEscape; }
    case StringEscape =>
      if r == 0x5c || r == ST || r == BEL { next := Ground; } else { next := String; }
    case Sequence =>
      if r >= 0x40 && r <= 0x7e { next := Ground; }
    case Escape =>
      if r == 0x5b {
        next := Sequence;
      } else if OpensStringC0(r) {
        next := String;
      } else if r < 0x20 || r > 0x2f {
        next := Ground;
      }
    case Ground =>
      if r == ESC {
        next := Escape;
      } else if r == CSI {
        next := Sequence;
      } else if OpensStringC1(r) {
        next := String;
      } else {
        keep := r == LF || r == TAB || (r >= 32 && !(r >= 0x7f && r <= 0x9f));
      }
  }

  method ReplaceAllCrLf(text: seq<Rune>) returns (s: seq<Rune>)
    ensures s == ReplaceCrLf(text)
  {
    s := [];
    var k := 0;
    while k < |text|
      invariant 0 <= k <= |text|
      invariant s + ReplaceCrLf(text[k..]) == ReplaceCrLf(text)
    {
      ReplaceUnfolds(text, k);
      if text[k] == CR && k + 1 < |text| && text[k + 1] == LF {
        assert s + ReplaceCrLf(text[k..]) == (s + [LF]) + ReplaceCrLf(text[k + 2..]);
        s := s + [LF];
        k := k + 2;
      } else {
        assert s + ReplaceCrLf(text[k..]) == (s + [text[k]]) + ReplaceCrLf(text[k + 1..]);
        s := s + [text[k]];
        k := k + 1;
      }
    }
  }

  lemma ReplaceUnfolds(s: seq<Rune>, k: nat)
    requires k < |s|
    ensures var pair := s[k] == CR && k + 1 < |s| && s[k + 1] == LF;
            var n := if pair then 2 else 1;
            ReplaceCrLf(s[k..]) == [if pair then LF else s[k]] + ReplaceCrLf(s[k + n..])
  {
    var rest := s[k..];
    assert rest[0] == s[k] && (|rest| > 1 ==> rest[1] == s[k + 1]);
    assert rest[Width(rest)..] == s[k + Width(rest)..];
  }

  lemma ReplaceCrUnfolds(s: seq<Rune>, k: nat)
    requires k < |s|
    ensures ReplaceCr(s[k..]) == [if s[k] == CR then LF else s[k]] + ReplaceCr(s[k + 1..])
  {
    assert s[k..][1..] == s[k + 1..];
  }

  method ReplaceAllCr(text: seq<Rune>) returns (s: seq<Rune>)
    ensures s == ReplaceCr(text)
  {
    s := [];
    var k := 0;
    while k < |text|
      invariant 0 <= k <= |text|
      invariant s + ReplaceCr(text[k..]) == ReplaceCr(text)
    {
      var r := if text[k] == CR then LF else text[k];
      ReplaceCrUnfolds(text, k);
      assert s + ReplaceCr(text[k..]) == (s + [r]) + ReplaceCr(text[k + 1..]);
      s := s + [r];
      k := k + 1;
    }
  }

  // ------------------------------------------------------------ what comes out

  predicate AllPrintable(s: seq<Rune>) {
    forall r :: r in s ==> Printable(r)
  }

  /** a is b with some of its elements left out. */
  predicate IsSubsequence(a: seq<Rune>, b: seq<Rune>)
    decreases |b|
  {
    if a == [] then true
    else if b == [] then false
    else if a[0] == b[0] && IsSubsequence(a[1..], b[1..]) then true
    else IsSubsequence(a, b[1..])
  }

  lemma {:induction false} CleanIsPrintable(m: Mode, s: seq<Rune>)
    ensures AllPrintable(Clean(m, s))
    ensures IsSubsequence(Clean(m, s), s)
    decreases |s|
  {
    if s != [] {
      CleanIsPrintable(Step(m, s[0]), s[1..]);
      var rest := Clean(Step(m, s[0]), s[1..]);
      if Emitted(m, s[0]) != [] {
        assert Clean(m, s)[1..] == rest;
      } else {
        assert Clean(m, s) == rest;
      }
    }
  }

  lemma {:induction false} PrintableStays(s: seq<Rune>)
    requires AllPrintable(s)
    ensures Clean(Ground, s) == s && Normalized(s) == s && ReplaceCrLf(s) == s && ReplaceCr(s) == s
  {
    if s != [] {
      assert Printable(s[0]);
      assert AllPrintable(s[1..]);
      PrintableStays(s[1..]);
      assert [s[0]] + s[1..] == s;
    }
  }

  /** The result is a subsequence of the text with its line ends normalised, has no
      control character but newline and tab, is the text itself when that has none,
      and cleaning twice is cleaning once. */
  lemma CleanedText(text: seq<Rune>)
    ensures IsSubsequence(Cleaned(text), Normalized(text))
    ensures AllPrintable(Cleaned(text))
    ensures AllPrintable(text) <==> Cleaned(text) == text
    ensures Cleaned(Cleaned(text)) == Cleaned(text)
  {
    CleanIsPrintable(Ground, Normalized(text));
    if AllPrintable(text) { PrintableStays(text); }
    PrintableStays(Cleaned(text));
  }

  // -------------------------------------------------------------- concatenation

  lemma {:induction false} CleanConcat(m: Mode, a: seq<Rune>, b: seq<Rune>)
    ensures Clean(m, a + b) == Clean(m, a) + Clean(After(m, a), b)
    ensures After(m, a + b) == After(After(m, a), b)
    decreases |a|
  {
    if a == [] {
      assert a + b == b;
    } else {
      assert (a + b)[1..] == a[1..] + b;
      CleanConcat(Step(m, a[0]), a[1..], b);
    }
  }

  predicate SplitsCrLf(a: seq<Rune>, b: seq<Rune>) {
    a != [] && b != [] && a[|a| - 1] == CR && b[0] == LF
  }

  lemma {:induction false} ReplaceCrLfConcat(a: seq<Rune>, b: seq<Rune>)
    requires !SplitsCrLf(a, b)
    ensures ReplaceCrLf(a + b) == ReplaceCrLf(a) + ReplaceCrLf(b)
    decreases |a|
  {
    if a == [] {
      assert a + b == b;
    } else {
      var n := Width(a);
      WidthOfConcat(a, b);
      assert (a + b)[n..] == a[n..] + b;
      ReplaceCrLfConcat(a[n..], b);
    }
  }

  lemma WidthOfConcat(a: seq<Rune>, b: seq<Rune>)
    requires a != [] && !SplitsCrLf(a, b)
    ensures Width(a + b) == Width(a) && (a + b)[0] == a[0] && !SplitsCrLf(a[Width(a)..], b)
  {
    if |a| == 1 && b != [] { assert (a + b)[1] == b[0]; }
  }

  lemma {:induction false} ReplaceCrConcat(a: seq<Rune>, b: seq<Rune>)
    ensures ReplaceCr(a + b) == ReplaceCr(a) + ReplaceCr(b)
    decreases |a|
  {
    if a == [] {
      assert a + b == b;
    } else {
      assert (a + b)[1..] == a[1..] + b;
      ReplaceCrConcat(a[1..], b);
    }
  }

  lemma NormalizedConcat(a: seq<Rune>, b: seq<Rune>)
    requires !SplitsCrLf(a, b)
    ensures Normalized(a + b) == Normalized(a) + Normalized(b)
  {
    ReplaceCrLfConcat(a, b);
    ReplaceCrConcat(ReplaceCrLf(a), ReplaceCrLf(b));
  }

  /** Cleaning distributes over a cut that is in no control sequence and in no CR LF. */
  lemma CleanedConcat(a: seq<Rune>, b: seq<Rune>)
    requires After(Ground, Normalized(a)) == Ground && !SplitsCrLf(a, b)
    ensures Cleaned(a + b) == Cleaned(a) + Cleaned(b)
  {
    NormalizedConcat(a, b);
    CleanConcat(Ground, Normalized(a), Normalized(b));
  }

  // ------------------------------------------------ sequences and strings vanish

  /** What a text in which every control function is complete consists of. */
  datatype Piece =
    | Plain(r: Rune)                                                       // printable
    | Control(r: Rune)                                                     // any other single C0 or C1 character
    | EscapeSequence(intermediates: seq<Rune>, final: Rune)
    | ControlSequence(c1: bool, body: seq<Rune>, final: Rune)              // section 5.4 of ECMA-48
    | ControlString(opener: Opener, content: seq<Rune>, closer: Closer)    // section 5.6 of ECMA-48

  datatype Opener = C1Opener(r: Rune) | C0Opener(r: Rune)

  datatype Closer = Single(r: Rune) | EscBackslash

  predicate ValidPiece(p: Piece) {
    match p
    case Plain(r) => Printable(r)
    case Control(r) => !Printable(r) && r != ESC && r != CSI && !OpensStringC1(r)
    case EscapeSequence(i, f) =>
      (forall r :: r in i ==> 0x20 <= r <= 0x2f)
      && !(0x20 <= f <= 0x2f) && f != 0x5b && !OpensStringC0(f)
    case ControlSequence(_, body, f) => (forall r :: r in body ==> !(0x40 <= r <= 0x7e)) && 0x40 <= f <= 0x7e
    case ControlString(opener, content, closer) =>
      && (match opener case C1Opener(r) => OpensStringC1(r) case C0Opener(r) => OpensStringC0(r))
      && StringContent(content)
      && (closer.Single? ==> ClosesString(closer.r))
  }

  /** Nothing in the content closes the string, and no escape is left open. */
  predicate StringContent(s: seq<Rune>)
    decreases |s|
  {
    if s == [] then true
    else if s[0] == ESC then |s| >= 2 && s[1] != 0x5c && !ClosesString(s[1]) && StringContent(s[2..])
    else !ClosesString(s[0]) && StringContent(s[1..])
  }

  function Render(p: Piece): seq<Rune> {
    match p
    case Plain(r) => [r]
    case Control(r) => [r]
    case EscapeSequence(i, f) => [ESC] + i + [f]
    case ControlSequence(c1, body, f) => (if c1 then [CSI] else [ESC, 0x5b]) + body + [f]
    case ControlString(opener, content, closer) =>
      (match opener case C1Opener(r) => [r] case C0Opener(r) => [ESC, r])
      + content
      + (match closer case Single(r) => [r] case EscBackslash => [ESC, 0x5c])
  }

  function RenderAll(pieces: seq<Piece>): seq<Rune> {
    if pieces == [] then [] else Render(pieces[0]) + RenderAll(pieces[1..])
  }

  function PlainOf(pieces: seq<Piece>): seq<Rune> {
    if pieces == [] then [] else (if pieces[0].Plain? then [pieces[0].r] else []) + PlainOf(pieces[1..])
  }

  /** A stretch that keeps its mode and is not ground text leaves nothing. */
  lemma {:induction false} Swallowed(m: Mode, s: seq<Rune>)
    requires m != Ground && forall r :: r in s ==> Step(m, r) == m
    ensures Clean(m, s) == [] && After(m, s) == m
    decreases |s|
  {
    if s != [] {
      Swallowed(m, s[1..]);
    }
  }

  lemma {:induction false} StringSwallowed(s: seq<Rune>)
    requires StringContent(s)
    ensures Clean(String, s) == [] && After(String, s) == String
    decreases |s|
  {
    if s != [] && s[0] == ESC {
      StringSwallowed(s[2..]);
      assert s[1..][1..] == s[2..];
      assert After(String, s) == After(StringEscape, s[1..]);
      assert Clean(String, s) == Clean(StringEscape, s[1..]);
    } else if s != [] {
      StringSwallowed(s[1..]);
    }
  }

  lemma One(m: Mode, r: Rune)
    ensures Clean(m, [r]) == Emitted(m, r) && After(m, [r]) == Step(m, r)
  {
    assert [r][1..] == [];
  }

  lemma Two(m: Mode, a: Rune, b: Rune)
    ensures Clean(m, [a, b]) == Emitted(m, a) + Emitted(Step(m, a), b)
    ensures After(m, [a, b]) == Step(Step(m, a), b)
  {
    assert [a, b][1..] == [b];
    One(Step(m, a), b);
  }

  /** Opening, body and close of one control function. */
  lemma ThreeParts(a: seq<Rune>, b: seq<Rune>, c: seq<Rune>, m: Mode)
    requires Clean(Ground, a) == [] && After(Ground, a) == m
    requires Clean(m, b) == [] && After(m, b) == m
    requires Clean(m, c) == [] && After(m, c) == Ground
    ensures Clean(Ground, a + b + c) == [] && After(Ground, a + b + c) == Ground
  {
    CleanConcat(Ground, a, b);
    CleanConcat(Ground, a + b, c);
  }

  lemma EscapeVanishes(i: seq<Rune>, f: Rune)
    requires ValidPiece(EscapeSequence(i, f))
    ensures Clean(Ground, [ESC] + i + [f]) == [] && After(Ground, [ESC] + i + [f]) == Ground
  {
    One(Ground, ESC);
    Swallowed(Escape, i);
    One(Escape, f);
    ThreeParts([ESC], i, [f], Escape);
  }

  lemma SequenceVanishes(c1: bool, body: seq<Rune>, f: Rune)
    requires ValidPiece(ControlSequence(c1, body, f))
    ensures var s := (if c1 then [CSI] else [ESC, 0x5b]) + body + [f];
            Clean(Ground, s) == [] && After(Ground, s) == Ground
  {
    One(Ground, CSI);
    Two(Ground, ESC, 0x5b);
    Swallowed(Sequence, body);
    One(Sequence, f);
    ThreeParts(if c1 then [CSI] else [ESC, 0x5b], body, [f], Sequence);
  }

  lemma OpenerEnters(opener: Opener)
    requires match opener case C1Opener(r) => OpensStringC1(r) case C0Opener(r) => OpensStringC0(r)
    ensures var s := match opener case C1Opener(r) => [r] case C0Opener(r) => [ESC, r];
            Clean(Ground, s) == [] && After(Ground, s) == String
  {
    One(Ground, opener.r);
    Two(Ground, ESC, opener.r);
  }

  lemma CloserLeaves(closer: Closer)
    requires closer.Single? ==> ClosesString(closer.r)
    ensures var s := match closer case Single(r) => [r] case EscBackslash => [ESC, 0x5c];
            Clean(String, s) == [] && After(String, s) == Ground
  {
    if closer.Single? { One(String, closer.r); } else { Two(String, ESC, 0x5c); }
  }

  lemma StringVanishes(opener: Opener, content: seq<Rune>, closer: Closer)
    requires ValidPiece(ControlString(opener, content, closer))
    ensures var s := Render(ControlString(opener, content, closer));
            Clean(Ground, s) == [] && After(Ground, s) == Ground
  {
    OpenerEnters(opener);
    StringSwallowed(content);
    CloserLeaves(closer);
    ThreeParts(match opener case C1Opener(r) => [r] case C0Opener(r) => [ESC, r], content,
               match closer case Single(r) => [r] case EscBackslash => [ESC, 0x5c], String);
  }

  lemma PieceVanishes(p: Piece)
    requires ValidPiece(p)
    ensures After(Ground, Render(p)) == Ground
    ensures Clean(Ground, Render(p)) == if p.Plain? then [p.r] else []
  {
    match p
    case Plain(r) => One(Ground, r);
    case Control(r) => One(Ground, r);
    case EscapeSequence(i, f) => EscapeVanishes(i, f);
    case ControlSequence(c1, body, f) => SequenceVanishes(c1, body, f);
    case ControlString(opener, content, closer) => StringVanishes(opener, content, closer);
  }

  /** Of a text made of complete control functions and single characters exactly the
      printable characters remain, in order. */
  lemma {:induction false} OnlyPlainRemains(pieces: seq<Piece>)
    requires forall p :: p in pieces ==> ValidPiece(p)
    ensures Clean(Ground, RenderAll(pieces)) == PlainOf(pieces)
    ensures After(Ground, RenderAll(pieces)) == Ground
  {
    if pieces != [] {
      PieceVanishes(pieces[0]);
      OnlyPlainRemains(pieces[1..]);
      CleanConcat(Ground, Render(pieces[0]), RenderAll(pieces[1..]));
    }
  }
}
