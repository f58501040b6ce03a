/** Wave arithmetic: the size, the slices, and the regular expression that names one wave's nodes. */
module Waves {
  import opened Prelude
  import opened Api

  // ---- resolveWaveSize ----

  const MAX_INT64 := 0x7fff_ffff_ffff_ffff

  function Digits(s: string, acc: nat): Option<int> {
    if s == "" then Some(acc)
    else if '0' <= s[0] <= '9' then Digits(s[1..], 10 * acc + (s[0] as int - '0' as int))
    else None
  }

  /** strconv.Atoi: an optional sign, at least one digit, and a value that fits 64 bits. */
  function Atoi(s: string): Option<int> {
    var signed := s != "" && (s[0] == '+' || s[0] == '-');
    var digits := if signed then s[1..] else s;
    if digits == "" then None
    else match Digits(digits, 0)
      case None => None
      case Some(v) =>
        if signed && s[0] == '-' then (if v <= MAX_INT64 + 1 then Some(-v) else None)
        else if v <= MAX_INT64 then Some(v) else None
  }

  function CeilDiv(a: int, b: int): int
    requires b > 0
  {
    (a + b - 1) / b
  }

  /** intstr.GetScaledValueFromIntOrPercent, rounding up; a string must end in a percent sign. */
  function ScaledValue(ws: IntOrString, n: int): Option<int> {
    match ws
    case IntVal(i) => Some(i)
    case StrVal(s) =>
      if s == "" || s[|s| - 1] != '%' then None
      else match Atoi(s[..|s| - 1])
        case None => None
        case Some(v) => Some(CeilDiv(v * n, 100))
  }

  /** The absolute wave size for n nodes: at least one node and at most all of them. */
  function ResolveWaveSize(ws: IntOrString, n: int): (size: int)
    ensures n >= 1 ==> 1 <= size <= n
    ensures size <= n
  {
    var ws' := if ws == IntVal(0) || ws == StrVal("") then StrVal("20%") else ws;
    var scaled := ScaledValue(ws', n);
    var size := if scaled.None? || scaled.value < 1 then 1 else scaled.value;
    if size > n then n else size
  }

  // ---- What the wave size is ----

  /** A count is taken as it is, up to the fleet; a negative one is 1. */
  lemma CountIsTheSize(k: int, n: int)
    requires n >= 1
    ensures 1 <= k <= n ==> ResolveWaveSize(IntVal(k), n) == k
    ensures k > n ==> ResolveWaveSize(IntVal(k), n) == n
    ensures k < 0 ==> ResolveWaveSize(IntVal(k), n) == 1
  {
  }

  /** `size` nodes are p percent of n, rounded up, except that it is no more than n. */
  ghost predicate IsPercentOf(size: int, p: int, n: int) {
    (size - 1) * 100 < p * n && (size < n ==> p * n <= size * 100)
  }

  /** A percentage is rounded up, both bounds; a percentage of zero or less is 1. */
  lemma PercentIsRoundedUp(s: string, p: int, n: int)
    requires s != "" && Atoi(s) == Some(p) && n >= 1
    ensures p >= 1 ==> IsPercentOf(ResolveWaveSize(StrVal(s + "%"), n), p, n)
    ensures p <= 0 ==> ResolveWaveSize(StrVal(s + "%"), n) == 1
  {
    PercentValue(s, p, n);
    CeilDivBounds(p * n, 100);
    if p >= 1 {
      MulLe(1, p, n);
    } else {
      MulLe(p, 0, n);
    }
  }

  lemma PercentValue(s: string, p: int, n: int)
    requires s != "" && Atoi(s) == Some(p)
    ensures ScaledValue(StrVal(s + "%"), n) == Some(CeilDiv(p * n, 100)) && StrVal(s + "%") != StrVal("")
  {
    var ws := s + "%";
    assert ws[..|ws| - 1] == s && ws[|ws| - 1] == '%';
  }

  /** An unset size is 20 percent. */
  lemma UnsetIsTwentyPercent(ws: IntOrString, n: int)
    requires n >= 1 && (ws == IntVal(0) || ws == StrVal(""))
    ensures IsPercentOf(ResolveWaveSize(ws, n), 20, n)
  {
    TwentyIsTwenty();
    PercentIsRoundedUp("20", 20, n);
  }

  lemma TwentyIsTwenty()
    ensures Atoi("20") == Some(20) && "20" + "%" == "20%"
  {
    assert "20"[1..] == "0" && "0"[1..] == "";
    assert Digits("20", 0) == Digits("0", 2) == Digits("", 20) == Some(20);
  }

  /** A string that is no percentage, or no number before the percent sign, is 1. */
  lemma UnusableIsOne(s: string, n: int)
    requires n >= 1 && s != "" && (s[|s| - 1] != '%' || Atoi(s[..|s| - 1]).None?)
    ensures ResolveWaveSize(StrVal(s), n) == 1
  {
    TwentyIsTwenty();
    assert "20%"[..2] == "20";
  }

  // ---- What strconv.Atoi reads ----

  predicate AllDigits(s: string) {
    forall i :: 0 <= i < |s| ==> '0' <= s[i] <= '9'
  }

  /** Positional notation, read from the last digit. */
  function Positional(s: string): int
    requires AllDigits(s)
  {
    if s == "" then 0
    else
      var last := |s| - 1;
      10 * Positional(s[..last]) + (s[last] as int - '0' as int)
  }

  lemma {:induction false} DigitsAppend(s: string, c: char, acc: nat)
    requires AllDigits(s) && '0' <= c <= '9'
    ensures Digits(s, acc).Some? && Digits(s + [c], acc) == Some(10 * Digits(s, acc).value + (c as int - '0' as int))
  {
    if s == "" {
      assert s + [c] == [c] && [c][1..] == "";
    } else {
      assert (s + [c])[1..] == s[1..] + [c];
      DigitsAppend(s[1..], c, 10 * acc + (s[0] as int - '0' as int));
    }
  }

  lemma {:induction false} DigitsArePositional(s: string)
    requires AllDigits(s)
    ensures Digits(s, 0) == Some(Positional(s))
  {
    if s != "" {
      var last := |s| - 1;
      DigitsArePositional(s[..last]);
      DigitsAppend(s[..last], s[last], 0);
      assert s[..last] + [s[last]] == s;
    }
  }

  lemma {:induction false} NotAllDigits(s: string, acc: nat)
    requires !AllDigits(s)
    ensures Digits(s, acc).None?
  {
    if '0' <= s[0] <= '9' {
      assert forall i :: 0 <= i < |s[1..]| ==> s[1..][i] == s[i + 1];
      NotAllDigits(s[1..], 10 * acc + (s[0] as int - '0' as int));
    }
  }

  /** Digits are read in positional notation, after at most one sign, if the value fits 64 bits. */
  lemma AtoiReadsDigits(s: string)
    requires s != "" && AllDigits(s)
    ensures Atoi(s) == if Positional(s) <= 0x7fff_ffff_ffff_ffff then Some(Positional(s)) else None
    ensures Atoi("+" + s) == if Positional(s) <= 0x7fff_ffff_ffff_ffff then Some(Positional(s)) else None
    ensures Atoi("-" + s) == if Positional(s) <= 0x8000_0000_0000_0000 then Some(-Positional(s)) else None
  {
    DigitsArePositional(s);
    assert s[0] != '+' && s[0] != '-';
    assert ("+" + s)[1..] == s;
    assert ("-" + s)[1..] == s;
  }

  /** Anything else is no number. */
  lemma AtoiRejectsTheRest(s: string)
    ensures !AllDigits(s) ==> Atoi("+" + s).None? && Atoi("-" + s).None?
    ensures !AllDigits(s) && s[0] != '+' && s[0] != '-' ==> Atoi(s).None?
    ensures Atoi("").None? && Atoi("+").None? && Atoi("-").None?
  {
    assert ("+" + s)[1..] == s;
    assert ("-" + s)[1..] == s;
    if !AllDigits(s) {
      NotAllDigits(s, 0);
    }
  }

  // ---- Slices ----

  function WaveCount(n: int, size: int): int
    requires size >= 1
  {
    CeilDiv(n, size)
  }

  function WaveSlice(nodes: seq<Name>, size: int, w: int): seq<Name>
    requires size >= 1 && 0 <= w * size <= |nodes|
  {
    nodes[w * size..Min((w + 1) * size, |nodes|)]
  }

  lemma WaveInRange(n: nat, size: int, w: int)
    requires size >= 1 && 0 <= w < WaveCount(n, size)
    ensures 0 <= w * size < n
  {
    var c := WaveCount(n, size);
    assert (w + 1) * size <= c * size;
    assert c * size <= n + size - 1;
    assert (w + 1) * size == w * size + size;
  }

  /** Every wave but the last is full, and no wave is empty. */
  lemma WaveSizes(nodes: seq<Name>, size: int, w: int)
    requires size >= 1 && 0 <= w < WaveCount(|nodes|, size)
    ensures 0 <= w * size < |nodes|
    ensures w < WaveCount(|nodes|, size) - 1 ==> |WaveSlice(nodes, size, w)| == size
    ensures 1 <= |WaveSlice(nodes, size, w)| <= size
  {
    WaveInRange(|nodes|, size, w);
    assert (w + 1) * size == w * size + size;
    if w < WaveCount(|nodes|, size) - 1 {
      WaveInRange(|nodes|, size, w + 1);
    }
  }

  lemma CeilDivBounds(a: int, b: int)
    requires b > 0
    ensures (CeilDiv(a, b) - 1) * b < a <= CeilDiv(a, b) * b
  {
    var q := (a + b - 1) / b;
    assert q * b <= a + b - 1 < q * b + b;
    assert (q - 1) * b == q * b - b;
  }

  lemma MulLe(a: int, b: int, k: int)
    requires a <= b && k >= 0
    ensures a * k <= b * k
  {
  }

  lemma CeilDivLe(a: int, b: int, c: int)
    requires b > 0 && a <= b * c
    ensures CeilDiv(a, b) <= c
  {
    CeilDivBounds(a, b);
    if CeilDiv(a, b) > c {
      MulLe(c, CeilDiv(a, b) - 1, b);
      assert false;
    }
  }

  lemma DivInRange(i: nat, size: int, n: nat)
    requires size >= 1 && i < n
    ensures 0 <= i / size < CeilDiv(n, size)
    ensures 0 <= (i / size) * size <= i < (i / size) * size + size
  {
    var w := i / size;
    assert w * size + i % size == i;
    CeilDivBounds(n, size);
    if w >= CeilDiv(n, size) {
      MulLe(CeilDiv(n, size), w, size);
      assert false;
    }
  }

  /** Node i of the plan belongs to wave i / size, at offset i % size. */
  lemma WaveOfIndex(nodes: seq<Name>, size: int, i: nat)
    requires size >= 1 && i < |nodes|
    ensures 0 <= i / size < WaveCount(|nodes|, size) && 0 <= (i / size) * size <= |nodes|
    ensures i % size < |WaveSlice(nodes, size, i / size)|
    ensures WaveSlice(nodes, size, i / size)[i % size] == nodes[i]
  {
    DivInRange(i, size, |nodes|);
    var w := i / size;
    assert (w + 1) * size == w * size + size;
    assert w * size + i % size == i;
  }

  lemma IndexInSlice(nodes: seq<Name>, size: int, w: int, n: Name) returns (i: nat)
    requires size >= 1 && 0 <= w * size <= |nodes| && n in WaveSlice(nodes, size, w)
    ensures w * size <= i < w * size + size && i < |nodes| && nodes[i] == n
  {
    var a :| 0 <= a < |WaveSlice(nodes, size, w)| && WaveSlice(nodes, size, w)[a] == n;
    i := w * size + a;
    assert (w + 1) * size == w * size + size;
  }

  /** Two waves share no node of a plan without duplicates. */
  lemma WavesDisjoint(nodes: seq<Name>, size: int, v: int, w: int, n: Name)
    requires Sorted(nodes) && size >= 1 && 0 <= v && 0 <= w
    requires 0 <= v * size <= |nodes| && 0 <= w * size <= |nodes|
    requires n in WaveSlice(nodes, size, v) && n in WaveSlice(nodes, size, w)
    ensures v == w
  {
    var i := IndexInSlice(nodes, size, v, n);
    var j := IndexInSlice(nodes, size, w, n);
    SortedNoDuplicates(nodes, i, j);
    SameQuotient(v, w, size, i);
  }

  lemma SameQuotient(v: int, w: int, size: int, i: int)
    requires size >= 1
    requires v * size <= i < v * size + size && w * size <= i < w * size + size
    ensures v == w
  {
    assert (v + 1) * size == v * size + size && (w + 1) * size == w * size + size;
    if v < w {
      MulLe(v + 1, w, size);
      assert false;
    }
    if w < v {
      MulLe(w + 1, v, size);
      assert false;
    }
  }

  /** The first k waves, one after the other. */
  function FirstWaves(nodes: seq<Name>, size: int, k: int): seq<Name>
    requires size >= 1 && 0 <= k <= WaveCount(|nodes|, size)
    decreases k
  {
    if k == 0 then []
    else
      WaveInRange(|nodes|, size, k - 1);
      FirstWaves(nodes, size, k - 1) + WaveSlice(nodes, size, k - 1)
  }

  lemma {:induction false} WavesPrefix(nodes: seq<Name>, size: int, k: int)
    requires size >= 1 && 0 <= k <= WaveCount(|nodes|, size)
    ensures k * size >= 0
    ensures FirstWaves(nodes, size, k) == nodes[..Min(k * size, |nodes|)]
    decreases k
  {
    if k > 0 {
      WavesPrefix(nodes, size, k - 1);
      WaveInRange(|nodes|, size, k - 1);
      assert k * size == (k - 1) * size + size;
    }
  }

  /** All waves in order are the plan: nothing is dropped, repeated or reordered. */
  lemma WavesConcatenate(nodes: seq<Name>, size: int)
    requires size >= 1
    ensures FirstWaves(nodes, size, WaveCount(|nodes|, size)) == nodes
  {
    var c := WaveCount(|nodes|, size);
    assert c * size >= |nodes|;
    assert c >= 0;
    WavesPrefix(nodes, size, c);
  }

  /** A percentage p bounds the number of waves by ceil(100 / p), whatever the fleet size. */
  lemma PercentBoundsWaves(s: string, p: int, n: int)
    requires s != "" && Atoi(s) == Some(p) && p >= 1 && n >= 1
    ensures WaveCount(n, ResolveWaveSize(StrVal(s + "%"), n)) <= CeilDiv(100, p)
  {
    PercentValue(s, p, n);
    ScaledSizeBoundsWaves(p, n, ResolveWaveSize(StrVal(s + "%"), n));
  }

  lemma ScaledSizeBoundsWaves(p: int, n: int, size: int)
    requires p >= 1 && n >= 1 && size >= 1
    requires size == n || size >= CeilDiv(p * n, 100)
    ensures CeilDiv(n, size) <= CeilDiv(100, p)
  {
    var c := CeilDiv(100, p);
    CeilDivBounds(100, p);
    assert c >= 1;
    if size == n {
      CeilDivLe(n, n, 1);
    } else {
      CeilDivBounds(p * n, 100);
      Scaled(p, n, size, c);
      CeilDivLe(n, size, c);
    }
  }

  lemma Scaled(p: int, n: int, size: int, c: int)
    requires p >= 1 && n >= 1 && size * 100 >= p * n && c * p >= 100 && c >= 1
    ensures n <= size * c
  {
    MulLe(p * n, size * 100, c);
    MulLe(100, c * p, n);
    assert (p * n) * c == (c * p) * n;
    assert (size * 100) * c == (size * c) * 100;
  }

  /** An unset wave size, as the integer 0 or as the empty string, never needs more than five waves. */
  lemma DefaultHasAtMostFiveWaves(ws: IntOrString, n: int)
    requires n >= 1 && (ws == IntVal(0) || ws == StrVal(""))
    ensures WaveCount(n, ResolveWaveSize(ws, n)) <= 5
  {
    TwentyIsTwenty();
    PercentBoundsWaves("20", 20, n);
  }

  // ---- waveNodesRegex ----

  predicate IsMeta(c: char) {
    c in "\\.+*?()|[]{}^$"
  }

  function QuotedChar(c: char): string {
    if IsMeta(c) then ['\\', c] else [c]
  }

  /** regexp.QuoteMeta */
  function QuoteMeta(s: string): string {
    if s == "" then ""
    else QuotedChar(s[0]) + QuoteMeta(s[1..])
  }

  function Quoted(names: seq<Name>): seq<string> {
    if names == [] then [] else [QuoteMeta(names[0])] + Quoted(names[1..])
  }

  /** strings.Join with a vertical bar. */
  function JoinBars(parts: seq<string>): string {
    if parts == [] then ""
    else if |parts| == 1 then parts[0]
    else parts[0] + "|" + JoinBars(parts[1..])
  }

  /** The regular expression a wave's gate query sees. */
  function WaveRegex(nodes: seq<Name>, waveSize: int, wave: int): string {
    var size := if waveSize < 1 then 1 else waveSize;
    var start := wave * size;
    if start >= |nodes| || start < 0 then ""
    else JoinBars(Quoted(nodes[start..Min(start + size, |nodes|)]))
  }

  /** A wave size below one counts as one, and a wave that is not there selects nothing. */
  lemma WaveRegexElsewhere(nodes: seq<Name>, waveSize: int, wave: int)
    ensures waveSize < 1 ==> WaveRegex(nodes, waveSize, wave) == WaveRegex(nodes, 1, wave)
    ensures waveSize >= 1 && (wave < 0 || wave >= WaveCount(|nodes|, waveSize)) ==>
              WaveRegex(nodes, waveSize, wave) == ""
  {
    if waveSize >= 1 {
      CeilDivBounds(|nodes|, waveSize);
      if wave < 0 {
        MulLe(wave, -1, waveSize);
      } else if wave >= WaveCount(|nodes|, waveSize) {
        MulLe(WaveCount(|nodes|, waveSize), wave, waveSize);
      }
    }
  }

  method WaveNodesRegex(nodes: seq<Name>, waveSize: int, wave: int) returns (r: string)
    ensures r == WaveRegex(nodes, waveSize, wave)
  {
    var size := waveSize;
    if size < 1 {
      size := 1;
    }
    var start := wave * size;
    var end := Min(start + size, |nodes|);
    if start >= |nodes| || start < 0 {
      return "";
    }
    var escaped: seq<string> := [];
    var i := start;
    while i < end
      invariant start <= i <= end
      invariant escaped == Quoted(nodes[start..i])
    {
      QuotedSlice(nodes, start, i);
      escaped := escaped + [QuoteMeta(nodes[i])];
      i := i + 1;
    }
    r := JoinBars(escaped);
  }

  lemma QuotedSlice(nodes: seq<Name>, a: nat, b: nat)
    requires a <= b < |nodes|
    ensures Quoted(nodes[a..b + 1]) == Quoted(nodes[a..b]) + [QuoteMeta(nodes[b])]
  {
    QuotedAppend(nodes[a..b], nodes[b]);
    assert nodes[a..b] + [nodes[b]] == nodes[a..b + 1];
  }

  lemma {:induction false} QuotedAppend(names: seq<Name>, n: Name)
    ensures Quoted(names + [n]) == Quoted(names) + [QuoteMeta(n)]
  {
    if names != [] {
      QuotedAppend(names[1..], n);
      assert (names + [n])[1..] == names[1..] + [n];
    }
  }

  // ---- What the regular expression means ----

  /** Split on unescaped bars and drop the escapes; `cur` is the part read so far. */
  function Decode(p: string, cur: string): seq<string> {
    if p == "" then [cur]
    else if p[0] == '\\' && |p| >= 2 then Decode(p[2..], cur + [p[1]])
    else if p[0] == '|' then [cur] + Decode(p[1..], "")
    else Decode(p[1..], cur + [p[0]])
  }

  /**
    * Anchored matching by the meaning RE2 gives each character, independent of the encoder: a bar
    * starts the next alternative, a dot is any character, a backslash makes the punctuation after it
    * literal, everything else that is no operator is itself. The other operators, escapes of letters and
    * digits, and a backslash at the end are outside this fragment and match nothing. `t` is the text the
    * current alternative still has to match, or None once that alternative has failed.
    */
  predicate Matches(p: string, text: string, t: Option<string>) {
    if p == "" then t == Some("")
    else if p[0] == '|' then t == Some("") || Matches(p[1..], text, Some(text))
    else if p[0] == '\\' then |p| >= 2 && !LetterOrDigit(p[1]) && Matches(p[2..], text, Eat(t, p[1]))
    else if p[0] == '.' then Matches(p[1..], text, EatAny(t))
    else if p[0] in "+*?()[]{}^$" then false
    else Matches(p[1..], text, Eat(t, p[0]))
  }

  function Eat(t: Option<string>, c: char): Option<string> {
    if t.Some? && t.value != "" && t.value[0] == c then Some(t.value[1..]) else None
  }

  function EatAny(t: Option<string>): Option<string> {
    if t.Some? && t.value != "" then Some(t.value[1..]) else None
  }

  predicate LetterOrDigit(c: char) {
    'a' <= c <= 'z' || 'A' <= c <= 'Z' || '0' <= c <= '9'
  }

  predicate FullMatch(p: string, text: string) {
    Matches(p, text, Some(text))
  }

  lemma QuoteStep(s: string, rest: string)
    requires s != ""
    ensures QuoteMeta(s) + rest == QuotedChar(s[0]) + (QuoteMeta(s[1..]) + rest)
  {
  }

  lemma DecodeStep(c: char, tail: string, cur: string)
    ensures Decode(QuotedChar(c) + tail, cur) == Decode(tail, cur + [c])
  {
    if IsMeta(c) {
      assert (['\\', c] + tail)[2..] == tail;
    } else {
      assert ([c] + tail)[1..] == tail;
    }
  }

  lemma HeadMoves(cur: string, s: string)
    requires s != ""
    ensures cur + [s[0]] + s[1..] == cur + s
  {
  }

  lemma DecodeFirst(s: string, rest: string, cur: string)
    requires s != ""
    ensures Decode(QuoteMeta(s) + rest, cur) == Decode(QuoteMeta(s[1..]) + rest, cur + [s[0]])
  {
    var tail := QuoteMeta(s[1..]) + rest;
    QuoteStep(s, rest);
    DecodeStep(s[0], tail, cur);
  }

  lemma {:induction false} DecodeQuoted(s: string, rest: string, cur: string)
    ensures Decode(QuoteMeta(s) + rest, cur) == Decode(rest, cur + s)
  {
    if s == "" {
      assert QuoteMeta(s) + rest == rest && cur + s == cur;
    } else {
      DecodeFirst(s, rest, cur);
      DecodeQuoted(s[1..], rest, cur + [s[0]]);
      HeadMoves(cur, s);
    }
  }

  lemma JoinStep(names: seq<Name>)
    requires |names| >= 2
    ensures JoinBars(Quoted(names)) == QuoteMeta(names[0]) + ("|" + JoinBars(Quoted(names[1..])))
  {
    assert Quoted(names)[1..] == Quoted(names[1..]);
    assert Quoted(names[1..]) != [];
  }

  lemma JoinOne(names: seq<Name>)
    requires |names| == 1
    ensures JoinBars(Quoted(names)) == QuoteMeta(names[0]) + ""
  {
    assert names[1..] == [];
    assert Quoted(names) == [QuoteMeta(names[0])];
  }

  lemma DecodeBar(tail: string, cur: string)
    ensures Decode("|" + tail, cur) == [cur] + Decode(tail, "")
  {
    assert ("|" + tail)[1..] == tail;
  }

  lemma {:induction false} DecodeJoined(names: seq<Name>)
    requires names != []
    ensures Decode(JoinBars(Quoted(names)), "") == names
  {
    assert "" + names[0] == names[0];
    if |names| == 1 {
      JoinOne(names);
      DecodeQuoted(names[0], "", "");
    } else {
      var tail := JoinBars(Quoted(names[1..]));
      JoinStep(names);
      DecodeQuoted(names[0], "|" + tail, "");
      DecodeBar(tail, names[0]);
      DecodeJoined(names[1..]);
    }
  }

  function Rest(t: Option<string>, s: string): Option<string> {
    if t.Some? && s <= t.value then Some(t.value[|s|..]) else None
  }

  lemma MatchStep(c: char, tail: string, text: string, t: Option<string>)
    ensures Matches(QuotedChar(c) + tail, text, t) == Matches(tail, text, Eat(t, c))
  {
    if IsMeta(c) {
      assert (['\\', c] + tail)[2..] == tail;
    } else {
      assert ([c] + tail)[1..] == tail;
    }
  }

  lemma {:induction false} MatchQuoted(s: string, rest: string, text: string, t: Option<string>)
    ensures Matches(QuoteMeta(s) + rest, text, t) == Matches(rest, text, Rest(t, s))
  {
    if s == "" {
      assert QuoteMeta(s) + rest == rest;
    } else {
      QuoteStep(s, rest);
      MatchStep(s[0], QuoteMeta(s[1..]) + rest, text, t);
      MatchQuoted(s[1..], rest, text, Eat(t, s[0]));
      EatThenRest(t, s);
    }
  }

  lemma EatThenRest(t: Option<string>, s: string)
    requires s != ""
    ensures Rest(Eat(t, s[0]), s[1..]) == Rest(t, s)
  {
    assert s == [s[0]] + s[1..];
    if t.Some? && t.value != "" {
      assert t.value == [t.value[0]] + t.value[1..];
      if s <= t.value {
        assert s[0] == t.value[0];
        assert s[1..] == t.value[1..][..|s| - 1];
      }
    }
  }

  lemma {:induction false} MatchJoined(names: seq<Name>, text: string)
    requires names != []
    ensures FullMatch(JoinBars(Quoted(names)), text) <==> text in names
  {
    RestEmpty(names[0], text);
    if |names| == 1 {
      JoinOne(names);
      MatchQuoted(names[0], "", text, Some(text));
    } else {
      var tail := JoinBars(Quoted(names[1..]));
      JoinStep(names);
      MatchQuoted(names[0], "|" + tail, text, Some(text));
      assert ("|" + tail)[1..] == tail;
      MatchJoined(names[1..], text);
    }
  }

  lemma RestEmpty(s: string, text: string)
    ensures Rest(Some(text), s) == Some("") <==> s == text
  {
    if s <= text && text[|s|..] == "" {
      assert text == s + text[|s|..];
    }
  }

  /**
    * The gate query's node filter selects exactly the nodes the controller acts on in that wave:
    * decoding it gives back the slice, and its full-match language is the slice.
    */
  lemma WaveRegexRoundTrip(nodes: seq<Name>, size: int, wave: int, text: string)
    requires size >= 1 && 0 <= wave < WaveCount(|nodes|, size)
    ensures 0 <= wave * size <= |nodes|
    ensures Decode(WaveRegex(nodes, size, wave), "") == WaveSlice(nodes, size, wave)
    ensures FullMatch(WaveRegex(nodes, size, wave), text) <==> text in WaveSlice(nodes, size, wave)
  {
    WaveSizes(nodes, size, wave);
    assert (wave + 1) * size == wave * size + size;
    DecodeJoined(WaveSlice(nodes, size, wave));
    MatchJoined(WaveSlice(nodes, size, wave), text);
  }
}
