/** The canonical snapshot text that a price is anchored to, and the reader that recovers the snapshot from it. */
module Snapshot {
  import opened Basics
  import opened Text

  datatype Side = Side(home: int, away: int)
  datatype Cards = Cards(homeYellow: int, homeRed: int, awayYellow: int, awayRed: int)

  /** `matchId` is arbitrary text, lone surrogates included. */
  datatype PricingSnapshot = PricingSnapshot(matchId: seq<CodeUnit>, fixtureId: int, minute: int, score: Side,
                                             corners: Side, cards: Cards, seqNo: int, ts: int)

  // -------------------------------------------------------- string literals

  predicate IsLead(u: int) { 0xD800 <= u <= 0xDBFF }
  predicate IsTrail(u: int) { 0xDC00 <= u <= 0xDFFF }

  function HexDigit(d: int): int
    requires 0 <= d < 16
  {
    if d < 10 then 48 + d else 87 + d
  }

  function HexValue(u: int): Option<int> {
    if IsDigit(u) then Some(u - 48) else if 97 <= u <= 102 then Some(u - 87) else None
  }

  function UnicodeEscape(u: CodeUnit): seq<int> {
    [92, 117, HexDigit(u / 16 / 16 / 16), HexDigit(u / 16 / 16 % 16), HexDigit(u / 16 % 16), HexDigit(u % 16)]
  }

  /** Short escapes: the letter after the backslash, for the units that have one. */
  function ShortEscape(u: int): Option<int> {
    if u == 34 then Some(34)
    else if u == 92 then Some(92)
    else if u == 8 then Some(98)
    else if u == 9 then Some(116)
    else if u == 10 then Some(110)
    else if u == 12 then Some(102)
    else if u == 13 then Some(114)
    else None
  }

  /** One unit that is not half of a surrogate pair. */
  function QuoteUnit(u: CodeUnit): seq<int> {
    if ShortEscape(u).Some? then [92, ShortEscape(u).value]
    else if u < 32 || IsLead(u) || IsTrail(u) then UnicodeEscape(u)
    else [u]
  }

  /** JSON string contents; a surrogate pair is copied, a lone surrogate escaped. */
  function QuoteUnits(s: seq<CodeUnit>): seq<int> {
    if s == [] then []
    else if |s| > 1 && IsLead(s[0]) && IsTrail(s[1]) then [s[0], s[1]] + QuoteUnits(s[2..])
    else QuoteUnit(s[0]) + QuoteUnits(s[1..])
  }

  // ---------------------------------------------------------------- printing

  const QUOTE: int := 34

  function Numbers(s: PricingSnapshot): (r: seq<int>)
    ensures |r| == 12
  {
    [s.fixtureId, s.minute, s.score.away, s.score.home, s.corners.away, s.corners.home,
     s.cards.awayRed, s.cards.awayYellow, s.cards.homeRed, s.cards.homeYellow, s.seqNo, s.ts]
  }

  const HEAD := "{\"matchId\":\""

  /** The fixed text before each number, and after the last. */
  const LABELS := [",\"fixtureId\":", ",\"minute\":", ",\"score\":{\"away\":", ",\"home\":",
                    "},\"corners\":{\"away\":", ",\"home\":",
                   "},\"cards\":{\"awayRed\":", ",\"awayYellow\":", ",\"homeRed\":", ",\"homeYellow\":", "},\"seq\":",
                    ",\"ts\":", "}"]

  function PrintFrom(numbers: seq<int>, labels: seq<string>): seq<int>
    requires |labels| == |numbers| + 1
  {
    if numbers == [] then Lit(labels[0])
    else Lit(labels[0]) + (IntText(numbers[0]) + PrintFrom(numbers[1..], labels[1..]))
  }

  function PrintLayout(head: seq<int>, labels: seq<string>, matchId: seq<CodeUnit>, numbers: seq<int>): seq<int>
    requires |labels| == |numbers| + 1
  {
    head + (QuoteUnits(matchId) + ([QUOTE] + PrintFrom(numbers, labels)))
  }

  /** `canonicalSnapshotJson`. */
  function Print(s: PricingSnapshot): seq<int> { PrintLayout(Lit(HEAD), LABELS, s.matchId, Numbers(s)) }

  lemma PrintStep(numbers: seq<int>, labels: seq<string>, k: nat)
    requires |labels| == |numbers| + 1 && k <= |numbers|
    ensures PrintFrom(numbers[k..], labels[k..]) == if k == |numbers| then Lit(labels[k]) else
      Lit(labels[k]) + (IntText(numbers[k]) + PrintFrom(numbers[k + 1..], labels[k + 1..]))
  {
    if k < |numbers| { assert numbers[k..][1..] == numbers[k + 1..] && labels[k..][1..] == labels[k + 1..]; }
  }

  lemma WholeSlice<T>(s: seq<T>)
    ensures s[0..] == s
  {
  }

  lemma FrontSpelledOut(n: seq<int>)
    requires |n| == 12
    ensures PrintFrom(n[0..], LABELS[0..]) ==
      Lit(",\"fixtureId\":") + (IntText(n[0]) + (Lit(",\"minute\":") + (IntText(n[1]) + (
      Lit(",\"score\":{\"away\":") + (IntText(n[2]) + PrintFrom(n[3..], LABELS[3..]))))))
  {
    PrintStep(n, LABELS, 0);
    PrintStep(n, LABELS, 1);
    PrintStep(n, LABELS, 2);
  }

  lemma MiddleSpelledOut(n: seq<int>)
    requires |n| == 12
    ensures PrintFrom(n[3..], LABELS[3..]) ==
      Lit(",\"home\":") + (IntText(n[3]) + (Lit("},\"corners\":{\"away\":") + (IntText(n[4]) + (
      Lit(",\"home\":") + (IntText(n[5]) + PrintFrom(n[6..], LABELS[6..]))))))
  {
    PrintStep(n, LABELS, 3);
    PrintStep(n, LABELS, 4);
    PrintStep(n, LABELS, 5);
  }

  lemma BackSpelledOut(n: seq<int>)
    requires |n| == 12
    ensures PrintFrom(n[6..], LABELS[6..]) ==
      Lit("},\"cards\":{\"awayRed\":") + (IntText(n[6]) + (Lit(",\"awayYellow\":") + (IntText(n[7]) + (
      Lit(",\"homeRed\":") + (IntText(n[8]) + (Lit(",\"homeYellow\":") + (IntText(n[9]) + (
      Lit("},\"seq\":") + (IntText(n[10]) + (Lit(",\"ts\":") + (IntText(n[11]) + Lit("}"))))))))))))
  {
    PrintStep(n, LABELS, 6);
    PrintStep(n, LABELS, 7);
    PrintStep(n, LABELS, 8);
    PrintStep(n, LABELS, 9);
    PrintStep(n, LABELS, 10);
    PrintStep(n, LABELS, 11);
    PrintStep(n, LABELS, 12);
  }

  /** The text of the cards, sequence number and time. */
  function CardsText(c: Cards, seqNo: int, ts: int): seq<int> {
    Lit("},\"cards\":{\"awayRed\":") + (IntText(c.awayRed) + (Lit(",\"awayYellow\":") + (IntText(c.awayYellow) + (
    Lit(",\"homeRed\":") + (IntText(c.homeRed) + (Lit(",\"homeYellow\":") + (IntText(c.homeYellow) + (
    Lit("},\"seq\":") + (IntText(seqNo) + (Lit(",\"ts\":") + (IntText(ts) + Lit("}"))))))))))))
  }

  /** The text spelled out: which number stands behind which name, and in which order. */
  lemma TextIsSpelledOut(s: PricingSnapshot)
    ensures Print(s) ==
      Lit("{\"matchId\":\"") + (QuoteUnits(s.matchId) + ([QUOTE] + (Lit(",\"fixtureId\":") + (IntText(s.fixtureId) +
      (Lit(",\"minute\":") + (IntText(s.minute) + (Lit(",\"score\":{\"away\":") + (IntText(s.score.away) +
      (Lit(",\"home\":") + (IntText(s.score.home) + (Lit("},\"corners\":{\"away\":") + (IntText(s.corners.away)
      + (Lit(",\"home\":") + (IntText(s.corners.home) + CardsText(s.cards, s.seqNo, s.ts)))))))))))))))
  {
    WholeSlice(Numbers(s));
    WholeSlice(LABELS);
    FrontSpelledOut(Numbers(s));
    MiddleSpelledOut(Numbers(s));
    BackSpelledOut(Numbers(s));
  }

  /** The escapes of JSON (section 7 of RFC 8259); other control characters and lone surrogates as four digits. */
  lemma EscapesAreJson()
    ensures QuoteUnit(34) == Lit("\\\"") && QuoteUnit(92) == Lit("\\\\")
    ensures QuoteUnit(8) == Lit("\\b") && QuoteUnit(9) == Lit("\\t") && QuoteUnit(10) == Lit("\\n")
    ensures QuoteUnit(12) == Lit("\\f") && QuoteUnit(13) == Lit("\\r")
    ensures QuoteUnit(0x1f) == Lit("\\u001f") && QuoteUnit(0xdabc) == Lit("\\udabc") && QuoteUnit(65) == Lit("A")
  {
  }

  // ----------------------------------------------------------------- reading

  function Expect(prefix: seq<int>, s: seq<int>): (r: Option<seq<int>>)
    ensures prefix <= s ==> r == Some(s[|prefix|..])
  {
    if prefix <= s then Some(s[|prefix|..]) else None
  }

  predicate IsNumeral(u: int) { IsDigit(u) || u == 45 }

  /** Length of the leading run of numeral units. */
  function NumeralLength(s: seq<int>): (n: nat)
    ensures n <= |s|
  {
    if s == [] || !IsNumeral(s[0]) then 0 else 1 + NumeralLength(s[1..])
  }

  lemma {:induction false} NumeralStops(a: seq<int>, b: seq<int>)
    requires forall i :: 0 <= i < |a| ==> IsNumeral(a[i])
    requires b != [] && !IsNumeral(b[0])
    ensures NumeralLength(a + b) == |a|
  {
    if a == [] {
      assert a + b == b;
    } else {
      assert (a + b)[1..] == a[1..] + b;
      NumeralStops(a[1..], b);
    }
  }

  function ReadFrom(s: seq<int>, labels: seq<string>): Option<seq<int>>
    requires labels != []
    decreases |labels|
  {
    var rest := Expect(Lit(labels[0]), s);
    if rest.None? then None
    else if |labels| == 1 then (if rest.value == [] then Some([]) else None)
    else
      var n := NumeralLength(rest.value);
      var more := ReadFrom(rest.value[n..], labels[1..]);
      if more.None? then None else Some([TextInt(rest.value[..n])] + more.value)
  }

  predicate Separating(labels: seq<string>) {
    forall i :: 0 <= i < |labels| ==> labels[i] != "" && !IsNumeral(labels[i][0] as int)
  }

  lemma LabelsSeparate()
    ensures Separating(LABELS)
  {
  }

  lemma {:induction false} NumbersRoundTrip(numbers: seq<int>, labels: seq<string>)
    requires |labels| == |numbers| + 1 && Separating(labels)
    ensures ReadFrom(PrintFrom(numbers, labels), labels) == Some(numbers)
    ensures PrintFrom(numbers, labels) != [] && !IsNumeral(PrintFrom(numbers, labels)[0])
    decreases |numbers|
  {
    var head := Lit(labels[0]);
    if numbers == [] {
      assert head[|head|..] == [];
    } else {
      var tail := PrintFrom(numbers[1..], labels[1..]);
      var digits := IntText(numbers[0]);
      NumbersRoundTrip(numbers[1..], labels[1..]);
      var s := PrintFrom(numbers, labels);
      assert s == head + (digits + tail) && s[|head|..] == digits + tail;
      NumeralStops(digits, tail);
      assert (digits + tail)[..|digits|] == digits && (digits + tail)[|digits|..] == tail;
      IntTextRoundTrip(numbers[0]);
      assert [numbers[0]] + numbers[1..] == numbers;
    }
  }

  function Hex4(s: seq<int>): Option<int>
    requires |s| >= 4
  {
    var a, b, c, d := HexValue(s[0]), HexValue(s[1]), HexValue(s[2]), HexValue(s[3]);
    if a.Some? && b.Some? && c.Some? && d.Some?
    then Some(((a.value * 16 + b.value) * 16 + c.value) * 16 + d.value)
    else None
  }

  function Unescape(letter: int): Option<int> {
    if letter == 34 then Some(34)
    else if letter == 92 then Some(92)
    else if letter == 98 then Some(8)
    else if letter == 116 then Some(9)
    else if letter == 110 then Some(10)
    else if letter == 102 then Some(12)
    else if letter == 114 then Some(13)
    else None
  }

  /** String contents up to the closing quote, and what follows it. */
  function ReadUnits(s: seq<int>): Option<(seq<int>, seq<int>)>
    decreases |s|
  {
    if s == [] then None
    else if s[0] == QUOTE then Some(([], s[1..]))
    else if s[0] != 92 then Cons(s[0], ReadUnits(s[1..]))
    else if |s| >= 6 && s[1] == 117 then
      (if Hex4(s[2..]).None? then None else Cons(Hex4(s[2..]).value, ReadUnits(s[6..])))
    else if |s| >= 2 && Unescape(s[1]).Some? then Cons(Unescape(s[1]).value, ReadUnits(s[2..]))
    else None
  }

  function Cons(u: int, r: Option<(seq<int>, seq<int>)>): Option<(seq<int>, seq<int>)> {
    if r.None? then None else Some(([u] + r.value.0, r.value.1))
  }

  lemma HexDigitRoundTrip(d: int)
    requires 0 <= d < 16
    ensures HexValue(HexDigit(d)) == Some(d)
  {
  }

  lemma HexRoundTrip(u: CodeUnit)
    ensures Hex4(UnicodeEscape(u)[2..]) == Some(u)
  {
    HexDigitRoundTrip(u / 16 / 16 / 16);
    HexDigitRoundTrip(u / 16 / 16 % 16);
    HexDigitRoundTrip(u / 16 % 16);
    HexDigitRoundTrip(u % 16);
    assert u / 16 / 16 == u / 16 / 16 / 16 * 16 + u / 16 / 16 % 16;
    assert u / 16 == u / 16 / 16 * 16 + u / 16 % 16;
  }

  /** Reading gives back one quoted unit and carries on after it. */
  lemma UnitRoundTrip(u: CodeUnit, rest: seq<int>)
    ensures ReadUnits(QuoteUnit(u) + rest) == Cons(u, ReadUnits(rest))
  {
    var q := QuoteUnit(u);
    var s := q + rest;
    assert s[|q|..] == rest;
    if ShortEscape(u).Some? {
      assert s[0] == 92 && s[1] == ShortEscape(u).value != 117 && Unescape(s[1]) == Some(u);
    } else if u < 32 || IsLead(u) || IsTrail(u) {
      HexRoundTrip(u);
      assert s[2..][0] == q[2..][0] && s[2..][1] == q[2..][1] && s[2..][2] == q[2..][2] && s[2..][3] == q[2..][3];
    } else {
      assert s[0] == u && u != QUOTE && u != 92;
    }
  }

  lemma PlainRoundTrip(u: int, rest: seq<int>)
    requires u != QUOTE && u != 92
    ensures ReadUnits([u] + rest) == Cons(u, ReadUnits(rest))
  {
    assert ([u] + rest)[1..] == rest;
  }

  lemma PairRoundTrip(a: CodeUnit, b: CodeUnit, m: seq<CodeUnit>, rest: seq<int>, after: seq<int>)
    requires IsLead(a) && IsTrail(b) && ReadUnits(after) == Some((m, rest))
    ensures ReadUnits([a] + ([b] + after)) == Some(([a, b] + m, rest))
  {
    PlainRoundTrip(b, after);
    PlainRoundTrip(a, [b] + after);
    assert [a] + ([b] + m) == [a, b] + m;
  }

  predicate StartsPair(m: seq<CodeUnit>) { |m| > 1 && IsLead(m[0]) && IsTrail(m[1]) }

  lemma QuotedPair(m: seq<CodeUnit>, tail: seq<int>)
    requires StartsPair(m)
    ensures QuoteUnits(m) + tail == [m[0]] + ([m[1]] + (QuoteUnits(m[2..]) + tail))
    ensures m == [m[0], m[1]] + m[2..]
  {
  }

  lemma QuotedSingle(m: seq<CodeUnit>, tail: seq<int>)
    requires m != [] && !StartsPair(m)
    ensures QuoteUnits(m) + tail == QuoteUnit(m[0]) + (QuoteUnits(m[1..]) + tail)
    ensures m == [m[0]] + m[1..]
  {
  }

  lemma ClosingQuote(rest: seq<int>)
    ensures ReadUnits([QUOTE] + rest) == Some(([], rest))
  {
    assert ([QUOTE] + rest)[1..] == rest;
  }

  lemma {:induction false} UnitsRoundTrip(m: seq<CodeUnit>, rest: seq<int>)
    ensures ReadUnits(QuoteUnits(m) + ([QUOTE] + rest)) == Some((m, rest))
    decreases |m|
  {
    var tail := [QUOTE] + rest;
    if m == [] {
      assert QuoteUnits(m) + tail == tail;
      ClosingQuote(rest);
    } else if StartsPair(m) {
      QuotedPair(m, tail);
      UnitsRoundTrip(m[2..], rest);
      PairRoundTrip(m[0], m[1], m[2..], rest, QuoteUnits(m[2..]) + tail);
    } else {
      QuotedSingle(m, tail);
      UnitsRoundTrip(m[1..], rest);
      UnitRoundTrip(m[0], QuoteUnits(m[1..]) + tail);
    }
  }

  datatype Parsed = Parsed(matchId: seq<int>, numbers: seq<int>)

  /** Reads a text of this layout back. */
  function ParseLayout(head: seq<int>, labels: seq<string>, s: seq<int>): Option<Parsed>
    requires labels != []
  {
    var r0 := Expect(head, s);
    if r0.None? then None
    else
      var r1 := ReadUnits(r0.value);
      if r1.None? then None
      else
        var r2 := ReadFrom(r1.value.1, labels);
        if r2.None? then None else Some(Parsed(r1.value.0, r2.value))
  }

  function Parse(s: seq<int>): Option<Parsed> { ParseLayout(Lit(HEAD), LABELS, s) }

  lemma LayoutRoundTrip(head: seq<int>, labels: seq<string>, matchId: seq<CodeUnit>, numbers: seq<int>)
    requires |labels| == |numbers| + 1 && Separating(labels)
    ensures ParseLayout(head, labels, PrintLayout(head, labels, matchId, numbers)) == Some(Parsed(matchId, numbers))
  {
    var body := QuoteUnits(matchId) + ([QUOTE] + PrintFrom(numbers, labels));
    assert (head + body)[|head|..] == body;
    UnitsRoundTrip(matchId, PrintFrom(numbers, labels));
    NumbersRoundTrip(numbers, labels);
  }

  /** The reader inverts the printer on every snapshot. */
  lemma ParseInvertsPrint(s: PricingSnapshot)
    ensures Parse(Print(s)) == Some(Parsed(s.matchId, Numbers(s)))
  {
    LabelsSeparate();
    LayoutRoundTrip(Lit(HEAD), LABELS, s.matchId, Numbers(s));
  }

  /** Equal canonical texts come from equal snapshots: a hash of the text commits to the whole snapshot. */
  lemma CanonicalTextIsInjective(a: PricingSnapshot, b: PricingSnapshot)
    requires Print(a) == Print(b)
    ensures a == b
  {
    ParseInvertsPrint(a);
    ParseInvertsPrint(b);
    var x, y := Numbers(a), Numbers(b);
    assert x[0] == y[0] && x[1] == y[1] && x[2] == y[2] && x[3] == y[3] && x[4] == y[4] && x[5] == y[5];
    assert x[6] == y[6] && x[7] == y[7] && x[8] == y[8] && x[9] == y[9] && x[10] == y[10] && x[11] == y[11];
  }
}
