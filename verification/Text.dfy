/** Text as UTF-16 code units, and decimal numerals with the reader that inverts them. */
module Text {
  type CodeUnit = u: nat | u < 0x1_0000

  const COLON: CodeUnit := 58

  /** The code units of a literal. */
  function Lit(s: string): (r: seq<int>)
    ensures |r| == |s| && forall i :: 0 <= i < |s| ==> r[i] == s[i] as int
  {
    seq(|s|, i requires 0 <= i < |s| => s[i] as int)
  }

  predicate IsDigit(u: int) { 48 <= u <= 57 }

  predicate AllDigits(s: seq<int>) { forall i :: 0 <= i < |s| ==> IsDigit(s[i]) }

  function Digits(n: nat): (r: seq<CodeUnit>)
    ensures r != [] && AllDigits(r)
  {
    if n < 10 then [48 + n] else Digits(n / 10) + [48 + n % 10]
  }

  function DigitsValue(s: seq<int>): int {
    if s == [] then 0 else 10 * DigitsValue(s[..|s| - 1]) + (s[|s| - 1] - 48)
  }

  lemma {:induction false} DigitsRoundTrip(n: nat)
    ensures DigitsValue(Digits(n)) == n
  {
    var d := Digits(n);
    if n < 10 {
      assert d[..0] == [];
    } else {
      assert d[..|d| - 1] == Digits(n / 10);
      DigitsRoundTrip(n / 10);
    }
  }

  /** JavaScript's decimal text of an integer. */
  function IntText(n: int): (r: seq<CodeUnit>)
    ensures r != []
    ensures forall i :: 0 <= i < |r| ==> IsDigit(r[i]) || r[i] == 45
  {
    if n < 0 then [45] + Digits(-n) else Digits(n)
  }

  lemma DigitsStep(n: nat)
    ensures Digits(n) == if n < 10 then [48 + n] else Digits(n / 10) + [48 + n % 10]
  {
  }

  /** Samples: the sign first, then the digits from the highest place on. */
  lemma IntTextSamples()
    ensures IntText(0) == Lit("0") && IntText(-7) == Lit("-7") && IntText(120) == Lit("120")
  {
    DigitsStep(120);
    DigitsStep(12);
    assert 120 / 10 == 12 && 12 / 10 == 1;
  }

  function TextInt(s: seq<int>): int {
    if s != [] && s[0] == 45 then -DigitsValue(s[1..]) else DigitsValue(s)
  }

  lemma IntTextRoundTrip(n: int)
    ensures TextInt(IntText(n)) == n
  {
    if n < 0 {
      assert IntText(n)[1..] == Digits(-n);
      DigitsRoundTrip(-n);
    } else {
      DigitsRoundTrip(n);
    }
  }

  /** Two digits at least. */
  function Padded2(n: nat): (r: seq<int>)
    ensures |r| >= 2 && AllDigits(r)
  {
    if n < 10 then [48] + Digits(n) else Digits(n)
  }

  lemma PaddedRoundTrip(n: nat)
    ensures DigitsValue(Padded2(n)) == n
    ensures n < 100 ==> |Padded2(n)| == 2
  {
    DigitsRoundTrip(n);
    if n < 10 {
      var p := Padded2(n);
      assert p == [48, 48 + n];
      assert p[..1] == [48] && p[..1][..0] == [];
    } else if n < 100 {
      assert Digits(n / 10) == [48 + n / 10];
    }
  }

  // -------------------------------------------------- splitting at separators

  /** Length of the longest prefix without `u`. */
  function IndexOf(s: seq<int>, u: int): (i: nat)
    ensures i <= |s| && u !in s[..i] && (i < |s| ==> s[i] == u)
  {
    if s == [] || s[0] == u then 0
    else
      assert s[..1 + IndexOf(s[1..], u)] == [s[0]] + s[1..][..IndexOf(s[1..], u)];
      1 + IndexOf(s[1..], u)
  }

  lemma {:induction false} IndexOfPrefix(a: seq<int>, u: int, b: seq<int>)
    requires u !in a
    ensures IndexOf(a + [u] + b, u) == |a|
  {
    if a != [] {
      assert (a + [u] + b)[1..] == a[1..] + [u] + b;
      IndexOfPrefix(a[1..], u, b);
    }
  }

  lemma {:induction false} IndexOfMissing(s: seq<int>, u: int)
    requires u !in s
    ensures IndexOf(s, u) == |s|
  {
    if s != [] { IndexOfMissing(s[1..], u); }
  }

  /** Start of the longest suffix without `u`. */
  function LastIndexOf(s: seq<int>, u: int): (i: nat)
    ensures i <= |s| && u !in s[i..] && (i > 0 ==> s[i - 1] == u)
  {
    if s == [] || s[|s| - 1] == u then |s|
    else
      var i := LastIndexOf(s[..|s| - 1], u);
      assert s[i..] == s[..|s| - 1][i..] + [s[|s| - 1]];
      i
  }

  lemma {:induction false} LastIndexOfSuffix(a: seq<int>, u: int, b: seq<int>)
    requires u !in b
    ensures LastIndexOf(a + [u] + b, u) == |a| + 1
  {
    if b != [] {
      var s, front := a + [u] + b, b[..|b| - 1];
      assert s[..|s| - 1] == a + [u] + front;
      assert s[|s| - 1] == b[|b| - 1];
      LastIndexOfSuffix(a, u, front);
    }
  }
}
