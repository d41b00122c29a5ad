/** The weekly market keeper: the window it opens, the label it gives it, and its loop over time. */
module WeekKeeper {
  import opened Text
  import opened Calendar

  const DAY := 86400

  // ------------------------------------------------------------ the window

  /** Sunday at `hour`:00 UTC. */
  predicate IsClose(t: int, hour: int) { t % DAY == hour * 3600 && Weekday(t / DAY) == 0 }

  function SundayOnOrAfter(d: int): (s: int)
    ensures d <= s < d + 7 && Weekday(s) == 0
  {
    d + (7 - Weekday(d)) % 7
  }

  /** Day and time in seconds. */
  function TimeAt(day: int, hour: int): int { day * DAY + hour * 3600 }

  /** The day on which the active window closes. */
  function ClosingSunday(now: int, hour: int): (s: int)
    ensures s >= now / DAY && Weekday(s) == 0
  {
    var sunday := SundayOnOrAfter(now / DAY);
    if TimeAt(sunday, hour) <= now then sunday + 7 else sunday
  }

  function CloseAfter(now: int, hour: int): int { TimeAt(ClosingSunday(now, hour), hour) }

  lemma CloseIsClose(sunday: int, hour: int)
    requires Weekday(sunday) == 0 && 0 <= hour < 24
    ensures IsClose(TimeAt(sunday, hour), hour) && TimeAt(sunday, hour) / DAY == sunday
  {
  }

  /** The window closes at the least Sunday close strictly after now, at most a week away. */
  lemma CloseIsNext(now: int, hour: int)
    requires 0 <= hour < 24
    ensures var c := CloseAfter(now, hour);
      IsClose(c, hour) && now < c <= now + 7 * DAY
      && forall t :: IsClose(t, hour) && t > now ==> t >= c
  {
    var s := SundayOnOrAfter(now / DAY);
    CloseIsClose(ClosingSunday(now, hour), hour);
    assert TimeAt(s + 7, hour) == TimeAt(s, hour) + 7 * DAY;
    forall t | IsClose(t, hour) && t > now ensures t >= CloseAfter(now, hour) {
      SundaysApart(t / DAY, s);
      assert t == TimeAt(t / DAY, hour);
    }
  }

  lemma SundaysApart(a: int, b: int)
    requires Weekday(a) == 0 && Weekday(b) == 0
    ensures a < b ==> a <= b - 7
    ensures a > b ==> a >= b + 7
  {
  }

  // -------------------------------------------------------------- the label

  datatype Window = Window(title: seq<int>, matchId: seq<int>, closeTs: int)

  const DASH: int := 45
  const W: int := 87

  function Title(w: Week): seq<int>
    requires w.week >= 0
  {
    [W] + IntText(w.year) + [DASH] + Padded2(w.week)
  }

  lemma TitleIsInjective(a: Week, b: Week)
    requires a.week >= 0 && b.week >= 0 && Title(a) == Title(b)
    ensures a == b
  {
    var x, y := [W] + IntText(a.year), [W] + IntText(b.year);
    LastIndexOfSuffix(x, DASH, Padded2(a.week));
    LastIndexOfSuffix(y, DASH, Padded2(b.week));
    assert Title(a)[..|x|] == x && Title(b)[..|y|] == y && |x| == |y|;
    assert Title(a)[|x| + 1..] == Padded2(a.week) && Title(b)[|y| + 1..] == Padded2(b.week);
    assert x[1..] == IntText(a.year) && y[1..] == IntText(b.year);
    IntTextRoundTrip(a.year);
    IntTextRoundTrip(b.year);
    PaddedRoundTrip(a.week);
    PaddedRoundTrip(b.week);
  }

  function WindowFor(symbol: seq<int>, now: int, hour: int): Window {
    var closeTs := CloseAfter(now, hour);
    var w := IsoWeekOf(closeTs / DAY);
    Window(Title(w), symbol + [COLON] + Title(w), closeTs)
  }

  lemma DaySince1970(now: int)
    requires now >= 0
    ensures now / DAY >= 0 && DateUtc(now / DAY) == now / DAY
  {
    LabelSince1970(now / DAY);
  }

  /** `weekWindowFor`, moving one date forward step by step; the clock counts from 1970. */
  method WeekWindowFor(symbol: seq<int>, now: int, hour: int) returns (r: Window)
    requires now >= 0 && 0 <= hour < 24
    ensures r == WindowFor(symbol, now, hour)
  {
    DaySince1970(now);
    var sunday := DateUtc(now / DAY);
    sunday := SundayOnOrAfter(sunday);
    if TimeAt(sunday, hour) <= now { sunday := sunday + 7; }
    assert sunday == ClosingSunday(now, hour);
    CloseIsClose(sunday, hour);
    LabelSince1970(sunday);
    var w := IsoWeek(sunday);
    r := Window(Title(w), symbol + [COLON] + Title(w), TimeAt(sunday, hour));
  }

  /** Windows carry the same match id exactly when they close at the same time. */
  lemma SameMatchIdIff(symbol: seq<int>, a: int, b: int, hour: int)
    requires 0 <= hour < 24
    ensures var x, y := WindowFor(symbol, a, hour), WindowFor(symbol, b, hour);
      x.matchId == y.matchId <==> x.closeTs == y.closeTs
  {
    var x, y := WindowFor(symbol, a, hour), WindowFor(symbol, b, hour);
    CloseIsNext(a, hour);
    CloseIsNext(b, hour);
    if x.matchId == y.matchId {
      assert x.matchId[|symbol| + 1..] == x.title && y.matchId[|symbol| + 1..] == y.title;
      var c, d := x.closeTs / DAY, y.closeTs / DAY;
      TitleIsInjective(IsoWeekOf(c), IsoWeekOf(d));
      SameWeekIff(c, d);
      SameSunday(c, d);
      assert x.closeTs == TimeAt(c, hour) && y.closeTs == TimeAt(d, hour);
    }
  }

  lemma SameSunday(c: int, d: int)
    requires Weekday(c) == 0 && Weekday(d) == 0 && MondayOf(c) == MondayOf(d)
    ensures c == d
  {
  }

  // -------------------------------------------- telling the two keepers apart

  /** The part between the first and the second colon. */
  function SecondPart(m: seq<int>): seq<int> {
    var i := IndexOf(m, COLON);
    if i == |m| then [] else m[i + 1..][..IndexOf(m[i + 1..], COLON)]
  }

  /** `W` + four digits + `-` + two digits. */
  predicate IsWeekTitle(s: seq<int>) {
    |s| == 8 && s[0] == W && AllDigits(s[1..5]) && s[5] == DASH && AllDigits(s[6..])
  }

  predicate IsWeekMatchId(m: seq<int>) { IsWeekTitle(SecondPart(m)) }

  /** The symbol, a colon, and nothing but digits. */
  predicate IsIntervalMatchId(symbol: seq<int>, m: seq<int>) {
    |m| > |symbol| + 1 && m[..|symbol| + 1] == symbol + [COLON] && AllDigits(m[|symbol| + 1..])
  }

  lemma SecondPartOf(symbol: seq<int>, rest: seq<int>)
    requires COLON !in symbol && COLON !in rest
    ensures SecondPart(symbol + [COLON] + rest) == rest
  {
    IndexOfPrefix(symbol, COLON, rest);
    var m := symbol + [COLON] + rest;
    assert m[|symbol| + 1..] == rest;
    IndexOfMissing(rest, COLON);
    assert rest[..|rest|] == rest;
  }

  /** The keepers share a wallet; neither takes the other's markets for its own. */
  lemma KeepersAreDisjoint(symbol: seq<int>, m: seq<int>)
    requires COLON !in symbol
    ensures !(IsWeekMatchId(m) && IsIntervalMatchId(symbol, m))
  {
    if IsIntervalMatchId(symbol, m) {
      var rest := m[|symbol| + 1..];
      assert m == symbol + [COLON] + rest;
      SecondPartOf(symbol, rest);
      assert AllDigits(rest) && rest != [];
      assert rest[0] != W;
    }
  }

  lemma {:induction false} DigitCount(n: nat, k: nat)
    ensures k > 0 && Power10(k - 1) <= n < Power10(k) ==> |Digits(n)| == k
    ensures n < 10 ==> |Digits(n)| == 1
    decreases k
  {
    if k > 1 && Power10(k - 1) <= n < Power10(k) {
      if k == 2 { assert Power10(1) == 10 * Power10(0); } else { Power10AtLeast10(k - 1); }
      DigitCount(n / 10, k - 1);
    }
  }

  function Power10(k: nat): nat { if k == 0 then 1 else 10 * Power10(k - 1) }

  lemma {:induction false} Power10AtLeast10(k: nat)
    requires k >= 1
    ensures Power10(k) >= 10
  {
    if k > 1 { Power10AtLeast10(k - 1); }
  }

  /** A restart recognises every window of the years 1000 to 9999, whatever colon-free symbol is set. */
  lemma OwnWindowsAreRecognised(symbol: seq<int>, now: int, hour: int)
    requires COLON !in symbol
    requires 1000 <= IsoWeekOf(WindowFor(symbol, now, hour).closeTs / DAY).year <= 9999
    ensures IsWeekMatchId(WindowFor(symbol, now, hour).matchId)
  {
    var win := WindowFor(symbol, now, hour);
    var w := IsoWeekOf(win.closeTs / DAY);
    WeekInRange(win.closeTs / DAY);
    PaddedRoundTrip(w.week);
    assert Power10(3) == 10 * Power10(2) == 100 * Power10(1) == 1000 * Power10(0);
    assert Power10(4) == 10 * Power10(3);
    DigitCount(w.year, 4);
    var t := Title(w);
    assert t[1..5] == Digits(w.year) && t[6..] == Padded2(w.week);
    assert COLON !in t;
    SecondPartOf(symbol, t);
  }
}
