/** Where the detector's points and shifts come from: each is one recorded call, or the move between two of them. */
module OddsSources {
  import opened OddsTracker

  predicate Counts(x: Call) { x.yesPool + x.noPool > 0.0 }

  /** The point is the share of the YES pool at that call. */
  predicate Shows(p: Point, x: Call) { x.ts == p.ts && Counts(x) && p.yes * (x.yesPool + x.noPool) == x.yesPool }

  predicate ShownBy(p: Point, id: string, calls: seq<Call>) {
    exists x :: x in calls && x.marketId == id && Shows(p, x)
  }

  /** The shift tells of the move between these two calls of its market: five percent or more within a minute. */
  predicate Tells(s: Shift, from: Call, to: Call) {
    && from.marketId == to.marketId == s.marketId && to.title == s.title
    && Shows(Point(s.fromTs, s.fromYes), from) && Shows(Point(s.toTs, s.toYes), to)
    && (s.direction == Up <==> Grew(from, to)) && Abs(s.toYes - s.fromYes) >= 0.05 && s.toTs - s.fromTs <= 60000
  }

  /** The YES pool's share is larger at the later call: fractions compared by cross-multiplication. */
  predicate Grew(from: Call, to: Call) {
    to.yesPool * (from.yesPool + from.noPool) > from.yesPool * (to.yesPool + to.noPool)
  }

  predicate ToldBy(s: Shift, calls: seq<Call>) {
    exists x, y :: x in calls && y in calls && Tells(s, x, y)
  }

  ghost predicate Sourced(m: Memory, calls: seq<Call>) {
    && (forall id: string, p :: p in HistoryOf(m, id) ==> ShownBy(p, id, calls))
    && (forall s :: s in m.shifts ==> ToldBy(s, calls))
  }

  lemma ObservedShows(x: Call)
    requires Counts(x)
    ensures Shows(Observed(x), x)
  {
  }

  /** Comparing shares is comparing cross products. */
  lemma SharesCompare(a: real, b: real, x: Call, y: Call, s: int, t: int)
    requires Shows(Point(s, a), x) && Shows(Point(t, b), y)
    ensures b > a <==> Grew(x, y)
  {
    var m, n := x.yesPool + x.noPool, y.yesPool + y.noPool;
    assert y.yesPool * m == b * n * m == b * (m * n) by { assert b * n * m == b * (m * n); }
    assert x.yesPool * n == a * m * n == a * (m * n) by { assert a * m * n == a * (m * n); }
    ProductOrder(a, b, m * n);
  }

  lemma ProductOrder(a: real, b: real, k: real)
    requires k > 0.0
    ensures b > a <==> b * k > a * k
  {
  }

  lemma MoveTells(x: Call, y: Call, base: Point, lastShift: int)
    requires x.marketId == y.marketId && Shows(base, x) && Counts(y) && y.ts - base.ts <= 60000
    ensures var move := Move(y.marketId, y.title, base, Observed(y), lastShift);
      move.Some? ==> Tells(move.value, x, y)
  {
    ObservedShows(y);
    SharesCompare(base.yes, Observed(y).yes, x, y, base.ts, y.ts);
  }

  lemma MoreCalls(m: Memory, calls: seq<Call>, x: Call)
    requires Sourced(m, calls)
    ensures Sourced(m, calls + [x])
  {
    forall id: string, p | p in HistoryOf(m, id) ensures ShownBy(p, id, calls + [x]) {
      assert ShownBy(p, id, calls);
      var y :| y in calls && y.marketId == id && Shows(p, y);
      assert y in calls + [x];
    }
    forall s | s in m.shifts ensures ToldBy(s, calls + [x]) {
      assert ToldBy(s, calls);
      var y, z :| y in calls && z in calls && Tells(s, y, z);
      assert y in calls + [x] && z in calls + [x];
    }
  }

  /** The points kept after one more point: some of the old ones, and the new one last. */
  function Kept(m: Memory, id: string, p: Point, caps: Caps): seq<Point> {
    var all := HistoryOf(m, id) + [p];
    if caps.Capped? then Newest(all, caps.points) else all
  }

  lemma KeptPoints(m: Memory, x: Call, caps: Caps, calls: seq<Call>)
    requires Counts(x) && x in calls && Sourced(m, calls)
    ensures forall p :: p in Kept(m, x.marketId, Observed(x), caps) ==> ShownBy(p, x.marketId, calls)
  {
    ObservedShows(x);
    forall p | p in Kept(m, x.marketId, Observed(x), caps) ensures ShownBy(p, x.marketId, calls) {
      assert p in HistoryOf(m, x.marketId) || p == Observed(x);
    }
  }

  lemma DetectSourced(m: Memory, x: Call, buf: seq<Point>, caps: Caps, calls: seq<Call>)
    requires Sourced(m, calls) && x in calls && Counts(x) && buf != [] && buf[|buf| - 1] == Observed(x)
    requires forall p :: p in buf ==> ShownBy(p, x.marketId, calls)
    ensures Sourced(Detect(m, x.marketId, x.title, buf, caps), calls)
  {
    var base := Base(buf);
    assert base in buf && buf[|buf| - 1].ts >= x.ts - LOOKBACK_MS;
    var y :| y in calls && y.marketId == x.marketId && Shows(base, y);
    MoveTells(y, x, base, LastShift(m, x.marketId));
    var t := Detect(m, x.marketId, x.title, buf, caps);
    forall s | s in t.shifts ensures ToldBy(s, calls) {}
    forall id: string ensures HistoryOf(t, id) == HistoryOf(m, id) {}
  }

  lemma RecordSourced(m: Memory, x: Call, caps: Caps, calls: seq<Call>)
    requires Sourced(m, calls) && x in calls && (caps.Capped? ==> caps.points > 0)
    ensures Sourced(Recorded(m, x, caps), calls)
  {
    if Counts(x) && !TooSoon(HistoryOf(m, x.marketId), x.ts) {
      var kept := Kept(m, x.marketId, Observed(x), caps);
      KeptPoints(m, x, caps, calls);
      DetectSourced(Store(m, x.marketId, x.title, kept), x, kept, caps, calls);
    }
  }

  /** Over every sequence of calls, with or without caps. */
  lemma {:induction false} ReplaySourced(m: Memory, before: seq<Call>, calls: seq<Call>, caps: Caps)
    requires Sourced(m, before) && (caps.Capped? ==> caps.points > 0)
    ensures Sourced(Replay(m, calls, caps), before + calls)
    decreases |calls|
  {
    if calls == [] {
      assert before + calls == before;
    } else {
      MoreCalls(m, before, calls[0]);
      RecordSourced(m, calls[0], caps, before + [calls[0]]);
      ReplaySourced(Recorded(m, calls[0], caps), before + [calls[0]], calls[1..], caps);
      assert before + [calls[0]] + calls[1..] == before + calls;
    }
  }

  /**
   Every point the detector holds is the YES pool's share at one of the calls of its market; every shift joins two
   such calls, is 5 % or more, carries the later call's title, and points up exactly when the share grew.
  */
  lemma EverythingIsSourced(calls: seq<Call>)
    ensures var m := Replay(EMPTY, calls, AS_BUILT);
      && (forall id: string, p :: p in HistoryOf(m, id) ==> ShownBy(p, id, calls))
      && (forall s :: s in m.shifts ==> ToldBy(s, calls))
  {
    ReplaySourced(EMPTY, [], calls, AS_BUILT);
    assert [] + calls == calls;
  }

  /**
   A call is stored, as the last point of its market, exactly when its total is positive and at least a second has
   passed since the last one; it names its market when its total is positive; other markets keep their points.
  */
  lemma RecordStoresIff(m: Memory, x: Call, caps: Caps)
    requires caps.Capped? ==> caps.points > 0
    ensures var before, t := HistoryOf(m, x.marketId), Recorded(m, x, caps);
      var after := HistoryOf(t, x.marketId);
      && (if x.yesPool + x.noPool > 0.0 && (before == [] || x.ts >= before[|before| - 1].ts + 1000)
          then after != [] && Shows(after[|after| - 1], x)
               && (caps == Unbounded || |before| < caps.points ==> after[..|after| - 1] == before)
          else after == before && t.shifts == m.shifts)
      && t.titles == (if x.yesPool + x.noPool > 0.0 then m.titles[x.marketId := x.title] else m.titles)
      && forall id: string :: id != x.marketId ==> HistoryOf(t, id) == HistoryOf(m, id)
  {
    if Counts(x) {
      ObservedShows(x);
      var kept := Kept(m, x.marketId, Observed(x), caps);
      var all := HistoryOf(m, x.marketId) + [Observed(x)];
      assert all[..|all| - 1] == HistoryOf(m, x.marketId);
    }
  }
}
