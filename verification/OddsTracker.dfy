/** The sharp-move detector: a capped rolling history with a debounce, and the unbounded detector it refines. */
module OddsTracker {
  import opened Basics

  datatype Point = Point(ts: int, yes: real)
  datatype Direction = Up | Down
  datatype Shift = Shift(marketId: string, title: string, fromTs: int, toTs: int,
                         fromYes: real, toYes: real, delta: real, direction: Direction)

  const MAX_POINTS := 240
  const MAX_SHIFTS := 40
  const LOOKBACK_MS := 60000
  const SPACING_MS := 1000
  const SHIFT_THRESHOLD := 0.05

  datatype Memory = Memory(history: map<string, seq<Point>>, titles: map<string, string>,
                           shifts: seq<Shift>, lastShiftAt: map<string, int>)

  datatype Call = Call(marketId: string, title: string, yesPool: real, noPool: real, ts: int)

  /** How much is remembered: everything, or the newest so many points and shifts. */
  datatype Caps = Unbounded | Capped(points: nat, shifts: nat)

  const AS_BUILT := Capped(MAX_POINTS, MAX_SHIFTS)

  // ------------------------------------------------------------- one record

  function Newest<T>(s: seq<T>, n: nat): seq<T> { if |s| <= n then s else s[|s| - n..] }

  function First<T>(s: seq<T>, n: nat): seq<T> { if |s| <= n then s else s[..n] }

  function HistoryOf(m: Memory, id: string): seq<Point> { if id in m.history then m.history[id] else [] }

  function LastShift(m: Memory, id: string): int { if id in m.lastShiftAt then m.lastShiftAt[id] else 0 }

  function Abs(x: real): real { if x < 0.0 then -x else x }

  /** Index of the oldest point no older than `start`, or 0 when all are older. */
  function BaseIndex(buf: seq<Point>, start: int): (i: nat)
    requires buf != []
    ensures i < |buf|
  {
    if exists j :: 0 <= j < |buf| && buf[j].ts >= start then FirstFrom(buf, start, 0) else 0
  }

  function FirstFrom(buf: seq<Point>, start: int, i: nat): (r: nat)
    requires exists j :: i <= j < |buf| && buf[j].ts >= start
    ensures i <= r < |buf| && buf[r].ts >= start
    ensures forall j :: i <= j < r ==> buf[j].ts < start
    decreases |buf| - i
  {
    if buf[i].ts >= start then i else FirstFrom(buf, start, i + 1)
  }

  /** The shift to report for the move from `base` to `now`, given when this market last reported one. */
  function Move(id: string, title: string, base: Point, now: Point, lastShift: int): Option<Shift> {
    var delta := now.yes - base.yes;
    if Abs(delta) < SHIFT_THRESHOLD || now.ts - lastShift < LOOKBACK_MS then None
    else Some(Shift(id, title, base.ts, now.ts, base.yes, now.yes, delta, if delta >= 0.0 then Up else Down))
  }

  function Base(buf: seq<Point>): Point
    requires buf != []
  {
    buf[BaseIndex(buf, buf[|buf| - 1].ts - LOOKBACK_MS)]
  }

  function Report(m: Memory, s: Shift, caps: Caps): Memory {
    m.(lastShiftAt := m.lastShiftAt[s.marketId := s.toTs],
       shifts := if caps.Capped? then First([s] + m.shifts, caps.shifts) else [s] + m.shifts)
  }

  function Detect(m: Memory, id: string, title: string, buf: seq<Point>, caps: Caps): Memory {
    if |buf| < 2 then m
    else
      var move := Move(id, title, Base(buf), buf[|buf| - 1], LastShift(m, id));
      if move.None? then m else Report(m, move.value, caps)
  }

  predicate TooSoon(buf: seq<Point>, ts: int) { buf != [] && ts - buf[|buf| - 1].ts < SPACING_MS }

  function Named(m: Memory, id: string, title: string): Memory { m.(titles := m.titles[id := title]) }

  function Store(m: Memory, id: string, title: string, buf: seq<Point>): Memory {
    Named(m, id, title).(history := m.history[id := buf])
  }

  function Observed(c: Call): Point
    requires c.yesPool + c.noPool > 0.0
  {
    Point(c.ts, c.yesPool / (c.yesPool + c.noPool))
  }

  function Added(m: Memory, id: string, title: string, p: Point, caps: Caps): Memory {
    var all := HistoryOf(m, id) + [p];
    var kept := if caps.Capped? then Newest(all, caps.points) else all;
    Detect(Store(m, id, title, kept), id, title, kept, caps)
  }

  function Recorded(m: Memory, c: Call, caps: Caps): Memory {
    var buf := HistoryOf(m, c.marketId);
    if c.yesPool + c.noPool <= 0.0 then m
    else if TooSoon(buf, c.ts) then Named(m, c.marketId, c.title)
    else Added(m, c.marketId, c.title, Observed(c), caps)
  }

  function Replay(m: Memory, calls: seq<Call>, caps: Caps): Memory
    decreases |calls|
  {
    if calls == [] then m else Replay(Recorded(m, calls[0], caps), calls[1..], caps)
  }

  const EMPTY := Memory(map[], map[], [], map[])

  // -------------------------------------------------------------- refinement

  predicate Spaced(buf: seq<Point>) {
    forall i :: 0 < i < |buf| ==> buf[i].ts - buf[i - 1].ts >= SPACING_MS
  }

  lemma {:induction false} SpacedApart(buf: seq<Point>, i: nat, j: nat)
    requires Spaced(buf) && i <= j < |buf|
    ensures buf[j].ts - buf[i].ts >= SPACING_MS * (j - i)
    decreases j - i
  {
    if i < j { SpacedApart(buf, i, j - 1); }
  }

  /** At most 61 points of a spaced history fall in the look-back window of its last point. */
  lemma WindowHoldsAtMost61(buf: seq<Point>, i: nat)
    requires Spaced(buf) && i < |buf| && buf[i].ts >= buf[|buf| - 1].ts - LOOKBACK_MS
    ensures |buf| - i <= LOOKBACK_MS / SPACING_MS + 1
  {
    SpacedApart(buf, i, |buf| - 1);
  }

  lemma SuffixBase(full: seq<Point>, cut: nat, start: int)
    requires full != [] && full[|full| - 1].ts >= start && cut <= BaseIndex(full, start)
    ensures cut + BaseIndex(full[cut..], start) == BaseIndex(full, start)
  {
    var kept := full[cut..];
    assert kept[|kept| - 1] == full[|full| - 1];
    var f, k := BaseIndex(full, start), BaseIndex(kept, start);
    assert kept[f - cut] == full[f] && full[cut + k] == kept[k];
  }

  /** The newest 240 points have the same oldest in-window point as the whole history. */
  lemma SameBase(full: seq<Point>)
    requires full != [] && Spaced(full)
    ensures var kept := Newest(full, MAX_POINTS);
      var start := full[|full| - 1].ts - LOOKBACK_MS;
      kept != [] && kept[|kept| - 1] == full[|full| - 1]
      && kept[BaseIndex(kept, start)] == full[BaseIndex(full, start)]
  {
    var start := full[|full| - 1].ts - LOOKBACK_MS;
    var cut := |full| - |Newest(full, MAX_POINTS)|;
    assert Newest(full, MAX_POINTS) == full[cut..];
    WindowHoldsAtMost61(full, BaseIndex(full, start));
    SuffixBase(full, cut, start);
  }

  predicate HistoryAgrees(c: Memory, u: Memory) {
    && c.history.Keys == u.history.Keys
    && forall id :: id in u.history ==> c.history[id] == Newest(u.history[id], MAX_POINTS) && Spaced(u.history[id])
  }

  /** The capped detector shows what the unbounded one knows, up to its caps. */
  predicate Refines(c: Memory, u: Memory) {
    && HistoryAgrees(c, u)
    && c.titles == u.titles
    && c.lastShiftAt == u.lastShiftAt
    && c.shifts == First(u.shifts, MAX_SHIFTS)
  }

  lemma NewestStep<T>(s: seq<T>, x: T, n: nat)
    requires n > 0
    ensures Newest(Newest(s, n) + [x], n) == Newest(s + [x], n)
  {
  }

  lemma FirstStep<T>(s: seq<T>, x: T, n: nat)
    ensures First([x] + First(s, n), n) == First([x] + s, n)
  {
  }

  lemma RecordRefines(c: Memory, u: Memory, call: Call)
    requires Refines(c, u)
    ensures Refines(Recorded(c, call, AS_BUILT), Recorded(u, call, Unbounded))
  {
    var id, ub := call.marketId, HistoryOf(u, call.marketId);
    assert TooSoon(HistoryOf(c, id), call.ts) == TooSoon(ub, call.ts) by { HistoriesAgree(c, u, id, call.ts); }
    if call.yesPool + call.noPool <= 0.0 {
    } else if TooSoon(ub, call.ts) {
      assert Refines(Named(c, id, call.title), Named(u, id, call.title));
    } else {
      assert Spaced(ub + [Observed(call)]) by { HistoriesAgree(c, u, id, call.ts); }
      AddedRefines(c, u, id, call.title, Observed(call));
    }
  }

  lemma HistoriesAgree(c: Memory, u: Memory, id: string, ts: int)
    requires HistoryAgrees(c, u)
    ensures HistoryOf(c, id) == Newest(HistoryOf(u, id), MAX_POINTS) && Spaced(HistoryOf(u, id))
    ensures TooSoon(HistoryOf(c, id), ts) == TooSoon(HistoryOf(u, id), ts)
  {
  }

  lemma AddedRefines(c: Memory, u: Memory, id: string, title: string, p: Point)
    requires Refines(c, u) && Spaced(HistoryOf(u, id) + [p])
    ensures Refines(Added(c, id, title, p, AS_BUILT), Added(u, id, title, p, Unbounded))
  {
    var full := HistoryOf(u, id) + [p];
    var kept := Newest(full, MAX_POINTS);
    HistoriesAgree(c, u, id, p.ts);
    assert Newest(HistoryOf(c, id) + [p], MAX_POINTS) == kept by { NewestStep(HistoryOf(u, id), p, MAX_POINTS); }
    StoreRefines(c, u, id, title, full);
    DetectRefines(Store(c, id, title, kept), Store(u, id, title, full), id, title, kept, full);
  }

  lemma StoreRefines(c: Memory, u: Memory, id: string, title: string, full: seq<Point>)
    requires Refines(c, u) && Spaced(full)
    ensures Refines(Store(c, id, title, Newest(full, MAX_POINTS)), Store(u, id, title, full))
  {
    var c1, u1 := Store(c, id, title, Newest(full, MAX_POINTS)), Store(u, id, title, full);
    assert HistoryAgrees(c1, u1);
  }

  lemma DetectRefines(c: Memory, u: Memory, id: string, title: string, kept: seq<Point>, full: seq<Point>)
    requires Refines(c, u) && full != [] && Spaced(full) && kept == Newest(full, MAX_POINTS)
    ensures Refines(Detect(c, id, title, kept, AS_BUILT), Detect(u, id, title, full, Unbounded))
  {
    SameBase(full);
    assert Base(kept) == Base(full) && LastShift(c, id) == LastShift(u, id);
    assert |kept| >= 2 <==> |full| >= 2;
    var move := Move(id, title, Base(full), full[|full| - 1], LastShift(u, id));
    if |full| >= 2 && move.Some? { FirstStep(u.shifts, move.value, MAX_SHIFTS); }
  }

  /** For every sequence of calls the capped detector shows the newest 240 points and 40 shifts of the unbounded one. */
  lemma {:induction false} ReplayRefines(c: Memory, u: Memory, calls: seq<Call>)
    requires Refines(c, u)
    ensures Refines(Replay(c, calls, AS_BUILT), Replay(u, calls, Unbounded))
    decreases |calls|
  {
    if calls != [] {
      RecordRefines(c, u, calls[0]);
      ReplayRefines(Recorded(c, calls[0], AS_BUILT), Recorded(u, calls[0], Unbounded), calls[1..]);
    }
  }

  // ------------------------------------------------ what a shift promises

  /**
   A shift joins two recorded points of its market, five percent or more apart, the first being the oldest of the
   last 60 s.
  */
  predicate Genuine(buf: seq<Point>, s: Shift) {
    && s.delta == s.toYes - s.fromYes && Abs(s.delta) >= SHIFT_THRESHOLD
    && (s.direction == Up <==> s.toYes > s.fromYes)
    && s.fromTs <= s.toTs <= s.fromTs + LOOKBACK_MS
    && Point(s.fromTs, s.fromYes) in buf && Point(s.toTs, s.toYes) in buf
    && forall p :: p in buf && p.ts >= s.toTs - LOOKBACK_MS ==> p.ts >= s.fromTs
  }

  predicate Booked(m: Memory, s: Shift) {
    && Genuine(HistoryOf(m, s.marketId), s)
    && s.marketId in m.lastShiftAt && s.toTs <= m.lastShiftAt[s.marketId]
  }

  predicate AllBooked(m: Memory) { forall s :: s in m.shifts ==> Booked(m, s) }

  /** Newest first, and two shifts of one market are at least a window apart. */
  predicate Apart(shifts: seq<Shift>) {
    forall i, j :: 0 <= i < j < |shifts| && shifts[i].marketId == shifts[j].marketId ==>
      shifts[i].toTs >= shifts[j].toTs + LOOKBACK_MS
  }

  /** All shifts are genuine, and two shifts of one market are at least a window apart. */
  predicate Debounced(m: Memory) {
    (forall id :: id in m.history ==> Spaced(m.history[id])) && AllBooked(m) && Apart(m.shifts)
  }

  lemma BookedFrame(m: Memory, t: Memory, s: Shift)
    requires Booked(m, s) && HistoryOf(t, s.marketId) == HistoryOf(m, s.marketId)
    requires s.marketId in t.lastShiftAt && m.lastShiftAt[s.marketId] <= t.lastShiftAt[s.marketId]
    ensures Booked(t, s)
  {
  }

  lemma LastIsLatest(full: seq<Point>)
    requires Spaced(full) && full != []
    ensures forall p :: p in full ==> p.ts <= full[|full| - 1].ts
  {
    forall p | p in full ensures p.ts <= full[|full| - 1].ts {
      var i :| 0 <= i < |full| && full[i] == p;
      SpacedApart(full, i, |full| - 1);
    }
  }

  lemma GenuineLater(buf: seq<Point>, p: Point, s: Shift)
    requires Genuine(buf, s) && Spaced(buf + [p])
    ensures Genuine(buf + [p], s)
  {
    LastIsLatest(buf + [p]);
  }

  lemma MoveIsGenuine(id: string, title: string, full: seq<Point>, lastShift: int)
    requires full != [] && Spaced(full)
    ensures var move := Move(id, title, Base(full), full[|full| - 1], lastShift);
      move.Some? ==> Genuine(full, move.value)
  {
    var now := full[|full| - 1];
    var b := BaseIndex(full, now.ts - LOOKBACK_MS);
    assert now.ts >= now.ts - LOOKBACK_MS;
    LastIsLatest(full);
    forall p | p in full && p.ts >= now.ts - LOOKBACK_MS ensures p.ts >= full[b].ts {
      var i :| 0 <= i < |full| && full[i] == p;
      SpacedApart(full, b, if i < b then b else i);
    }
    assert full[b] in full && now in full;
  }

  lemma ReportDebounces(u: Memory, s: Shift)
    requires Debounced(u) && Genuine(HistoryOf(u, s.marketId), s)
    requires s.toTs - LastShift(u, s.marketId) >= LOOKBACK_MS
    ensures Debounced(Report(u, s, Unbounded))
  {
    var t := Report(u, s, Unbounded);
    assert t.shifts == [s] + u.shifts && t.history == u.history;
    assert Booked(t, s);
    forall x | x in u.shifts ensures Booked(t, x) { BookedFrame(u, t, x); }
    ApartCons(u, s);
  }

  lemma ApartCons(u: Memory, s: Shift)
    requires AllBooked(u) && Apart(u.shifts)
    requires s.toTs - LastShift(u, s.marketId) >= LOOKBACK_MS
    ensures Apart([s] + u.shifts)
  {
    forall x | x in u.shifts && x.marketId == s.marketId ensures s.toTs >= x.toTs + LOOKBACK_MS {
      assert Booked(u, x);
    }
  }

  lemma StoreDebounces(u: Memory, id: string, title: string, p: Point)
    requires Debounced(u) && Spaced(HistoryOf(u, id) + [p])
    ensures Debounced(Store(u, id, title, HistoryOf(u, id) + [p]))
  {
    var ub := HistoryOf(u, id);
    var t := Store(u, id, title, ub + [p]);
    forall x | x in u.shifts ensures Booked(t, x) {
      assert Booked(u, x);
      if x.marketId == id { GenuineLater(ub, p, x); } else { BookedFrame(u, t, x); }
    }
  }

  lemma DetectDebounces(u: Memory, id: string, title: string, full: seq<Point>)
    requires Debounced(u) && full != [] && HistoryOf(u, id) == full && Spaced(full)
    ensures Debounced(Detect(u, id, title, full, Unbounded))
  {
    var move := Move(id, title, Base(full), full[|full| - 1], LastShift(u, id));
    MoveIsGenuine(id, title, full, LastShift(u, id));
    if move.Some? { ReportDebounces(u, move.value); }
  }

  lemma RecordDebounces(u: Memory, call: Call)
    requires Debounced(u)
    ensures Debounced(Recorded(u, call, Unbounded))
  {
    var id := call.marketId;
    var ub := HistoryOf(u, id);
    if call.yesPool + call.noPool > 0.0 {
      if TooSoon(ub, call.ts) {
        NamingDebounces(u, id, call.title);
      } else {
        var full := ub + [Observed(call)];
        assert Spaced(full);
        StoreDebounces(u, id, call.title, Observed(call));
        DetectDebounces(Store(u, id, call.title, full), id, call.title, full);
      }
    }
  }

  lemma NamingDebounces(u: Memory, id: string, title: string)
    requires Debounced(u)
    ensures Debounced(Named(u, id, title))
  {
    forall x | x in u.shifts ensures Booked(Named(u, id, title), x) { BookedFrame(u, Named(u, id, title), x); }
  }

  /** Whatever is recorded, at most one shift per market per minute, each between two recorded points. */
  lemma {:induction false} ReplayDebounces(u: Memory, calls: seq<Call>)
    requires Debounced(u)
    ensures Debounced(Replay(u, calls, Unbounded))
    decreases |calls|
  {
    if calls != [] {
      RecordDebounces(u, calls[0]);
      ReplayDebounces(Recorded(u, calls[0], Unbounded), calls[1..]);
    }
  }

  // ---------------------------------------------------- no move is missed

  predicate Sharp(buf: seq<Point>) {
    |buf| >= 2 && Abs(buf[|buf| - 1].yes - Base(buf).yes) >= SHIFT_THRESHOLD
  }

  predicate ShiftWithin(shifts: seq<Shift>, id: string, ts: int) {
    exists x :: x in shifts && x.marketId == id && ts - LOOKBACK_MS < x.toTs <= ts
  }

  predicate Noticed(buf: seq<Point>, i: nat, id: string, shifts: seq<Shift>)
    requires i < |buf|
  {
    Sharp(buf[..i + 1]) && buf[i].ts >= LOOKBACK_MS ==> ShiftWithin(shifts, id, buf[i].ts)
  }

  predicate LastIsReported(m: Memory, id: string) {
    id in m.lastShiftAt ==>
      && HistoryOf(m, id) != []
      && m.lastShiftAt[id] <= HistoryOf(m, id)[|HistoryOf(m, id)| - 1].ts
      && exists x :: x in m.shifts && x.marketId == id && x.toTs == m.lastShiftAt[id]
  }

  /** Every recorded sharp move has a reported shift of its market within the minute up to it. */
  ghost predicate Vigilant(m: Memory) {
    && (forall id: string, i :: 0 <= i < |HistoryOf(m, id)| ==> Noticed(HistoryOf(m, id), i, id, m.shifts))
    && forall id: string :: LastIsReported(m, id)
  }

  lemma MoreShifts(shifts: seq<Shift>, more: seq<Shift>, id: string, ts: int)
    requires ShiftWithin(shifts, id, ts) && forall x :: x in shifts ==> x in more
    ensures ShiftWithin(more, id, ts)
  {
    var x :| x in shifts && x.marketId == id && ts - LOOKBACK_MS < x.toTs <= ts;
    assert x in more;
  }

  /** `t` is `u` after point `p` of market `id`, with the shift it brings, if any. */
  ghost predicate Stored(u: Memory, t: Memory, id: string, p: Point, title: string) {
    var full := HistoryOf(u, id) + [p];
    var move := Move(id, title, Base(full), p, LastShift(u, id));
    && t.history == u.history[id := full]
    && (HistoryOf(u, id) == [] || p.ts >= HistoryOf(u, id)[|HistoryOf(u, id)| - 1].ts)
    && if |full| < 2 || move.None? then t.shifts == u.shifts && t.lastShiftAt == u.lastShiftAt
       else t.shifts == [move.value] + u.shifts && t.lastShiftAt == u.lastShiftAt[id := p.ts]
  }

  lemma StoredKeepsShifts(u: Memory, t: Memory, id: string, p: Point, title: string)
    requires Stored(u, t, id, p, title)
    ensures forall x :: x in u.shifts ==> x in t.shifts
    ensures t.lastShiftAt == u.lastShiftAt ||
      (t.lastShiftAt == u.lastShiftAt[id := p.ts] && exists x :: x in t.shifts && x.marketId == id && x.toTs == p.ts)
  {
    assert t.shifts != u.shifts ==> t.shifts[0] in t.shifts;
  }

  lemma StoredIsReported(u: Memory, t: Memory, id: string, p: Point, title: string, k: string)
    requires Stored(u, t, id, p, title) && LastIsReported(u, k)
    ensures LastIsReported(t, k)
  {
    StoredKeepsShifts(u, t, id, p, title);
  }

  lemma NewPointIsNoticed(u: Memory, t: Memory, id: string, p: Point, title: string)
    requires Stored(u, t, id, p, title) && LastIsReported(u, id)
    ensures Noticed(HistoryOf(t, id), |HistoryOf(u, id)|, id, t.shifts)
  {
    var full := HistoryOf(u, id) + [p];
    StoredKeepsShifts(u, t, id, p, title);
    assert full[..|full|] == full;
  }

  lemma OldPointIsNoticed(u: Memory, t: Memory, id: string, p: Point, title: string, k: string, i: nat)
    requires Stored(u, t, id, p, title) && i < |HistoryOf(u, k)| && Noticed(HistoryOf(u, k), i, k, u.shifts)
    ensures i < |HistoryOf(t, k)| && Noticed(HistoryOf(t, k), i, k, t.shifts)
  {
    var now, before := HistoryOf(t, k), HistoryOf(u, k);
    StoredKeepsShifts(u, t, id, p, title);
    assert now[..i + 1] == before[..i + 1];
    if Sharp(now[..i + 1]) && now[i].ts >= LOOKBACK_MS { MoreShifts(u.shifts, t.shifts, k, now[i].ts); }
  }

  lemma StoreIsVigilant(u: Memory, t: Memory, id: string, p: Point, title: string)
    requires Vigilant(u) && Stored(u, t, id, p, title)
    ensures Vigilant(t)
  {
    forall k: string ensures LastIsReported(t, k) {
      StoredIsReported(u, t, id, p, title, k);
    }
    forall k: string, i | 0 <= i < |HistoryOf(t, k)| ensures Noticed(HistoryOf(t, k), i, k, t.shifts) {
      if k == id && i == |HistoryOf(u, id)| {
        assert LastIsReported(u, id);
        NewPointIsNoticed(u, t, id, p, title);
      } else {
        OldPointIsNoticed(u, t, id, p, title, k, i);
      }
    }
  }

  lemma RecordIsVigilant(u: Memory, call: Call)
    requires Vigilant(u)
    ensures Vigilant(Recorded(u, call, Unbounded))
  {
    var id := call.marketId;
    var t := Recorded(u, call, Unbounded);
    if call.yesPool + call.noPool > 0.0 && !TooSoon(HistoryOf(u, id), call.ts) {
      StoreIsVigilant(u, t, id, Observed(call), call.title);
    } else {
      SameView(u, t);
    }
  }

  lemma SameView(u: Memory, t: Memory)
    requires Vigilant(u) && t.history == u.history && t.shifts == u.shifts && t.lastShiftAt == u.lastShiftAt
    ensures Vigilant(t)
  {
    forall id: string ensures LastIsReported(t, id) { assert LastIsReported(u, id); }
    forall id: string, i | 0 <= i < |HistoryOf(t, id)| ensures Noticed(HistoryOf(t, id), i, id, t.shifts) {
      assert Noticed(HistoryOf(u, id), i, id, u.shifts);
    }
  }

  /** Over every sequence of calls no sharp move goes unreported for a whole window. */
  lemma {:induction false} ReplayIsVigilant(u: Memory, calls: seq<Call>)
    requires Vigilant(u)
    ensures Vigilant(Replay(u, calls, Unbounded))
    decreases |calls|
  {
    if calls != [] {
      RecordIsVigilant(u, calls[0]);
      ReplayIsVigilant(Recorded(u, calls[0], Unbounded), calls[1..]);
    }
  }

  // --------------------------------------------------------------- the class

  class Tracker {
    var history: map<string, seq<Point>>
    var titles: map<string, string>
    var shifts: seq<Shift>
    var lastShiftAt: map<string, int>

    ghost function Contents(): Memory
      reads this
    {
      Memory(history, titles, shifts, lastShiftAt)
    }

    /** The caps hold. */
    ghost predicate Valid()
      reads this
    {
      |shifts| <= MAX_SHIFTS && forall id :: id in history ==> |history[id]| <= MAX_POINTS
    }

    constructor ()
      ensures Valid() && Contents() == EMPTY
    {
      history, titles, shifts, lastShiftAt := map[], map[], [], map[];
    }

    method Record(marketId: string, title: string, yesPool: real, noPool: real, ts: int)
      requires Valid()
      modifies this
      ensures Valid() && Contents() == Recorded(old(Contents()), Call(marketId, title, yesPool, noPool, ts), AS_BUILT)
    {
      var total := yesPool + noPool;
      if total <= 0.0 { return; }
      var yes := yesPool / total;
      titles := titles[marketId := title];
      var buf := if marketId in history then history[marketId] else [];
      ghost var call := Call(marketId, title, yesPool, noPool, ts);
      assert buf == HistoryOf(old(Contents()), marketId) && |buf| <= MAX_POINTS;
      if buf != [] && ts - buf[|buf| - 1].ts < SPACING_MS { return; }
      buf := buf + [Point(ts, yes)];
      ghost var all := buf;
      assert all == HistoryOf(old(Contents()), marketId) + [Observed(call)];
      if |buf| > MAX_POINTS {
        buf := buf[1..];
      }
      assert buf == Newest(all, MAX_POINTS);
      history := history[marketId := buf];
      assert Contents() == Store(old(Contents()), marketId, title, buf);
      DetectShift(marketId, title, buf);
    }

    /** Oldest point within the look-back window, found by scanning from the front. */
    method FindBase(buf: seq<Point>, windowStart: int) returns (base: Point)
      requires buf != []
      ensures base == buf[BaseIndex(buf, windowStart)]
    {
      base := buf[0];
      for i := 0 to |buf|
        invariant forall j :: 0 <= j < i ==> buf[j].ts < windowStart
        invariant base == buf[0]
      {
        if buf[i].ts >= windowStart { return buf[i]; }
      }
    }

    method DetectShift(marketId: string, title: string, buf: seq<Point>)
      requires Valid()
      modifies this
      ensures Valid() && Contents() == Detect(old(Contents()), marketId, title, buf, AS_BUILT)
    {
      if |buf| < 2 { return; }
      var now := buf[|buf| - 1];
      var base := FindBase(buf, now.ts - LOOKBACK_MS);
      var delta := now.yes - base.yes;
      if Abs(delta) < SHIFT_THRESHOLD { return; }
      var lastShift := if marketId in lastShiftAt then lastShiftAt[marketId] else 0;
      if now.ts - lastShift < LOOKBACK_MS { return; }
      lastShiftAt := lastShiftAt[marketId := now.ts];
      var direction := if delta >= 0.0 then Up else Down;
      shifts := [Shift(marketId, title, base.ts, now.ts, base.yes, now.yes, delta, direction)] + shifts;
      if |shifts| > MAX_SHIFTS { shifts := shifts[..|shifts| - 1]; }
    }
  }
}
