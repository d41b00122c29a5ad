/** Settled-position history: the capped, de-duplicated list and the streak statistics read off it. */
module History {

  datatype Outcome = Yes | No | Void
  datatype Position = Position(marketId: string, owner: string, side: Outcome, amount: int, outcome: Outcome,
                               payout: int, settledAt: int)

  // ------------------------------------------------------- time-ordered list

  /** Insert after everything that is not later. */
  function Insert(s: seq<Position>, x: Position): (r: seq<Position>)
    ensures |r| == |s| + 1
  {
    if s == [] || s[|s| - 1].settledAt <= x.settledAt then s + [x]
    else Insert(s[..|s| - 1], x) + [s[|s| - 1]]
  }

  /** The stable sort by settlement time. */
  function InTime(xs: seq<Position>): (r: seq<Position>)
    ensures |r| == |xs|
  {
    if xs == [] then [] else Insert(InTime(xs[..|xs| - 1]), xs[|xs| - 1])
  }

  predicate Ordered(s: seq<Position>) {
    forall i, j :: 0 <= i < j < |s| ==> s[i].settledAt <= s[j].settledAt
  }

  function Select(s: seq<Position>, keep: Position -> bool): seq<Position> {
    if s == [] then []
    else if keep(s[|s| - 1]) then Select(s[..|s| - 1], keep) + [s[|s| - 1]]
    else Select(s[..|s| - 1], keep)
  }

  lemma {:induction false} SelectMembers(s: seq<Position>, keep: Position -> bool)
    ensures forall x :: x in Select(s, keep) <==> x in s && keep(x)
  {
    if s != [] {
      var front, last := s[..|s| - 1], s[|s| - 1];
      assert s == front + [last];
      SelectMembers(front, keep);
    }
  }

  lemma InsertMembers(s: seq<Position>, x: Position)
    ensures forall y :: y in Insert(s, x) <==> y in s || y == x
  {
    if s != [] && s[|s| - 1].settledAt > x.settledAt {
      InsertMembers(s[..|s| - 1], x);
      assert s == s[..|s| - 1] + [s[|s| - 1]];
    }
  }

  lemma OrderedAppend(s: seq<Position>, x: Position)
    requires Ordered(s) && forall y :: y in s ==> y.settledAt <= x.settledAt
    ensures Ordered(s + [x])
  {
  }

  lemma OrderedFront(s: seq<Position>)
    requires Ordered(s) && s != []
    ensures Ordered(s[..|s| - 1]) && forall y :: y in s ==> y.settledAt <= s[|s| - 1].settledAt
  {
  }

  lemma {:induction false} InsertOrdered(s: seq<Position>, x: Position)
    requires Ordered(s)
    ensures Ordered(Insert(s, x))
  {
    if s == [] {
    } else if s[|s| - 1].settledAt <= x.settledAt {
      OrderedFront(s);
      OrderedAppend(s, x);
    } else {
      var front, last := s[..|s| - 1], s[|s| - 1];
      OrderedFront(s);
      InsertOrdered(front, x);
      InsertMembers(front, x);
      assert forall y :: y in front ==> y in s;
      OrderedAppend(Insert(front, x), last);
    }
  }

  lemma SelectAppend(s: seq<Position>, x: Position, keep: Position -> bool)
    ensures Select(s + [x], keep) == if keep(x) then Select(s, keep) + [x] else Select(s, keep)
  {
    assert (s + [x])[..|s|] == s;
  }

  lemma InsertAtEnd(s: seq<Position>, x: Position)
    requires forall y :: y in s ==> y.settledAt <= x.settledAt
    ensures Insert(s, x) == s + [x]
  {
  }

  lemma InsertBefore(s: seq<Position>, last: Position, x: Position)
    requires last.settledAt > x.settledAt
    ensures Insert(s + [last], x) == Insert(s, x) + [last]
  {
    assert (s + [last])[..|s|] == s;
  }

  /** Choosing entries and inserting one in time order commute. */
  lemma {:induction false} SelectInsert(s: seq<Position>, x: Position, keep: Position -> bool)
    requires Ordered(s)
    ensures Select(Insert(s, x), keep) == if keep(x) then Insert(Select(s, keep), x) else Select(s, keep)
  {
    if s == [] || s[|s| - 1].settledAt <= x.settledAt {
      SelectAppend(s, x, keep);
      if s != [] { OrderedFront(s); }
      SelectMembers(s, keep);
      InsertAtEnd(Select(s, keep), x);
    } else {
      var front, last := s[..|s| - 1], s[|s| - 1];
      OrderedFront(s);
      SelectInsert(front, x, keep);
      SelectAppend(Insert(front, x), last, keep);
      InsertBefore(Select(front, keep), last, x);
    }
  }

  lemma {:induction false} InTimeOrdered(xs: seq<Position>)
    ensures Ordered(InTime(xs))
  {
    if xs != [] {
      InTimeOrdered(xs[..|xs| - 1]);
      InsertOrdered(InTime(xs[..|xs| - 1]), xs[|xs| - 1]);
    }
  }

  /** Sorting commutes with any selection; so it keeps every entry, and entries of equal time keep their order. */
  lemma {:induction false} SortSelects(xs: seq<Position>, keep: Position -> bool)
    ensures Select(InTime(xs), keep) == InTime(Select(xs, keep))
  {
    if xs != [] {
      var front, x := xs[..|xs| - 1], xs[|xs| - 1];
      SortSelects(front, keep);
      InTimeOrdered(front);
      SelectInsert(InTime(front), x, keep);
      InTimeAppend(Select(front, keep), x);
    }
  }

  lemma InTimeAppend(xs: seq<Position>, x: Position)
    ensures InTime(xs + [x]) == Insert(InTime(xs), x)
  {
    assert (xs + [x])[..|xs|] == xs;
  }

  // ----------------------------------------------------------------- streaks

  function Won(p: Position): bool { p.side == p.outcome }

  function Settled(p: Position): bool { p.outcome != Void }

  /** Results of the positions that were not voided, in list order. */
  function Results(s: seq<Position>): seq<bool> {
    if s == [] then []
    else if Settled(s[|s| - 1]) then Results(s[..|s| - 1]) + [Won(s[|s| - 1])]
    else Results(s[..|s| - 1])
  }

  lemma ResultsAppend(s: seq<Position>, x: Position)
    ensures Results(s + [x]) == if Settled(x) then Results(s) + [Won(x)] else Results(s)
  {
    assert (s + [x])[..|s|] == s;
  }

  lemma {:induction false} ResultsOfSettled(s: seq<Position>)
    ensures Results(Select(s, Settled)) == Results(s)
  {
    if s != [] {
      var front, x := s[..|s| - 1], s[|s| - 1];
      assert s == front + [x];
      ResultsOfSettled(front);
      SelectAppend(front, x, Settled);
      ResultsAppend(front, x);
      ResultsAppend(Select(front, Settled), x);
    }
  }

  function Unit(win: bool): int { if win then 1 else -1 }

  function Magnitude(n: int): nat { if n < 0 then -n else n }

  /** Signed length of the streak the results end with. */
  function Current(rs: seq<bool>): int {
    if rs == [] then 0
    else
      var before, r := Current(rs[..|rs| - 1]), rs[|rs| - 1];
      if |rs| > 1 && rs[|rs| - 2] == r then before + Unit(r) else Unit(r)
  }

  /** Signed length of the first longest streak. */
  function Best(rs: seq<bool>): int {
    if rs == [] then 0
    else
      var b := Best(rs[..|rs| - 1]);
      if Magnitude(Current(rs)) > Magnitude(b) then Current(rs) else b
  }

  /** One more result. */
  lemma StreakStep(rs: seq<bool>, r: bool)
    ensures Current(rs + [r]) == if rs != [] && rs[|rs| - 1] == r then Current(rs) + Unit(r) else Unit(r)
    ensures Best(rs + [r]) == if Magnitude(Current(rs + [r])) > Magnitude(Best(rs)) then Current(rs + [r]) else Best(rs)
  {
    assert (rs + [r])[..|rs|] == rs;
  }

  /** `rs[i..j]` is one uninterrupted streak. */
  predicate Streak(rs: seq<bool>, i: nat, j: nat)
    requires i <= j <= |rs|
  {
    forall k :: i <= k < j ==> rs[k] == rs[i]
  }

  /** The current streak is the longest run at the end, with the sign of its result. */
  lemma {:induction false} CurrentIsTrailing(rs: seq<bool>)
    requires rs != []
    ensures var c := Current(rs);
      var start := |rs| - Magnitude(c);
      && 0 <= start < |rs| && (c > 0 <==> rs[|rs| - 1]) && c != 0
      && Streak(rs, start, |rs|) && (start > 0 ==> rs[start - 1] != rs[start])
  {
    if |rs| > 1 {
      var front := rs[..|rs| - 1];
      CurrentIsTrailing(front);
      assert front[|front| - 1] == rs[|rs| - 2];
      var s := |front| - Magnitude(Current(front));
      assert Streak(front, s, |front|);
      forall k | s <= k < |front| ensures rs[k] == rs[s] { assert front[k] == front[s]; }
    }
  }

  predicate StreakOf(rs: seq<bool>, i: nat, b: int) {
    && i + Magnitude(b) <= |rs| && b != 0 && Streak(rs, i, i + Magnitude(b)) && (b > 0 <==> rs[i])
  }

  /** No streak is longer than the best one, and no equally long streak starts before it. */
  predicate Longest(rs: seq<bool>, i: nat, b: int) {
    forall j, k :: 0 <= j <= k <= |rs| && Streak(rs, j, k) ==>
      k - j <= Magnitude(b) && (k - j == Magnitude(b) && k > j ==> j >= i)
  }

  lemma StreakFitsCurrent(rs: seq<bool>, j: nat)
    requires j < |rs| && Streak(rs, j, |rs|)
    ensures j >= |rs| - Magnitude(Current(rs))
  {
    CurrentIsTrailing(rs);
    var start := |rs| - Magnitude(Current(rs));
    assert forall k :: j <= k < |rs| ==> rs[k] == rs[j];
  }

  /** `bestStreak` is the signed length of the first longest streak. */
  lemma {:induction false} BestIsFirstLongest(rs: seq<bool>) returns (i: nat)
    requires rs != []
    ensures StreakOf(rs, i, Best(rs)) && Longest(rs, i, Best(rs))
  {
    var front := rs[..|rs| - 1];
    CurrentIsTrailing(rs);
    var c := Current(rs);
    var start := |rs| - Magnitude(c);
    if front == [] {
      i := start;
    } else {
      var at := BestIsFirstLongest(front);
      var b := Best(front);
      i := if Magnitude(c) > Magnitude(b) then start else at;
      forall k | at <= k < at + Magnitude(b) ensures rs[k] == rs[at] { assert front[k] == front[at]; }
    }
    forall j, k | 0 <= j <= k <= |rs| && Streak(rs, j, k)
      ensures k - j <= Magnitude(Best(rs)) && (k - j == Magnitude(Best(rs)) && k > j ==> j >= i)
    {
      if k == |rs| {
        if j < k { StreakFitsCurrent(rs, j); }
      } else {
        assert Streak(front, j, k) by { forall x | j <= x < k ensures front[x] == front[j] { assert rs[x] == rs[j]; } }
      }
    }
  }

  // -------------------------------------------------------------- statistics

  datatype Stats = Stats(totalBets: nat, wins: nat, losses: nat, voids: nat, pnl: int, volume: int,
                         currentStreak: int, bestStreak: int)

  function Count(s: seq<Position>, keep: Position -> bool): nat {
    if s == [] then 0 else Count(s[..|s| - 1], keep) + if keep(s[|s| - 1]) then 1 else 0
  }

  function Gain(p: Position): int {
    if p.outcome == Void then 0 else if Won(p) then p.payout - p.amount else -p.amount
  }

  function Total(s: seq<Position>, value: Position -> int): int {
    if s == [] then 0 else Total(s[..|s| - 1], value) + value(s[|s| - 1])
  }

  function IsWin(p: Position): bool { Settled(p) && Won(p) }
  function IsLoss(p: Position): bool { Settled(p) && !Won(p) }
  function IsVoid(p: Position): bool { p.outcome == Void }
  function Stake(p: Position): int { p.amount }

  /** The statistics of a list, streaks read in time order. */
  function StatsOf(history: seq<Position>): Stats {
    var s := InTime(history);
    var rs := Results(s);
    Stats(|history|, Count(s, IsWin), Count(s, IsLoss), Count(s, IsVoid), Total(s, Gain), Total(s, Stake),
          Current(rs), Best(rs))
  }

  /** The loop's variables after the positions `s`; `last` holds the type of the running streak. */
  datatype Tally = Tally(wins: int, losses: int, voids: int, pnl: int, volume: int, current: int, best: int,
                         last: seq<bool>)

  function TallyOf(s: seq<Position>): Tally {
    var rs := Results(s);
    Tally(Count(s, IsWin), Count(s, IsLoss), Count(s, IsVoid), Total(s, Gain), Total(s, Stake),
          Current(rs), Best(rs), if rs == [] then [] else [rs[|rs| - 1]])
  }

  lemma TallyOfVoid(s: seq<Position>, x: Position)
    requires !Settled(x)
    ensures var t := TallyOf(s); TallyOf(s + [x]) == t.(voids := t.voids + 1, volume := t.volume + x.amount)
  {
    TallyCounts(s, x);
    ResultsAppend(s, x);
  }

  lemma TallyCounts(s: seq<Position>, x: Position)
    ensures var a, b := TallyOf(s), TallyOf(s + [x]);
      && b.wins == a.wins + (if IsWin(x) then 1 else 0) && b.losses == a.losses + (if IsLoss(x) then 1 else 0)
      && b.voids == a.voids + (if IsVoid(x) then 1 else 0)
      && b.pnl == a.pnl + Gain(x) && b.volume == a.volume + x.amount
  {
    CountAppend(s, x, IsWin);
    CountAppend(s, x, IsLoss);
    CountAppend(s, x, IsVoid);
    TotalAppend(s, x, Gain);
    TotalAppend(s, x, Stake);
  }

  lemma TallyStreaks(s: seq<Position>, x: Position)
    requires Settled(x)
    ensures var a, b := TallyOf(s), TallyOf(s + [x]);
      && b.current == (if a.last == [Won(x)] then a.current + Unit(Won(x)) else Unit(Won(x)))
      && b.best == (if Magnitude(b.current) > Magnitude(a.best) then b.current else a.best)
      && b.last == [Won(x)]
  {
    ResultsAppend(s, x);
    StreakStep(Results(s), Won(x));
  }

  method ComputeHistoryStats(history: seq<Position>) returns (r: Stats)
    ensures r == StatsOf(history)
  {
    var wins, losses, voids := 0, 0, 0;
    var totalPnl, totalVolume := 0, 0;
    var sorted := InTime(history);
    var currentStreak, bestStreak := 0, 0;
    var streakType: seq<bool> := [];
    for i := 0 to |sorted|
      invariant Tally(wins, losses, voids, totalPnl, totalVolume, currentStreak, bestStreak, streakType)
        == TallyOf(sorted[..i])
    {
      var pos := sorted[i];
      assert sorted[..i + 1] == sorted[..i] + [pos];
      totalVolume := totalVolume + pos.amount;
      if pos.outcome == Void {
        TallyOfVoid(sorted[..i], pos);
        voids := voids + 1;
        continue;
      }
      TallyCounts(sorted[..i], pos);
      TallyStreaks(sorted[..i], pos);
      var isWin := pos.side == pos.outcome;
      if isWin {
        wins := wins + 1;
        totalPnl := totalPnl + pos.payout - pos.amount;
      } else {
        losses := losses + 1;
        totalPnl := totalPnl - pos.amount;
      }
      if streakType == [isWin] {
        currentStreak := currentStreak + Unit(isWin);
      } else {
        currentStreak := Unit(isWin);
        streakType := [isWin];
      }
      if Magnitude(currentStreak) > Magnitude(bestStreak) { bestStreak := currentStreak; }
    }
    assert sorted[..|sorted|] == sorted;
    r := Stats(|history|, wins, losses, voids, totalPnl, totalVolume, currentStreak, bestStreak);
  }

  lemma {:induction false} CountsAddUp(s: seq<Position>)
    ensures Count(s, IsWin) + Count(s, IsLoss) + Count(s, IsVoid) == |s|
    ensures Count(s, IsWin) + Count(s, IsLoss) == |Results(s)|
  {
    if s != [] { CountsAddUp(s[..|s| - 1]); }
  }

  lemma CountAppend(s: seq<Position>, x: Position, keep: Position -> bool)
    ensures Count(s + [x], keep) == Count(s, keep) + if keep(x) then 1 else 0
  {
    assert (s + [x])[..|s|] == s;
  }

  lemma TotalAppend(s: seq<Position>, x: Position, value: Position -> int)
    ensures Total(s + [x], value) == Total(s, value) + value(x)
  {
    assert (s + [x])[..|s|] == s;
  }

  /** Leaving out entries outside `keep` loses no entry counted by a narrower test. */
  lemma {:induction false} CountSelected(s: seq<Position>, keep: Position -> bool, test: Position -> bool)
    requires forall x :: test(x) ==> keep(x)
    ensures Count(Select(s, keep), test) == Count(s, test)
  {
    if s != [] {
      var front, x := s[..|s| - 1], s[|s| - 1];
      CountSelected(front, keep, test);
      CountAppend(Select(front, keep), x, test);
    }
  }

  lemma {:induction false} CountOutside(s: seq<Position>, keep: Position -> bool, test: Position -> bool)
    requires forall x :: test(x) ==> !keep(x)
    ensures Count(Select(s, keep), test) == 0
  {
    if s != [] {
      var front, x := s[..|s| - 1], s[|s| - 1];
      CountOutside(front, keep, test);
      CountAppend(Select(front, keep), x, test);
    }
  }

  lemma {:induction false} TotalSelected(s: seq<Position>, keep: Position -> bool, value: Position -> int)
    requires forall x :: !keep(x) ==> value(x) == 0
    ensures Total(Select(s, keep), value) == Total(s, value)
  {
    if s != [] {
      var front, x := s[..|s| - 1], s[|s| - 1];
      TotalSelected(front, keep, value);
      TotalAppend(Select(front, keep), x, value);
    }
  }

  lemma VoidsAddNothing(s: seq<Position>)
    ensures var k := Select(s, Settled);
      Count(k, IsWin) == Count(s, IsWin) && Count(k, IsLoss) == Count(s, IsLoss)
      && Count(k, IsVoid) == 0 && Total(k, Gain) == Total(s, Gain)
  {
    CountSelected(s, Settled, IsWin);
    CountSelected(s, Settled, IsLoss);
    CountOutside(s, Settled, IsVoid);
    TotalSelected(s, Settled, Gain);
  }

  /** Every bet is a win, a loss or a void, and deleting all voids changes no streak, tally or profit. */
  lemma VoidsChangeNothing(history: seq<Position>)
    ensures var a, b := StatsOf(history), StatsOf(Select(history, Settled));
      && a.wins + a.losses + a.voids == a.totalBets
      && b.wins == a.wins && b.losses == a.losses && b.voids == 0 && b.pnl == a.pnl
      && b.currentStreak == a.currentStreak && b.bestStreak == a.bestStreak
  {
    var s := InTime(history);
    CountsAddUp(s);
    SortSelects(history, Settled);
    VoidsAddNothing(s);
    ResultsOfSettled(s);
  }

  // ------------------------------------------------------------ the capped list

  const CAP := 100

  predicate SameBet(a: Position, b: Position) { a.marketId == b.marketId && a.owner == b.owner }

  function First(s: seq<Position>, n: nat): seq<Position> { if |s| <= n then s else s[..n] }

  /** The list without earlier records of the same bet. */
  function Others(s: seq<Position>, pos: Position): seq<Position> {
    if s == [] then []
    else if SameBet(s[0], pos) then Others(s[1..], pos)
    else [s[0]] + Others(s[1..], pos)
  }

  /** Record without a cap. */
  function Recorded(s: seq<Position>, pos: Position): seq<Position> { [pos] + Others(s, pos) }

  predicate OnePerBet(s: seq<Position>) {
    forall i, j :: 0 <= i < j < |s| ==> !SameBet(s[i], s[j])
  }

  lemma {:induction false} OthersMembers(s: seq<Position>, pos: Position)
    ensures forall x :: x in Others(s, pos) <==> x in s && !SameBet(x, pos)
  {
    if s != [] {
      assert s == [s[0]] + s[1..];
      OthersMembers(s[1..], pos);
    }
  }

  lemma OnePerBetCons(h: Position, t: seq<Position>)
    requires OnePerBet(t) && forall x :: x in t ==> !SameBet(h, x)
    ensures OnePerBet([h] + t)
  {
  }

  lemma OnePerBetTail(s: seq<Position>)
    requires OnePerBet(s) && s != []
    ensures OnePerBet(s[1..]) && forall x :: x in s[1..] ==> !SameBet(s[0], x)
  {
  }

  lemma {:induction false} OthersKeepsOnePerBet(s: seq<Position>, pos: Position)
    requires OnePerBet(s)
    ensures OnePerBet(Others(s, pos))
  {
    if s != [] {
      OnePerBetTail(s);
      OthersKeepsOnePerBet(s[1..], pos);
      OthersMembers(s[1..], pos);
      if !SameBet(s[0], pos) { OnePerBetCons(s[0], Others(s[1..], pos)); }
    }
  }

  lemma {:induction false} NoneToRemove(s: seq<Position>, pos: Position)
    requires forall x :: x in s ==> !SameBet(x, pos)
    ensures Others(s, pos) == s
  {
    if s != [] {
      NoneToRemove(s[1..], pos);
      assert s == [s[0]] + s[1..];
    }
  }

  lemma OthersOfCons(h: Position, t: seq<Position>, pos: Position)
    ensures Others([h] + t, pos) == if SameBet(h, pos) then Others(t, pos) else [h] + Others(t, pos)
  {
    assert ([h] + t)[1..] == t;
  }

  lemma FirstOfCons(h: Position, t: seq<Position>, n: nat)
    requires n > 0
    ensures First([h] + t, n) == [h] + First(t, n - 1)
  {
  }

  /** Filtering a cut list and cutting the filtered list agree as far as one entry short of the cut. */
  lemma {:induction false} CutOthers(s: seq<Position>, pos: Position, n: nat)
    requires OnePerBet(s) && n > 0
    ensures First(Others(First(s, n), pos), n - 1) == First(Others(s, pos), n - 1)
  {
    if s != [] && n > 1 {
      var h, t := s[0], s[1..];
      assert s == [h] + t;
      OnePerBetTail(s);
      FirstOfCons(h, t, n);
      OthersOfCons(h, t, pos);
      OthersOfCons(h, First(t, n - 1), pos);
      if SameBet(h, pos) {
        NoneToRemove(t, pos);
        NoneToRemove(First(t, n - 1), pos);
      } else {
        CutOthers(t, pos, n - 1);
        FirstOfCons(h, Others(t, pos), n - 1);
        FirstOfCons(h, Others(First(t, n - 1), pos), n - 1);
      }
    }
  }

  /** One capped record: newest first, older records of the bet dropped, at most `CAP` kept. */
  function Capped(s: seq<Position>, pos: Position): seq<Position> { First(Recorded(s, pos), CAP) }

  lemma RecordedIsOnePerBet(full: seq<Position>, pos: Position)
    requires OnePerBet(full)
    ensures OnePerBet(Recorded(full, pos))
  {
    OthersKeepsOnePerBet(full, pos);
    OthersMembers(full, pos);
    OnePerBetCons(pos, Others(full, pos));
  }

  lemma CappedRefines(full: seq<Position>, pos: Position)
    requires OnePerBet(full)
    ensures Capped(First(full, CAP), pos) == First(Recorded(full, pos), CAP)
  {
    CutOthers(full, pos, CAP);
    FirstOfCons(pos, Others(First(full, CAP), pos), CAP);
    FirstOfCons(pos, Others(full, pos), CAP);
  }

  function AddAll(s: seq<Position>, adds: seq<Position>): seq<Position> {
    if adds == [] then s else Recorded(AddAll(s, adds[..|adds| - 1]), adds[|adds| - 1])
  }

  function AddAllCapped(s: seq<Position>, adds: seq<Position>): seq<Position> {
    if adds == [] then s else Capped(AddAllCapped(s, adds[..|adds| - 1]), adds[|adds| - 1])
  }

  /** The newest record of the bet of `x` among `adds`. */
  predicate IsLatest(adds: seq<Position>, x: Position) {
    exists i :: 0 <= i < |adds| && adds[i] == x && forall j :: i < j < |adds| ==> !SameBet(adds[j], x)
  }

  /**
   After any records the stored list is the first hundred of the unbounded one, which holds one
   entry per bet, and that entry is the bet's latest record.
  */
  lemma {:induction false} StoreRefines(adds: seq<Position>)
    ensures OnePerBet(AddAll([], adds))
    ensures AddAllCapped([], adds) == First(AddAll([], adds), 100)
    ensures forall x :: x in AddAll([], adds) <==> IsLatest(adds, x)
  {
    if adds != [] {
      var front, pos := adds[..|adds| - 1], adds[|adds| - 1];
      StoreRefines(front);
      CappedRefines(AddAll([], front), pos);
      RecordedIsOnePerBet(AddAll([], front), pos);
      OthersMembers(AddAll([], front), pos);
      forall x ensures x in AddAll([], adds) <==> IsLatest(adds, x) { LatestStep(front, pos, adds, x); }
    }
  }

  lemma LatestStep(front: seq<Position>, pos: Position, adds: seq<Position>, x: Position)
    requires adds == front + [pos]
    ensures IsLatest(adds, x) <==> x == pos || (IsLatest(front, x) && !SameBet(x, pos))
  {
    var n := |front|;
    if x == pos { assert adds[n] == x; }
    if IsLatest(front, x) && !SameBet(x, pos) {
      var i :| 0 <= i < n && front[i] == x && forall j :: i < j < n ==> !SameBet(front[j], x);
      assert adds[i] == x && forall j :: i < j < |adds| ==> !SameBet(adds[j], x);
    }
    if IsLatest(adds, x) && x != pos {
      var i :| 0 <= i < |adds| && adds[i] == x && forall j :: i < j < |adds| ==> !SameBet(adds[j], x);
      assert i < n && front[i] == x && !SameBet(adds[n], x);
      assert forall j :: i < j < n ==> front[j] == adds[j];
    }
  }

  class HistoryStore {
    var history: seq<Position>

    constructor ()
      ensures history == []
    {
      history := [];
    }

    method AddSettledPosition(pos: Position)
      modifies this
      ensures history == Capped(old(history), pos)
    {
      var filtered := Others(history, pos);
      history := [pos] + filtered;
      if |history| > CAP { history := history[..CAP]; }
    }
  }
}
