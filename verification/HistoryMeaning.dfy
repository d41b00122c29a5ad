/** What the history's figures say about the positions themselves, whatever their order. */
module HistoryMeaning {
  import opened History

  // ------------------------------------------------------- sorting loses nothing

  lemma {:induction false} CountInsert(s: seq<Position>, x: Position, keep: Position -> bool)
    ensures Count(Insert(s, x), keep) == Count(s, keep) + if keep(x) then 1 else 0
  {
    if s == [] || s[|s| - 1].settledAt <= x.settledAt {
      CountAppend(s, x, keep);
    } else {
      CountInsert(s[..|s| - 1], x, keep);
      CountAppend(Insert(s[..|s| - 1], x), s[|s| - 1], keep);
    }
  }

  lemma {:induction false} CountInTime(xs: seq<Position>, keep: Position -> bool)
    ensures Count(InTime(xs), keep) == Count(xs, keep)
  {
    if xs != [] {
      CountInTime(xs[..|xs| - 1], keep);
      CountInsert(InTime(xs[..|xs| - 1]), xs[|xs| - 1], keep);
    }
  }

  lemma {:induction false} TotalInsert(s: seq<Position>, x: Position, value: Position -> int)
    ensures Total(Insert(s, x), value) == Total(s, value) + value(x)
  {
    if s == [] || s[|s| - 1].settledAt <= x.settledAt {
      TotalAppend(s, x, value);
    } else {
      TotalInsert(s[..|s| - 1], x, value);
      TotalAppend(Insert(s[..|s| - 1], x), s[|s| - 1], value);
    }
  }

  lemma {:induction false} TotalInTime(xs: seq<Position>, value: Position -> int)
    ensures Total(InTime(xs), value) == Total(xs, value)
  {
    if xs != [] {
      TotalInTime(xs[..|xs| - 1], value);
      TotalInsert(InTime(xs[..|xs| - 1]), xs[|xs| - 1], value);
    }
  }

  // ------------------------------------------------------------ what is counted

  /** The places of the list that pass the test. */
  function Places(s: seq<Position>, test: Position -> bool): (r: set<nat>)
    ensures forall i :: i in r <==> 0 <= i < |s| && test(s[i])
  {
    set i: nat | i < |s| && test(s[i])
  }

  lemma {:induction false} CountIsPlaces(s: seq<Position>, keep: Position -> bool, test: Position -> bool)
    requires forall p :: keep(p) <==> test(p)
    ensures Count(s, keep) == |Places(s, test)|
  {
    if s == [] {
      assert Places(s, test) == {};
    } else {
      var last := |s| - 1;
      CountIsPlaces(s[..last], keep, test);
      var before := Places(s[..last], test);
      assert Places(s, test) == if test(s[last]) then before + {last} else before;
    }
  }

  // A bet is void when its market was; else it was right or wrong about the outcome.
  predicate Right(p: Position) { p.outcome != Void && p.side == p.outcome }
  predicate Wrong(p: Position) { p.outcome != Void && p.side != p.outcome }
  predicate Voided(p: Position) { p.outcome == Void }

  /** What a bet brought in and what it cost; a void one is given back. */
  function Received(p: Position): int { if Right(p) then p.payout else 0 }
  function Spent(p: Position): int { if Voided(p) then 0 else p.amount }
  function Amount(p: Position): int { p.amount }

  lemma {:induction false} GainIsFlow(s: seq<Position>)
    ensures Total(s, Gain) == Total(s, Received) - Total(s, Spent) && Total(s, Stake) == Total(s, Amount)
  {
    if s != [] { GainIsFlow(s[..|s| - 1]); }
  }

  /**
   Wins are the bets that were right, losses those that were wrong; the profit is what the right ones were paid less
   what all that were not void had staked.
  */
  lemma StatsSay(history: seq<Position>)
    ensures var r := StatsOf(history);
      && r.totalBets == |history|
      && r.wins == |Places(history, Right)| && r.losses == |Places(history, Wrong)|
      && r.voids == |Places(history, Voided)|
      && r.pnl == Total(history, Received) - Total(history, Spent) && r.volume == Total(history, Amount)
  {
    CountInTime(history, IsWin);
    CountInTime(history, IsLoss);
    CountInTime(history, IsVoid);
    TotalInTime(history, Gain);
    TotalInTime(history, Stake);
    CountIsPlaces(history, IsWin, Right);
    CountIsPlaces(history, IsLoss, Wrong);
    CountIsPlaces(history, IsVoid, Voided);
    GainIsFlow(history);
  }

  // ---------------------------------------------------------------- the streak

  lemma {:induction false} LastResult(s: seq<Position>, i: nat)
    requires i < |s| && !Voided(s[i]) && forall j :: i < j < |s| ==> Voided(s[j])
    ensures Results(s) != [] && (Results(s)[|Results(s)| - 1] <==> Right(s[i]))
    decreases |s|
  {
    if i < |s| - 1 { LastResult(s[..|s| - 1], i); }
  }

  /** The current streak is a winning one exactly when the last bet in time that was not void was right. */
  lemma StreakSays(history: seq<Position>, i: nat)
    requires var s := InTime(history);
      i < |s| && !Voided(s[i]) && forall j :: i < j < |s| ==> Voided(s[j])
    ensures StatsOf(history).currentStreak > 0 <==> Right(InTime(history)[i])
  {
    LastResult(InTime(history), i);
    CurrentIsTrailing(Results(InTime(history)));
  }
}
