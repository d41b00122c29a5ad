/** Pro-rata payouts in whole lamports: both formulas the app shows, and the solvency of paying every winner. */
module Payout {

  /** `proRataPayoutLamports`; Dafny's division by a positive number is the floor the source takes. */
  function ProRata(stake: int, yourPool: int, oppPool: int): int {
    if yourPool <= 0 then stake else stake + stake * oppPool / yourPool
  }

  /** The payout line of the resolution card. */
  function CardPayout(stake: int, sidePool: int, totalPool: int, isWinner: bool): int {
    if !isWinner then 0 else if sidePool > 0 then stake * totalPool / sidePool else stake
  }

  lemma FloorBounds(x: int, d: int)
    requires d > 0
    ensures x / d * d <= x < x / d * d + d
  {
  }

  lemma FloorUnique(x: int, d: int, q: int)
    requires d > 0 && q * d <= x < q * d + d
    ensures x / d == q
  {
    var p := x / d;
    FloorBounds(x, d);
    assert (p - q) * d < d && (q - p) * d < d;
    SmallMultiple(p - q, d);
    SmallMultiple(q - p, d);
  }

  lemma SmallMultiple(k: int, d: int)
    requires d > 0 && k * d < d
    ensures k <= 0
  {
  }

  /** The two formulas agree on all integers, losers aside. */
  lemma FormulasAgree(stake: int, sidePool: int, oppPool: int)
    ensures ProRata(stake, sidePool, oppPool) == CardPayout(stake, sidePool, sidePool + oppPool, true)
  {
    if sidePool > 0 {
      var x := stake * oppPool;
      var q := x / sidePool;
      FloorBounds(x, sidePool);
      var y := stake * (sidePool + oppPool);
      assert y == stake * sidePool + x;
      assert (stake + q) * sidePool == stake * sidePool + q * sidePool;
      FloorUnique(y, sidePool, stake + q);
    }
  }

  // --------------------------------------------------------------- solvency

  function Sum(xs: seq<int>): int {
    if xs == [] then 0 else Sum(xs[..|xs| - 1]) + xs[|xs| - 1]
  }

  function Payouts(stakes: seq<int>, yourPool: int, oppPool: int): (r: seq<int>)
    ensures |r| == |stakes|
  {
    seq(|stakes|, i requires 0 <= i < |stakes| => ProRata(stakes[i], yourPool, oppPool))
  }

  /** One more winner of stake x, paid `gain` on top of it. */
  lemma BoundStep(paid: int, staked: int, n: int, x: int, gain: int, w: int, o: int)
    requires w > 0 && paid * w <= staked * o <= paid * w + n * (w - 1)
    requires gain * w <= x * o < gain * w + w
    ensures (paid + gain) * w <= (staked + x) * o <= (paid + gain) * w + (n + 1) * (w - 1)
  {
    assert (paid + gain) * w == paid * w + gain * w;
    assert (staked + x) * o == staked * o + x * o;
    assert (n + 1) * (w - 1) == n * (w - 1) + (w - 1);
  }

  /** Paying every winner leaves less than one lamport per winner, before dividing by the pool. */
  lemma {:induction false} PayoutsBound(stakes: seq<int>, w: int, o: int)
    requires w > 0
    ensures var paid := Sum(Payouts(stakes, w, o)) - Sum(stakes);
      paid * w <= Sum(stakes) * o <= paid * w + |stakes| * (w - 1)
  {
    if stakes != [] {
      var ps, n := Payouts(stakes, w, o), |stakes| - 1;
      var front, x := stakes[..n], stakes[n];
      PayoutsBound(front, w, o);
      assert ps[..n] == Payouts(front, w, o);
      FloorBounds(x * o, w);
      BoundStep(Sum(Payouts(front, w, o)) - Sum(front), Sum(front), n, x, x * o / w, w, o);
    }
  }

  /**
   When the winners' stakes make up the winning pool, their payouts never exceed the two pools
   together, and fewer lamports than winners are left over.
  */
  lemma PayoutsAreSolvent(stakes: seq<int>, w: int, o: int)
    requires w > 0 && Sum(stakes) == w
    ensures var total := Sum(Payouts(stakes, w, o));
      total <= w + o < total + |stakes|
  {
    PayoutsBound(stakes, w, o);
    var paid := Sum(Payouts(stakes, w, o)) - w;
    SomeoneStaked(stakes);
    var n := |stakes|;
    // paid * w <= w * o <= paid * w + n (w - 1)
    assert w * o - paid * w == (o - paid) * w;
    assert n * (w - 1) == n * w - n;
    NonnegFactor(o - paid, w);
    BelowFactor(o - paid, w, n);
  }

  lemma SomeoneStaked(stakes: seq<int>)
    requires Sum(stakes) > 0
    ensures |stakes| > 0
  {
  }

  lemma NonnegFactor(k: int, w: int)
    requires w > 0 && k * w >= 0
    ensures k >= 0
  {
  }

  lemma BelowFactor(k: int, w: int, n: int)
    requires w > 0 && n > 0 && k * w <= n * w - n
    ensures k < n
  {
    assert (n - k) * w == n * w - k * w;
    assert (n - k) * w > 0;
    if n - k <= 0 { NonposFactor(n - k, w); assert false; }
  }

  lemma NonposFactor(k: int, w: int)
    requires w > 0 && k <= 0
    ensures k * w <= 0
  {
  }

  /** A winner is never paid less than the stake. */
  lemma WinnerKeepsStake(stake: int, w: int, o: int)
    requires stake >= 0 && o >= 0
    ensures ProRata(stake, w, o) >= stake
  {
    if w > 0 {
      ProductNonneg(stake, o);
      FloorBounds(stake * o, w);
      QuotientNonneg(stake * o, w);
    }
  }

  lemma ProductNonneg(a: int, b: int)
    requires a >= 0 && b >= 0
    ensures a * b >= 0
  {
  }

  lemma QuotientNonneg(x: int, d: int)
    requires x >= 0 && d > 0
    ensures x / d >= 0
  {
  }

  /** Merging two stakes never loses and gains at most one lamport. */
  lemma MergeGainsAtMostOne(a: int, b: int, w: int, o: int)
    ensures var parts := ProRata(a, w, o) + ProRata(b, w, o);
      parts <= ProRata(a + b, w, o) <= parts + 1
  {
    if w > 0 {
      var x, y := a * o, b * o;
      assert (a + b) * o == x + y;
      FloorBounds(x, w);
      FloorBounds(y, w);
      var q := x / w + y / w;
      assert q * w == x / w * w + y / w * w;
      assert (q + 1) * w == q * w + w;
      if x + y < q * w + w { FloorUnique(x + y, w, q); } else { FloorUnique(x + y, w, q + 1); }
    }
  }

  // ------------------------------------------------------------- the vault

  /** The vault after claims, payout and protocol fee together, have been paid one after the other. */
  function VaultAfter(vault: int, stakes: seq<int>, w: int, o: int): int {
    if stakes == [] then vault
    else VaultAfter(vault, stakes[..|stakes| - 1], w, o) - ProRata(stakes[|stakes| - 1], w, o)
  }

  lemma {:induction false} VaultPaysSum(vault: int, stakes: seq<int>, w: int, o: int)
    ensures VaultAfter(vault, stakes, w, o) == vault - Sum(Payouts(stakes, w, o))
  {
    if stakes != [] {
      var n := |stakes| - 1;
      VaultPaysSum(vault, stakes[..n], w, o);
      assert Payouts(stakes, w, o)[..n] == Payouts(stakes[..n], w, o);
    }
  }

  lemma {:induction false} SumOfNonneg(xs: seq<int>, k: nat)
    requires k <= |xs| && forall i :: 0 <= i < |xs| ==> xs[i] >= 0
    ensures 0 <= Sum(xs[..k]) <= Sum(xs)
    decreases |xs|
  {
    if k == |xs| {
      assert xs[..k] == xs;
      if xs != [] { SumOfNonneg(xs[..|xs| - 1], |xs| - 1); assert xs[..|xs| - 1][..|xs| - 1] == xs[..|xs| - 1]; }
    } else {
      SumOfNonneg(xs[..|xs| - 1], k);
      assert xs[..|xs| - 1][..k] == xs[..k];
    }
  }

  /** Whatever the order of the claims, a vault holding both pools never runs dry on the way. */
  lemma VaultNeverUnderflows(stakes: seq<int>, o: int, claimed: nat)
    requires (forall i :: 0 <= i < |stakes| ==> stakes[i] >= 0) && o >= 0
    requires Sum(stakes) > 0 && claimed <= |stakes|
    ensures VaultAfter(Sum(stakes) + o, stakes[..claimed], Sum(stakes), o) >= 0
  {
    var w := Sum(stakes);
    var ps := Payouts(stakes, w, o);
    forall i | 0 <= i < |ps| ensures ps[i] >= 0 { WinnerKeepsStake(stakes[i], w, o); }
    PayoutsAreSolvent(stakes, w, o);
    SumOfNonneg(ps, claimed);
    assert ps[..claimed] == Payouts(stakes[..claimed], w, o);
    VaultPaysSum(w + o, stakes[..claimed], w, o);
  }
}
