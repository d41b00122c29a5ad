/** The quant brain: Monte Carlo pricing over the seeded stream and the market maker's quote around it. */
module Pricing {
  import opened Basics
  import opened Rng
  import opened Seed
  import opened Text

  /** exp restricted to what the model uses of it: negative arguments give values strictly between 0 and 1. */
  type Exp = f: real -> real | forall x: real :: x < 0.0 ==> 0.0 < f(x) < 1.0 witness (x: real) => 0.5

  /** Any non-negative root; its exact value never matters here. */
  type Root = f: real -> real | forall x: real :: x >= 0.0 ==> f(x) >= 0.0 witness (x: real) => 0.0

  /** What the platform provides; `show` is its text of a number. */
  datatype Maths = Maths(mix: Mixer, exp: Exp, root: Root, show: real -> Units)

  /** What the caller seeds the stream with: the seed text and the hash of the snapshot. */
  datatype Stream = Stream(seed: Units, hash: Units)

  datatype Params = Params(goalRatePrior: real, cornerRatePrior: real, blendMin: real, blendMax: real,
                           stoppageMinutes: real, spreadBaseBps: real, spreadPerCiBps: real,
                           inventorySkew: real, simulations: int)

  datatype Kind = TotalGoalsOver | CornersOver | Unsupported

  datatype Line = Line(kind: Kind, threshold: Option<real>)

  datatype MatchState = MatchState(minute: real, goalsHome: nat, goalsAway: nat, cornersHome: nat, cornersAway: nat)

  datatype Inventory = Inventory(netYes: real, notional: real)

  function Max(a: real, b: real): real { if a < b then b else a }
  function Min(a: real, b: real): real { if a < b then a else b }

  // ------------------------------------------------------------------ rates

  /** A missing or non-finite threshold counts as zero. */
  function ThresholdFor(line: Line): real { if line.threshold.Some? then line.threshold.value else 0.0 }

  function MinutesRemaining(minute: real, params: Params): real {
    Max(90.0 + params.stoppageMinutes - minute, params.stoppageMinutes)
  }

  function BlendWeight(minute: real, params: Params): real {
    params.blendMin + (params.blendMax - params.blendMin) * Min(Max(minute / 90.0, 0.0), 1.0)
  }

  function BlendedRate(observed: real, prior: real, minute: real, params: Params): real {
    var pace := if minute > 0.0 then observed / minute else 0.0;
    var w := BlendWeight(minute, params);
    w * pace + (1.0 - w) * (prior / 90.0)
  }

  lemma Between(a: real, b: real, w: real)
    requires 0.0 <= w <= 1.0
    ensures Min(a, b) <= w * a + (1.0 - w) * b <= Max(a, b)
  {
    GapsOfMean(a, b, w);
    if a <= b {
      NonnegProduct(1.0 - w, b - a);
      NonnegProduct(w, b - a);
    } else {
      NonnegProduct(1.0 - w, a - b);
      NonnegProduct(w, a - b);
    }
  }

  lemma GapsOfMean(a: real, b: real, w: real)
    ensures var x := w * a + (1.0 - w) * b;
      && x - a == (1.0 - w) * (b - a) && a - x == (1.0 - w) * (a - b)
      && b - x == w * (b - a) && x - b == w * (a - b)
  {
  }

  lemma WeightInUnit(lo: real, hi: real, frac: real)
    requires 0.0 <= lo <= 1.0 && 0.0 <= hi <= 1.0 && 0.0 <= frac <= 1.0
    ensures 0.0 <= lo + (hi - lo) * frac <= 1.0
  {
    Between(hi, lo, frac);
    GapsOfMean(hi, lo, frac);
  }

  lemma NonnegProduct(x: real, y: real)
    requires x >= 0.0 && y >= 0.0
    ensures x * y >= 0.0
  {
  }

  /** The rate lies between the match's own pace and the league prior: pure prior at kickoff when blendMin is 0. */
  lemma RateBlends(observed: real, prior: real, minute: real, params: Params)
    requires 0.0 <= params.blendMin <= 1.0 && 0.0 <= params.blendMax <= 1.0
    ensures var pace := if minute > 0.0 then observed / minute else 0.0;
      Min(pace, prior / 90.0) <= BlendedRate(observed, prior, minute, params) <= Max(pace, prior / 90.0)
    ensures minute <= 0.0 && params.blendMin == 0.0 ==> BlendedRate(observed, prior, minute, params) == prior / 90.0
    ensures minute >= 90.0 && params.blendMax == 1.0 ==>
      BlendedRate(observed, prior, minute, params) == observed / minute
  {
    var frac := Min(Max(minute / 90.0, 0.0), 1.0);
    WeightInUnit(params.blendMin, params.blendMax, frac);
    Between(if minute > 0.0 then observed / minute else 0.0, prior / 90.0, BlendWeight(minute, params));
    if minute <= 0.0 { assert frac == 0.0; }
    if minute >= 90.0 { assert frac == 1.0; }
  }

  // -------------------------------------------------------------- simulation

  /** Events still to come in one simulation that starts reading the stream at `at`. */
  function Future(m: Maths, seed: U32, at: nat, mean: real): (n: nat)
    ensures if mean <= 0.0 then n == 0 else IsPoisson(m.mix, seed, at, m.exp(-mean), n)
  {
    if mean <= 0.0 then 0
    else
      NothingDrawnIsAbove(m.mix, seed, at, m.exp(-mean));
      PoissonFrom(m.mix, seed, at, m.exp(-mean), 0)
  }

  lemma NothingDrawnIsAbove(mix: Mixer, seed: U32, at: nat, L: real)
    requires L < 1.0
    ensures Above(mix, seed, at, L, 0)
  {
  }

  /** Draws used by one simulation with this value. */
  function Used(mean: real, future: nat): nat { if mean <= 0.0 then 0 else future + 1 }

  /** Where the stream stands after `n` simulations. */
  function Position(m: Maths, seed: U32, mean: real, n: nat): nat {
    if n == 0 then 0
    else
      var at := Position(m, seed, mean, n - 1);
      at + Used(mean, Future(m, seed, at, mean))
  }

  /** The values of the first `n` simulations. */
  function Samples(m: Maths, seed: U32, mean: real, n: nat): (r: seq<nat>)
    ensures |r| == n
  {
    if n == 0 then []
    else Samples(m, seed, mean, n - 1) + [Future(m, seed, Position(m, seed, mean, n - 1), mean)]
  }

  lemma SampleStep(m: Maths, seed: U32, mean: real, i: nat)
    ensures var at := Position(m, seed, mean, i);
      var future := Future(m, seed, at, mean);
      && Position(m, seed, mean, i + 1) == at + Used(mean, future)
      && Samples(m, seed, mean, i + 1) == Samples(m, seed, mean, i) + [future]
  {
  }

  /** How many simulated futures take the count over the line. */
  function Hits(futures: seq<nat>, observed: nat, threshold: real): (h: nat)
    ensures h <= |futures|
  {
    if futures == [] then 0
    else
      var last := |futures| - 1;
      var over := (observed + futures[last]) as real > threshold;
      Hits(futures[..last], observed, threshold) + if over then 1 else 0
  }

  lemma HitsAppend(futures: seq<nat>, f: nat, observed: nat, threshold: real)
    ensures Hits(futures + [f], observed, threshold)
      == Hits(futures, observed, threshold) + if (observed + f) as real > threshold then 1 else 0
  {
    assert (futures + [f])[..|futures|] == futures;
  }

  /** A count already over the line is over it in every simulation. */
  lemma {:induction false} AllHitWhenOver(futures: seq<nat>, observed: nat, threshold: real)
    requires observed as real > threshold
    ensures Hits(futures, observed, threshold) == |futures|
  {
    if futures != [] { AllHitWhenOver(futures[..|futures| - 1], observed, threshold); }
  }

  /** On one stream a higher line is never hit more often, and more events so far never hit it less. */
  lemma {:induction false} HitsMonotone(futures: seq<nat>, few: nat, many: nat, low: real, high: real)
    requires few <= many && low <= high
    ensures Hits(futures, few, high) <= Hits(futures, many, low)
  {
    if futures != [] { HitsMonotone(futures[..|futures| - 1], few, many, low, high); }
  }

  method SampleFuture(m: Maths, rng: Mulberry32, mean: real) returns (future: nat)
    requires rng.Valid() && rng.mix == m.mix
    modifies rng
    ensures rng.Valid() && rng.taken == old(rng.taken) + Used(mean, future)
    ensures future == Future(m, rng.seed, old(rng.taken), mean)
  {
    if mean <= 0.0 { return 0; }
    var limit := m.exp(-mean);
    ghost var at := rng.taken;
    future := Poisson(rng, limit);
    PoissonIsUnique(m.mix, rng.seed, at, limit, future, Future(m, rng.seed, at, mean));
  }

  /** The counting loop over `n` simulations. */
  method CountExceedances(m: Maths, seed: U32, mean: real, observed: nat, threshold: real, n: nat)
    returns (exceedances: nat)
    ensures exceedances == Hits(Samples(m, seed, mean, n), observed, threshold)
  {
    var rng := new Mulberry32(m.mix, seed);
    exceedances := 0;
    ghost var futures: seq<nat> := [];
    for i := 0 to n
      invariant rng.Valid() && rng.mix == m.mix && rng.seed == seed && rng.taken == Position(m, seed, mean, i)
      invariant futures == Samples(m, seed, mean, i)
      invariant exceedances == Hits(futures, observed, threshold)
    {
      var future := SampleFuture(m, rng, mean);
      SampleStep(m, seed, mean, i);
      HitsAppend(futures, future, observed, threshold);
      futures := futures + [future];
      if (observed + future) as real > threshold { exceedances := exceedances + 1; }
    }
  }

  datatype Interval = Interval(lo: real, hi: real)

  datatype Simulated = Simulated(probability: real, ci: Interval, sims: nat)

  function Square(x: real): real { x * x }

  function Variance(p: real, n: nat): real
    requires n > 0
  {
    Trial(p) / n as real
  }

  /** The variance of one trial with chance p. */
  function Trial(p: real): real { Times(p, 1.0 - p) }

  function ConfidenceInterval(p: real, n: nat, root: Root): Interval
    requires n > 0
  {
    IntervalAround(p, root(Variance(p, n)))
  }

  function IntervalAround(p: real, sd: real): Interval { Interval(Max(0.0, p - 1.96 * sd), Min(1.0, p + 1.96 * sd)) }

  lemma IntervalBrackets(p: real, n: nat, root: Root)
    requires n > 0 && 0.0 <= p <= 1.0
    ensures var ci := ConfidenceInterval(p, n, root); 0.0 <= ci.lo <= p <= ci.hi <= 1.0
  {
    TrialNonneg(p);
    VarianceIsShared(Trial(p), n);
    assert root(Variance(p, n)) >= 0.0;
  }

  /** The ends off the rails lie 1.96 standard errors from p, for n trials with variance t each. */
  predicate Normal(p: real, ci: Interval, n: real, t: real) {
    && (ci.lo > 0.0 ==> Times(Square(p - ci.lo), n) == 3.8416 * t)
    && (ci.hi < 1.0 ==> Times(Square(ci.hi - p), n) == 3.8416 * t)
  }

  /** The interval is the normal approximation for n yes/no trials with chance p. */
  lemma IntervalIsNormal(p: real, n: nat, root: Root)
    requires n > 0 && 0.0 <= p <= 1.0 && Square(root(Variance(p, n))) == Variance(p, n)
    ensures Normal(p, ConfidenceInterval(p, n, root), n as real, Times(p, 1.0 - p))
  {
    VarianceIsShared(Trial(p), n);
    NormalScaled(p, root(Variance(p, n)), Variance(p, n), n as real, Trial(p));
  }

  lemma TrialNonneg(p: real)
    requires 0.0 <= p <= 1.0
    ensures Trial(p) >= 0.0
  {
    TimesNonneg(p, 1.0 - p);
  }

  lemma TimesNonneg(x: real, y: real)
    requires x >= 0.0 && y >= 0.0
    ensures Times(x, y) >= 0.0
  {
  }

  /** The variance of one trial, shared among n. */
  lemma VarianceIsShared(t: real, n: nat)
    requires n > 0
    ensures Times(t / n as real, n as real) == t && (t >= 0.0 ==> t / n as real >= 0.0)
  {
    QuotientTimes(t, n as real);
    if t >= 0.0 { QuotientNonneg(t, n as real); }
  }

  lemma QuotientTimes(t: real, d: real)
    requires d > 0.0
    ensures Times(t / d, d) == t
  {
  }

  lemma QuotientNonneg(t: real, d: real)
    requires d > 0.0 && t >= 0.0
    ensures t / d >= 0.0
  {
  }

  lemma NormalScaled(p: real, sd: real, v: real, n: real, t: real)
    requires Square(sd) == v && Times(v, n) == t
    ensures Normal(p, IntervalAround(p, sd), n, t)
  {
    NormalAround(p, sd, v);
    Rescale(v, n);
  }

  lemma Rescale(v: real, n: real)
    ensures Times(3.8416 * v, n) == 3.8416 * Times(v, n)
  {
  }

  lemma NormalAround(p: real, sd: real, v: real)
    requires Square(sd) == v
    ensures var ci := IntervalAround(p, sd);
      && (ci.lo > 0.0 ==> Square(p - ci.lo) == 3.8416 * v)
      && (ci.hi < 1.0 ==> Square(ci.hi - p) == 3.8416 * v)
  {
    SquareOfScaled(sd);
    assert p - (p - 1.96 * sd) == 1.96 * sd && p + 1.96 * sd - p == 1.96 * sd;
  }

  lemma SquareOfScaled(x: real)
    ensures Square(1.96 * x) == 3.8416 * Square(x)
  {
  }

  lemma ShareInUnit(h: nat, n: nat)
    requires 0 < n && h <= n
    ensures 0.0 <= h as real / n as real <= 1.0
    ensures h == n ==> h as real / n as real == 1.0
  {
  }

  function ObservedSoFar(kind: Kind, s: MatchState): nat {
    if kind.TotalGoalsOver? then s.goalsHome + s.goalsAway else s.cornersHome + s.cornersAway
  }

  function RemainingRate(kind: Kind, s: MatchState, params: Params): real {
    var prior := if kind.TotalGoalsOver? then params.goalRatePrior else params.cornerRatePrior;
    BlendedRate(ObservedSoFar(kind, s) as real, prior, s.minute, params) * MinutesRemaining(s.minute, params)
  }

  function SimulationCount(params: Params): (n: nat)
    ensures n >= 1
  {
    if params.simulations < 1 then 1 else params.simulations
  }

  /** Share of `n` simulations over the line, on the stream of `seed`. */
  function Estimate(m: Maths, seed: U32, mean: real, n: nat, observed: nat, threshold: real): real
    requires n > 0
  {
    Hits(Samples(m, seed, mean, n), observed, threshold) as real / n as real
  }

  function Probability(m: Maths, line: Line, s: MatchState, params: Params, seed: U32): real {
    Estimate(m, seed, RemainingRate(line.kind, s, params), SimulationCount(params), ObservedSoFar(line.kind, s),
      ThresholdFor(line))
  }

  lemma ProbabilityInUnit(m: Maths, line: Line, s: MatchState, params: Params, seed: U32)
    ensures 0.0 <= Probability(m, line, s, params, seed) <= 1.0
    ensures ObservedSoFar(line.kind, s) as real > ThresholdFor(line) ==> Probability(m, line, s, params, seed) == 1.0
  {
    var n := SimulationCount(params);
    var futures := Samples(m, seed, RemainingRate(line.kind, s, params), n);
    ShareInUnit(Hits(futures, ObservedSoFar(line.kind, s), ThresholdFor(line)), n);
    if ObservedSoFar(line.kind, s) as real > ThresholdFor(line) {
      AllHitWhenOver(futures, ObservedSoFar(line.kind, s), ThresholdFor(line));
    }
  }

  /** The name of the predicate, as it enters the seed text; unsupported ones are never priced. */
  function KindText(kind: Kind): Units {
    match kind
    case TotalGoalsOver => Lit("total_goals_over")
    case CornersOver => Lit("corners_over")
    case Unsupported => []
  }

  /** The text whose hash starts the stream. */
  function StreamFor(m: Maths, line: Line, st: Stream): Units {
    Joined(st.seed, KindText(line.kind), m.show(ThresholdFor(line)), st.hash)
  }

  /** An unsupported kind is refused. */
  method Simulate(m: Maths, line: Line, s: MatchState, params: Params, st: Stream) returns (r: Option<Simulated>)
    ensures r.None? <==> line.kind.Unsupported?
    ensures r.Some? ==>
      var p := Probability(m, line, s, params, SeedOf(StreamFor(m, line, st)));
      r.value == Simulated(p, ConfidenceInterval(p, SimulationCount(params), m.root), SimulationCount(params))
  {
    if line.kind.Unsupported? { return None; }
    var hash := HashText(StreamFor(m, line, st));
    var seed := hash % TWO32;
    var mean := RemainingRate(line.kind, s, params);
    var n := SimulationCount(params);
    var exceedances := CountExceedances(m, seed, mean, ObservedSoFar(line.kind, s), ThresholdFor(line), n);
    var p := exceedances as real / n as real;
    r := Some(Simulated(p, ConfidenceInterval(p, n, m.root), n));
  }

  // --------------------------------------------------------------- the quote

  datatype Quote = Quote(fairValue: real, bid: real, ask: real)

  function Clamp(x: real): real { Max(0.0, Min(1.0, x)) }

  function HalfSpread(ci: Interval, params: Params): real {
    (params.spreadBaseBps + params.spreadPerCiBps * Max(0.0, ci.hi - ci.lo)) / 10000.0
  }

  /** Inventory as a share of the notional, cut to [-1, 1]. */
  function Lean(inv: Inventory): real {
    var ratio := if inv.notional > 0.0 then inv.netYes / inv.notional else 0.0;
    Max(-1.0, Min(1.0, ratio))
  }

  function Skew(inv: Inventory, params: Params): real { Negated(params.inventorySkew, Lean(inv)) }

  /** The quote for fair value f, half spread h and inventory skew s. */
  function QuoteAt(f: real, h: real, s: real): Quote {
    var bid, ask := Clamp(f + s - h), Clamp(f + s + h);
    if bid < ask then Quote(f, bid, ask)
    else
      var bid1, ask1 := Max(0.0, f - h), Min(1.0, f + h);
      if bid1 < ask1 then Quote(f, bid1, ask1)
      else
        var bid2, ask2 := Max(0.0, f - 0.001), Min(1.0, f + 0.001);
        if bid2 < ask2 then Quote(f, bid2, ask2) else Quote(f, f, Min(1.0, f + 0.0001))
  }

  method MakeQuote(fairValue: real, ci: Interval, params: Params, inventory: Inventory) returns (q: Quote)
    ensures q == QuoteAt(fairValue, HalfSpread(ci, params), Skew(inventory, params))
    ensures 0.0 <= fairValue <= 1.0 ==> 0.0 <= q.bid < q.ask <= 1.0
  {
    var halfSpread := HalfSpread(ci, params);
    var mid := fairValue + Skew(inventory, params);
    var bid := mid - halfSpread;
    var ask := mid + halfSpread;
    bid := Max(0.0, Min(1.0, bid));
    ask := Max(0.0, Min(1.0, ask));
    if bid >= ask {
      bid := Max(0.0, fairValue - halfSpread);
      ask := Min(1.0, fairValue + halfSpread);
    }
    if bid >= ask {
      bid := Max(0.0, fairValue - 0.001);
      ask := Min(1.0, fairValue + 0.001);
    }
    assert 0.0 <= fairValue <= 1.0 ==> bid < ask;
    if bid >= ask {
      // never reached for a probability
      bid := fairValue;
      ask := Min(1.0, fairValue + 0.0001);
    }
    q := Quote(fairValue, bid, ask);
  }

  /** Whatever the spread and the inventory, and even for a negative spread, the book is never crossed. */
  lemma QuoteIsOrdered(f: real, h: real, s: real)
    requires 0.0 <= f <= 1.0
    ensures var q := QuoteAt(f, h, s); 0.0 <= q.bid < q.ask <= 1.0
  {
  }

  /**
   The stated order bid <= fair <= ask fails exactly when the inventory skew outweighs the half
   spread and the skewed side stays off the far rail.
  */
  lemma QuoteBracketsIff(f: real, h: real, s: real)
    requires 0.0 <= f <= 1.0
    ensures QuoteAt(f, h, s).bid <= f <==> !(h > 0.0 && s > h && f + s - h < 1.0)
    ensures f <= QuoteAt(f, h, s).ask <==> !(h > 0.0 && s < -h && f + s + h > 0.0)
  {
  }

  lemma FlatSkew(inv: Inventory, params: Params)
    requires inv.netYes == 0.0 || inv.notional <= 0.0
    ensures Skew(inv, params) == 0.0
  {
    if inv.notional > 0.0 { assert 0.0 / inv.notional == 0.0; }
  }

  lemma HalfSpreadGrows(narrow: Interval, wide: Interval, params: Params)
    requires params.spreadBaseBps > 0.0 && params.spreadPerCiBps >= 0.0
    requires narrow.hi - narrow.lo <= wide.hi - wide.lo
    ensures 0.0 < HalfSpread(narrow, params) <= HalfSpread(wide, params)
  {
    var x, y := Max(0.0, narrow.hi - narrow.lo), Max(0.0, wide.hi - wide.lo);
    MulLe(x, y, params.spreadPerCiBps);
    MulLe(0.0, x, params.spreadPerCiBps);
  }

  /**
   The half spread in ten-thousandths: the base for a point, and for each unit of width as much again as the parameter
   says; a reversed interval counts as a point.
  */
  lemma SpreadFollowsWidth(ci: Interval, params: Params)
    ensures 10000.0 * HalfSpread(ci, params)
      == params.spreadBaseBps + (if ci.lo <= ci.hi then params.spreadPerCiBps * (ci.hi - ci.lo) else 0.0)
  {
    var x := params.spreadBaseBps + params.spreadPerCiBps * Max(0.0, ci.hi - ci.lo);
    assert 10000.0 * (x / 10000.0) == x;
    if ci.lo > ci.hi { assert params.spreadPerCiBps * 0.0 == 0.0; }
  }

  /** Away from the rails the quote is two half spreads wide, around the fair value moved by the skew. */
  lemma QuoteOffTheRails(f: real, h: real, s: real)
    requires h > 0.0 && 0.0 <= f + s - h && f + s + h <= 1.0
    ensures var q := QuoteAt(f, h, s); q.ask - q.bid == 2.0 * h && q.bid + q.ask == 2.0 * (f + s)
  {
  }

  /**
   Where the skewed quote has fallen on a rail the unskewed one stands in, cut to the unit interval; without a spread
   it is a thousandth to either side.
  */
  lemma QuoteFallsBack(f: real, h: real, s: real)
    requires 0.0 <= f <= 1.0
    ensures h > 0.0 && (f + s + h <= 0.0 || f + s - h >= 1.0) ==>
      QuoteAt(f, h, s) == Quote(f, Max(0.0, f - h), Min(1.0, f + h))
    ensures h <= 0.0 ==> QuoteAt(f, h, s) == Quote(f, Max(0.0, f - 0.001), Min(1.0, f + 0.001))
  {
  }

  lemma WiderQuote(f: real, h: real, wider: real)
    requires 0.0 <= f <= 1.0 && 0.0 < h <= wider
    ensures var p, q := QuoteAt(f, wider, 0.0), QuoteAt(f, h, 0.0); p.bid <= q.bid <= f <= q.ask <= p.ask
  {
  }

  /** A flat maker quotes around fair, and a wider interval only widens the quote. */
  lemma NeutralQuote(f: real, narrow: Interval, wide: Interval, params: Params, inv: Inventory)
    requires 0.0 <= f <= 1.0 && (inv.netYes == 0.0 || inv.notional <= 0.0)
    requires params.spreadBaseBps > 0.0 && params.spreadPerCiBps >= 0.0
    requires narrow.hi - narrow.lo <= wide.hi - wide.lo
    ensures var a := QuoteAt(f, HalfSpread(narrow, params), Skew(inv, params));
      var b := QuoteAt(f, HalfSpread(wide, params), Skew(inv, params));
      b.bid <= a.bid <= f <= a.ask <= b.ask
  {
    FlatSkew(inv, params);
    HalfSpreadGrows(narrow, wide, params);
    WiderQuote(f, HalfSpread(narrow, params), HalfSpread(wide, params));
  }

  /** Both sides fall to zero, or both rise to one: the skewed quote collapses onto a rail. */
  predicate Sunk(f: real, h: real, skew: real) { f + skew + h <= 0.0 }
  predicate Risen(f: real, h: real, skew: real) { f + skew - h >= 1.0 }

  /** From a sunk quote, replaced by the unskewed one, to a proper quote skewed down that is lower. */
  predicate SunkAbove(f: real, h: real, lower: real, s: real) {
    Sunk(f, h, lower) && !Sunk(f, h, s) && !Risen(f, h, s) && s < 0.0 && !(f <= h && f + s + h >= 1.0)
  }

  /** From a proper quote skewed up to a risen one, replaced by the unskewed one, that is lower. */
  predicate RisenBelow(f: real, h: real, lower: real, s: real) {
    && Risen(f, h, s) && !Sunk(f, h, lower) && !Risen(f, h, lower) && lower > 0.0
    && !(f + h >= 1.0 && f + lower - h <= 0.0)
  }

  predicate QuotesLower(p: Quote, q: Quote) { p.bid <= q.bid && p.ask <= q.ask }

  /**
   A lower skew quotes neither side higher, except exactly where one of the two quotes fell back and the other did
   not.
  */
  lemma LowerSkewIff(f: real, h: real, lower: real, s: real)
    requires 0.0 <= f <= 1.0 && lower <= s
    ensures QuotesLower(QuoteAt(f, h, lower), QuoteAt(f, h, s)) <==>
      h <= 0.0 || !(SunkAbove(f, h, lower, s) || RisenBelow(f, h, lower, s))
  {
  }

  lemma SkewFalls(a: Inventory, b: Inventory, params: Params)
    requires params.inventorySkew >= 0.0 && a.notional == b.notional && a.netYes <= b.netYes
    ensures -params.inventorySkew <= Skew(b, params) <= Skew(a, params) <= params.inventorySkew
    ensures a.notional > 0.0 && a.netYes >= a.notional ==> Skew(a, params) == -params.inventorySkew
  {
    LeanGrows(a, b);
    var k, u, v := params.inventorySkew, Lean(a), Lean(b);
    assert Skew(a, params) == Negated(k, u) && Skew(b, params) == Negated(k, v);
    ScaleNegated(k, u, v);
  }

  function Negated(k: real, x: real): real { -Times(k, x) }

  lemma LeanGrows(a: Inventory, b: Inventory)
    requires a.notional == b.notional && a.netYes <= b.netYes
    ensures -1.0 <= Lean(a) <= Lean(b) <= 1.0
    ensures a.notional > 0.0 && a.netYes >= a.notional ==> Lean(a) == 1.0
  {
    if a.notional > 0.0 {
      DivideLe(a.netYes, b.netYes, a.notional);
      DivideLe(a.notional, a.netYes, a.notional);
    }
  }

  lemma ScaleNegated(k: real, u: real, v: real)
    requires k >= 0.0 && -1.0 <= u <= v <= 1.0
    ensures -k <= Negated(k, v) <= Negated(k, u) <= k
    ensures u == 1.0 ==> Negated(k, u) == -k
  {
    TimesGrows(k, -1.0, u);
    TimesGrows(k, u, v);
    TimesGrows(k, v, 1.0);
    TimesOne(k);
  }

  lemma TimesGrows(k: real, u: real, v: real)
    requires k >= 0.0 && u <= v
    ensures Times(k, u) <= Times(k, v)
  {
    MulLe(u, v, k);
  }

  lemma TimesOne(k: real)
    ensures Times(k, 1.0) == k && Times(k, -1.0) == -k
  {
  }

  lemma DivideLe(x: real, y: real, d: real)
    requires d > 0.0
    ensures x <= y ==> x / d <= y / d
    ensures d / d == 1.0
  {
  }

  /** Exactly when a maker that is longer of YES quotes neither side higher. */
  lemma LongerMakerIff(f: real, ci: Interval, params: Params, short: Inventory, long: Inventory)
    requires 0.0 <= f <= 1.0 && params.inventorySkew >= 0.0
    requires short.notional == long.notional && short.netYes <= long.netYes
    ensures var h, lower, s := HalfSpread(ci, params), Skew(long, params), Skew(short, params);
      QuotesLower(QuoteAt(f, h, lower), QuoteAt(f, h, s)) <==>
        h <= 0.0 || !(SunkAbove(f, h, lower, s) || RisenBelow(f, h, lower, s))
  {
    SkewFalls(short, long, params);
    LowerSkewIff(f, HalfSpread(ci, params), Skew(long, params), Skew(short, params));
  }

  const DEFAULTS := Params(2.65, 10.5, 0.0, 0.6, 5.0, 200.0, 150.0, 0.15, 10000)

  /** With the default parameters: short of the whole notional the maker bids less than short of a tenth of it. */
  lemma LongerMakerCanQuoteHigher()
    ensures var ci := Interval(0.99, 0.99);
      var short, long := Inventory(-10.0, 10.0), Inventory(-1.0, 10.0);
      QuoteAt(0.99, HalfSpread(ci, DEFAULTS), Skew(short, DEFAULTS)).bid
        < QuoteAt(0.99, HalfSpread(ci, DEFAULTS), Skew(long, DEFAULTS)).bid
  {
    assert Skew(Inventory(-10.0, 10.0), DEFAULTS) == 0.15 && Skew(Inventory(-1.0, 10.0), DEFAULTS) == 0.015;
    assert HalfSpread(Interval(0.99, 0.99), DEFAULTS) == 0.02;
  }

  /** With the default parameters a maker that is long of the whole notional asks less than the fair value. */
  lemma AskBelowFair()
    ensures QuoteAt(0.5, HalfSpread(Interval(0.5, 0.5), DEFAULTS), Skew(Inventory(10.0, 10.0), DEFAULTS)).ask < 0.5
  {
    assert Skew(Inventory(10.0, 10.0), DEFAULTS) == -0.15;
    assert HalfSpread(Interval(0.5, 0.5), DEFAULTS) == 0.02;
  }

  datatype Priced = Priced(fairValue: real, bid: real, ask: real, ci: Interval, sims: nat)

  /** What a price is of these inputs: one value for every machine that runs it. */
  function PriceOf(m: Maths, line: Line, s: MatchState, params: Params, st: Stream, inventory: Inventory): Priced {
    var n := SimulationCount(params);
    var f := Probability(m, line, s, params, SeedOf(StreamFor(m, line, st)));
    var ci := ConfidenceInterval(f, n, m.root);
    var q := QuoteAt(f, HalfSpread(ci, params), Skew(inventory, params));
    Priced(q.fairValue, q.bid, q.ask, ci, n)
  }

  /** For every supported line, state, seed and inventory the price is a proper two-sided quote. */
  lemma PriceIsSound(m: Maths, line: Line, s: MatchState, params: Params, st: Stream, inventory: Inventory)
    ensures var r := PriceOf(m, line, s, params, st, inventory);
      && 0.0 <= r.bid < r.ask <= 1.0
      && 0.0 <= r.ci.lo <= r.fairValue <= r.ci.hi <= 1.0
      && (inventory.netYes == 0.0 || inventory.notional <= 0.0 ==> r.bid <= r.fairValue <= r.ask)
      && (ObservedSoFar(line.kind, s) as real > ThresholdFor(line) ==> r.fairValue == 1.0)
  {
    var n := SimulationCount(params);
    var seed := SeedOf(StreamFor(m, line, st));
    var f := Probability(m, line, s, params, seed);
    ProbabilityInUnit(m, line, s, params, seed);
    IntervalBrackets(f, n, m.root);
    QuoteIsSound(f, HalfSpread(ConfidenceInterval(f, n, m.root), params), inventory, params);
  }

  lemma QuoteIsSound(f: real, h: real, inventory: Inventory, params: Params)
    requires 0.0 <= f <= 1.0
    ensures var q := QuoteAt(f, h, Skew(inventory, params));
      && q.fairValue == f && 0.0 <= q.bid < q.ask <= 1.0
      && (inventory.netYes == 0.0 || inventory.notional <= 0.0 ==> q.bid <= f <= q.ask)
  {
    var k := Skew(inventory, params);
    QuoteIsOrdered(f, h, k);
    if inventory.netYes == 0.0 || inventory.notional <= 0.0 { FlatSkew(inventory, params); }
    QuoteBracketsIff(f, h, k);
  }

  /** `priceMarket`: simulate, then quote around the result. */
  method PriceMarket(m: Maths, line: Line, s: MatchState, params: Params, st: Stream, inventory: Inventory)
    returns (r: Option<Priced>)
    ensures r == if line.kind.Unsupported? then None else Some(PriceOf(m, line, s, params, st, inventory))
  {
    var sim := Simulate(m, line, s, params, st);
    if sim.None? { return None; }
    ProbabilityInUnit(m, line, s, params, SeedOf(StreamFor(m, line, st)));
    var quote := MakeQuote(sim.value.probability, sim.value.ci, params, inventory);
    r := Some(Priced(quote.fairValue, quote.bid, quote.ask, sim.value.ci, sim.value.sims));
  }

  // -------------------------------------------------------------------- Kelly

  function KellyFraction(p: real, decimalOdds: real): real {
    var b := decimalOdds - 1.0;
    if !(b > 0.0) then 0.0 else Max(0.0, Min(1.0, (b * p - (1.0 - p)) / b))
  }

  /** A stake is advised exactly when the bet has an edge, everything exactly on a sure thing. */
  lemma KellyStakesOnEdge(p: real, odds: real)
    ensures 0.0 <= KellyFraction(p, odds) <= 1.0
    ensures KellyFraction(p, odds) > 0.0 <==> odds > 1.0 && p * odds > 1.0
    ensures KellyFraction(p, odds) == 1.0 <==> odds > 1.0 && p >= 1.0
  {
    var b := odds - 1.0;
    if b > 0.0 {
      var edge := p * odds - 1.0;
      assert b * p - (1.0 - p) == edge;
      assert edge > 0.0 <==> edge / b > 0.0;
      assert edge >= b <==> edge / b >= 1.0;
      assert edge - b == (p - 1.0) * odds;
      assert edge >= b <==> p >= 1.0;
    }
  }

  /** An advised stake below everything balances win and loss: it is where the expected log growth is flat. */
  lemma KellyBalancesGrowth(p: real, odds: real)
    requires 0.0 < KellyFraction(p, odds) < 1.0
    ensures var f, b := KellyFraction(p, odds), odds - 1.0;
      p * b * (1.0 - f) == (1.0 - p) * (1.0 + f * b)
  {
    var f, b := KellyFraction(p, odds), odds - 1.0;
    assert f == (b * p - (1.0 - p)) / b;
    assert f * b == b * p - (1.0 - p);
    assert p * b * (1.0 - f) == p * b - p * (f * b);
    assert (1.0 - p) * (1.0 + f * b) == (1.0 - p) + f * b - p * (f * b);
  }
}
