/** The order of prices across thresholds: kept on one stream of draws, lost where the threshold picks the stream. */
module PriceOrder {
  import opened Rng
  import opened Pricing

  // --------------------------------------------------------------- one stream

  lemma SharesCompare(h: nat, k: nat, n: nat)
    requires n > 0
    ensures h <= k ==> h as real / n as real <= k as real / n as real
    ensures h < k ==> h as real / n as real < k as real / n as real
  {
  }

  /** One stream prices the lines in order. */
  lemma StreamKeepsOrder(m: Maths, seed: U32, mean: real, n: nat, observed: nat, low: real, high: real)
    requires n > 0 && low <= high
    ensures Estimate(m, seed, mean, n, observed, high) <= Estimate(m, seed, mean, n, observed, low)
  {
    var futures := Samples(m, seed, mean, n);
    HitsMonotone(futures, observed, observed, low, high);
    SharesCompare(Hits(futures, observed, high), Hits(futures, observed, low), n);
  }

  // ----------------------------------------------------------- quiet streams

  /** None of the first `n` draws is above the limit. */
  predicate Quiet(m: Maths, seed: U32, mean: real, n: nat) {
    mean > 0.0 ==> forall i :: 0 <= i < n ==> DrawAt(m.mix, seed, i) <= m.exp(-mean)
  }

  lemma FirstTwo(mix: Mixer, seed: U32, at: nat)
    ensures var x, y := DrawAt(mix, seed, at), DrawAt(mix, seed, at + 1);
      Product(Take(mix, seed, at, 0)) == 1.0 && Product(Take(mix, seed, at, 1)) == x
      && Product(Take(mix, seed, at, 2)) == Times(x, y)
  {
    assert Take(mix, seed, at, 0) == [] && Take(mix, seed, at, 1) == [] + [DrawAt(mix, seed, at)];
    ProductAppend([], DrawAt(mix, seed, at));
    ProductAppend(Take(mix, seed, at, 1), DrawAt(mix, seed, at + 1));
  }

  /** A draw that is not above the limit brings no event, and one that is, before a draw of nought, brings one. */
  lemma FutureAt(m: Maths, seed: U32, mean: real, at: nat)
    requires mean > 0.0
    ensures DrawAt(m.mix, seed, at) <= m.exp(-mean) ==> Future(m, seed, at, mean) == 0
    ensures DrawAt(m.mix, seed, at) > m.exp(-mean) && DrawAt(m.mix, seed, at + 1) == 0.0 ==>
      Future(m, seed, at, mean) == 1
  {
    var L, x, y := m.exp(-mean), DrawAt(m.mix, seed, at), DrawAt(m.mix, seed, at + 1);
    FirstTwo(m.mix, seed, at);
    if x <= L {
      StopsThere(m.mix, seed, at, 0, L);
      PoissonIsUnique(m.mix, seed, at, L, 0, Future(m, seed, at, mean));
    } else if y == 0.0 {
      assert Times(x, 0.0) == 0.0;
      StopsThere(m.mix, seed, at, 1, L);
      PoissonIsUnique(m.mix, seed, at, L, 1, Future(m, seed, at, mean));
    }
  }

  /** Induction over the naturals, for properties whose terms are better kept apart. */
  lemma {:induction false} Climb(p: nat -> bool, n: nat)
    requires p(0) && forall i, j :: 0 <= i < n && j == i + 1 && p(i) ==> p(j)
    ensures p(n)
  {
    if n > 0 { Climb(p, n - 1); }
  }

  /** The first `n` simulations have one draw each, if any, and no event. */
  predicate NoEventIn(m: Maths, seed: U32, mean: real, n: nat) {
    && Samples(m, seed, mean, n) == seq(n, _ => 0)
    && (mean > 0.0 ==> Position(m, seed, mean, n) == n)
  }

  lemma QuietStart(m: Maths, seed: U32, mean: real)
    ensures NoEventIn(m, seed, mean, 0)
  {
  }

  lemma QuietStep(m: Maths, seed: U32, mean: real, i: nat)
    requires NoEventIn(m, seed, mean, i)
    requires mean > 0.0 ==> DrawAt(m.mix, seed, i) <= m.exp(-mean)
    ensures NoEventIn(m, seed, mean, i + 1)
  {
    SampleStep(m, seed, mean, i);
    if mean > 0.0 { FutureAt(m, seed, mean, i); }
    assert seq(i, _ => 0) + [0] == seq(i + 1, _ => 0);
  }

  lemma QuietSamples(m: Maths, seed: U32, mean: real, n: nat)
    requires Quiet(m, seed, mean, n)
    ensures NoEventIn(m, seed, mean, n)
  {
    var p := (i: nat) => NoEventIn(m, seed, mean, i);
    QuietStart(m, seed, mean);
    forall i, j | 0 <= i < n && j == i + 1 && p(i) ensures p(j) { QuietStep(m, seed, mean, i); }
    Climb(p, n);
  }

  lemma {:induction false} NoughtsDoNotHit(n: nat, observed: nat, threshold: real)
    requires observed as real <= threshold
    ensures Hits(seq(n, _ => 0), observed, threshold) == 0
  {
    if n > 0 {
      assert seq(n, _ => 0)[..n - 1] == seq(n - 1, _ => 0);
      NoughtsDoNotHit(n - 1, observed, threshold);
    }
  }

  predicate Continues(m: Maths, seed: U32, mean: real, first: seq<nat>, n: nat) { first <= Samples(m, seed, mean, n) }

  lemma ContinueStep(m: Maths, seed: U32, mean: real, first: seq<nat>, i: nat)
    requires Continues(m, seed, mean, first, i)
    ensures Continues(m, seed, mean, first, i + 1)
  {
    SampleStep(m, seed, mean, i);
  }

  lemma SamplesExtend(m: Maths, seed: U32, mean: real, k: nat, n: nat)
    requires k <= n
    ensures Samples(m, seed, mean, k) <= Samples(m, seed, mean, n)
  {
    var first := Samples(m, seed, mean, k);
    assert Continues(m, seed, mean, first, k);
    var p := (i: nat) => i >= k ==> Continues(m, seed, mean, first, i);
    forall i, j | 0 <= i < n && j == i + 1 && p(i) ensures p(j) {
      if k <= i { ContinueStep(m, seed, mean, first, i); }
    }
    Climb(p, n);
  }

  lemma {:induction false} PrefixHitsLess(s: seq<nat>, t: seq<nat>, observed: nat, threshold: real)
    requires s <= t
    ensures Hits(s, observed, threshold) <= Hits(t, observed, threshold)
  {
    if s != t { PrefixHitsLess(s, t[..|t| - 1], observed, threshold); }
  }

  /** A stream that is quiet up to a draw above the limit, followed by nought, hits every line below the next event. */
  lemma OneEventHits(m: Maths, seed: U32, mean: real, j: nat, n: nat, observed: nat, threshold: real)
    requires j < n && mean > 0.0 && threshold < observed as real + 1.0 && Quiet(m, seed, mean, j)
    requires DrawAt(m.mix, seed, j) > m.exp(-mean) && DrawAt(m.mix, seed, j + 1) == 0.0
    ensures Hits(Samples(m, seed, mean, n), observed, threshold) > 0
  {
    QuietSamples(m, seed, mean, j);
    SampleStep(m, seed, mean, j);
    FutureAt(m, seed, mean, j);
    HitsAppend(Samples(m, seed, mean, j), 1, observed, threshold);
    SamplesExtend(m, seed, mean, j + 1, n);
    PrefixHitsLess(Samples(m, seed, mean, j + 1), Samples(m, seed, mean, n), observed, threshold);
  }

  // --------------------------------------------------------- different seeds

  /** A draw of some generator is above the limit: e^-mean is less than the largest draw. */
  predicate CanHit(m: Maths, mean: real) { mean > 0.0 && m.exp(-mean) < 1.0 - GAP }

  lemma AlwaysQuiet(m: Maths, seed: U32, mean: real, n: nat)
    requires !CanHit(m, mean)
    ensures Quiet(m, seed, mean, n)
  {
    forall i | 0 <= i < n ensures IsDraw(DrawAt(m.mix, seed, i)) { DrawInRange(m.mix, seed, i); }
  }

  /** A generator whose largest word comes out of one state alone, all others giving nought. */
  function Spike(at: U32): Mixer { (a: U32) => if a == at then TWO32 - 1 else 0 }

  /** Draw `i` comes out of the state `at`. */
  predicate Visits(seed: U32, i: nat, at: U32) { StateAfter(seed, i + 1) == at }

  lemma SpikeDraw(at: U32, seed: U32, i: nat)
    ensures DrawAt(Spike(at), seed, i) == if Visits(seed, i, at) then 1.0 - GAP else 0.0
  {
    WholeWord();
  }

  lemma WholeWord()
    ensures (TWO32 - 1) as real / TWO32 as real == 1.0 - GAP && 0.0 / TWO32 as real == 0.0
  {
  }

  /** How many steps the stream of `a` takes to the seed `b`. */
  function Steps(a: U32, b: U32): U32 { ((b - a) * STEP_INVERSE) % TWO32 }

  lemma StepsCount(i: int)
    ensures (i * STEP_INVERSE) % TWO32 * STEP % TWO32 == i % TWO32
  {
    CongruentTimes((i * STEP_INVERSE) % TWO32, i * STEP_INVERSE, STEP);
    assert i * STEP_INVERSE * STEP == i * STEP * STEP_INVERSE;
    UndoStep(i);
  }

  lemma StepsReach(a: U32, b: U32)
    ensures StateAfter(a, Steps(a, b)) == b
    ensures a != b ==> Steps(a, b) > 0
  {
    StepsCount(b - a);
    StateIsLinear(a, Steps(a, b));
    ShiftedAgreeIff(Steps(a, b) * STEP, b - a, a);
  }

  /** A draw of the stream of `b`, among the first `n`, whose state the first `n` draws of the stream of `a` avoid. */
  function Apart(a: U32, b: U32, n: nat): nat { if Steps(a, b) <= n then n - Steps(a, b) else 0 }

  lemma FirstStreamAvoids(a: U32, b: U32, n: nat, at: U32)
    requires a != b && 0 < n < TWO32 && Visits(b, Apart(a, b, n), at)
    ensures Apart(a, b, n) < n && forall i :: 0 <= i < n ==> !Visits(a, i, at)
  {
    var k := Steps(a, b) + Apart(a, b, n);
    StepsReach(a, b);
    StatesCompose(a, Steps(a, b), Apart(a, b, n) + 1);
    assert n <= k < TWO32 && Visits(a, k, at);
    forall i | 0 <= i < n ensures !Visits(a, i, at) { VisitsOnce(a, i, k, at); }
  }

  lemma VisitsOnce(a: U32, i: nat, k: nat, at: U32)
    requires i < TWO32 && k < TWO32 && Visits(a, k, at)
    ensures Visits(a, i, at) <==> i == k
  {
    FullPeriod(a, i + 1, k + 1);
  }

  lemma SecondStreamVisitsOnce(b: U32, j: nat, at: U32)
    requires j < TWO32 - 1 && Visits(b, j, at)
    ensures forall i :: 0 <= i < j || i == j + 1 ==> !Visits(b, i, at)
  {
    forall i | 0 <= i < j || i == j + 1 ensures !Visits(b, i, at) { VisitsOnce(b, i, j, at); }
  }

  lemma AvoidingStreamNeverHits(m: Maths, at: U32, a: U32, mean: real, n: nat, observed: nat, low: real)
    requires observed as real <= low && mean > 0.0 && forall i :: 0 <= i < n ==> !Visits(a, i, at)
    ensures Hits(Samples(m.(mix := Spike(at)), a, mean, n), observed, low) == 0
  {
    forall i | 0 <= i < n ensures DrawAt(Spike(at), a, i) == 0.0 { SpikeDraw(at, a, i); }
    QuietSamples(m.(mix := Spike(at)), a, mean, n);
    NoughtsDoNotHit(n, observed, low);
  }

  lemma VisitingStreamHits(m: Maths, at: U32, b: U32, mean: real, j: nat, n: nat, observed: nat, high: real)
    requires j < n < TWO32 && CanHit(m, mean) && high < observed as real + 1.0 && Visits(b, j, at)
    ensures Hits(Samples(m.(mix := Spike(at)), b, mean, n), observed, high) > 0
  {
    SecondStreamVisitsOnce(b, j, at);
    forall i | 0 <= i < j ensures DrawAt(Spike(at), b, i) == 0.0 { SpikeDraw(at, b, i); }
    SpikeDraw(at, b, j);
    SpikeDraw(at, b, j + 1);
    OneEventHits(m.(mix := Spike(at)), b, mean, j, n, observed, high);
  }

  /** Different seeds: a generator on which the higher line is hit and the lower one never. */
  lemma SpikeBreaksOrder(m: Maths, a: U32, b: U32, mean: real, n: nat, observed: nat, low: real, high: real)
    requires a != b && 0 < n < TWO32 && CanHit(m, mean)
    requires observed as real <= low && high < observed as real + 1.0
    ensures !EstimatesInOrder(m, Spike(StateAfter(b, Apart(a, b, n) + 1)), a, b, mean, n, observed, low, high)
  {
    var at := StateAfter(b, Apart(a, b, n) + 1);
    FirstStreamAvoids(a, b, n, at);
    AvoidingStreamNeverHits(m, at, a, mean, n, observed, low);
    VisitingStreamHits(m, at, b, mean, Apart(a, b, n), n, observed, high);
    SharesCompare(0, Hits(Samples(m.(mix := Spike(at)), b, mean, n), observed, high), n);
  }

  // ------------------------------------------------------- prices of two lines

  /** With this generator, the lower line on stream `a` is priced no lower than the higher one on stream `b`. */
  ghost predicate EstimatesInOrder(m: Maths, mix: Mixer, a: U32, b: U32, mean: real, n: nat, observed: nat, low: real,
                                   high: real)
    requires n > 0
  {
    Estimate(m.(mix := mix), b, mean, n, observed, high) <= Estimate(m.(mix := mix), a, mean, n, observed, low)
  }

  lemma EstimatesInOrderIf(m: Maths, mix: Mixer, a: U32, b: U32, mean: real, n: nat, observed: nat, low: real,
                           high: real)
    requires n > 0 && low <= high && (a == b || !CanHit(m, mean))
    ensures EstimatesInOrder(m, mix, a, b, mean, n, observed, low, high)
  {
    var mixed := m.(mix := mix);
    StreamKeepsOrder(mixed, a, mean, n, observed, low, high);
    if a != b {
      AlwaysQuiet(mixed, a, mean, n);
      AlwaysQuiet(mixed, b, mean, n);
      QuietSamples(mixed, a, mean, n);
      QuietSamples(mixed, b, mean, n);
    }
  }

  /** The lower of two lines is priced no lower, with this generator behind both. */
  ghost predicate InOrder(m: Maths, mix: Mixer, low: Line, high: Line, s: MatchState, params: Params, st: Stream) {
    Probability(m.(mix := mix), high, s, params, SeedOf(StreamFor(m, high, st)))
      <= Probability(m.(mix := mix), low, s, params, SeedOf(StreamFor(m, low, st)))
  }

  lemma InOrderIsEstimates(m: Maths, mix: Mixer, low: Line, high: Line, s: MatchState, params: Params, st: Stream)
    requires low.kind == high.kind
    ensures InOrder(m, mix, low, high, s, params, st) <==>
      EstimatesInOrder(m, mix, SeedOf(StreamFor(m, low, st)), SeedOf(StreamFor(m, high, st)),
        RemainingRate(low.kind, s, params), SimulationCount(params), ObservedSoFar(low.kind, s), ThresholdFor(low),
        ThresholdFor(high))
  {
  }

  /** Lines that share their seed are priced in order, as are lines to which no event can come. */
  lemma OrderHoldsIf(m: Maths, mix: Mixer, low: Line, high: Line, s: MatchState, params: Params, st: Stream)
    requires low.kind == high.kind && ThresholdFor(low) <= ThresholdFor(high)
    requires SeedOf(StreamFor(m, low, st)) == SeedOf(StreamFor(m, high, st))
      || !CanHit(m, RemainingRate(low.kind, s, params))
    ensures InOrder(m, mix, low, high, s, params, st)
  {
    EstimatesInOrderIf(m, mix, SeedOf(StreamFor(m, low, st)), SeedOf(StreamFor(m, high, st)),
      RemainingRate(low.kind, s, params), SimulationCount(params), ObservedSoFar(low.kind, s), ThresholdFor(low),
      ThresholdFor(high));
    InOrderIsEstimates(m, mix, low, high, s, params, st);
  }

  /**
   Exactly when two lines that the next event decides are priced in order by every generator: they share a seed, or
   no event can come.
  */
  lemma OrderHoldsIff(m: Maths, low: Line, high: Line, s: MatchState, params: Params, st: Stream)
    requires low.kind == high.kind && params.simulations < TWO32
    requires var observed := ObservedSoFar(low.kind, s) as real;
      observed <= ThresholdFor(low) <= ThresholdFor(high) < observed + 1.0
    ensures (forall mix: Mixer :: InOrder(m, mix, low, high, s, params, st)) <==>
      || SeedOf(StreamFor(m, low, st)) == SeedOf(StreamFor(m, high, st))
      || !CanHit(m, RemainingRate(low.kind, s, params))
  {
    var a, b, n := SeedOf(StreamFor(m, low, st)), SeedOf(StreamFor(m, high, st)), SimulationCount(params);
    var mean := RemainingRate(low.kind, s, params);
    if a == b || !CanHit(m, mean) {
      forall mix: Mixer ensures InOrder(m, mix, low, high, s, params, st) {
        OrderHoldsIf(m, mix, low, high, s, params, st);
      }
    } else {
      SpikeBreaksOrder(m, a, b, mean, n, ObservedSoFar(low.kind, s), ThresholdFor(low), ThresholdFor(high));
      InOrderIsEstimates(m, Spike(StateAfter(b, Apart(a, b, n) + 1)), low, high, s, params, st);
    }
  }
}
