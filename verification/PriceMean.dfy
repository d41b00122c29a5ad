/** The mean that drives a price: which inputs reach it, and its value at kickoff, after ninety minutes and between. */
module PriceMean {
  import opened Rng
  import opened Seed
  import opened Text
  import opened Pricing

  /** The inputs a line of this kind is about: the clock, its own statistic and its own league prior. */
  predicate SameInputs(kind: Kind, s: MatchState, t: MatchState, p: Params, q: Params) {
    && s.minute == t.minute
    && match kind
       case TotalGoalsOver =>
         s.goalsHome + s.goalsAway == t.goalsHome + t.goalsAway && q == p.(cornerRatePrior := q.cornerRatePrior)
       case CornersOver =>
         s.cornersHome + s.cornersAway == t.cornersHome + t.cornersAway && q == p.(goalRatePrior := q.goalRatePrior)
       case Unsupported => false
  }

  lemma SameObserved(kind: Kind, s: MatchState, t: MatchState, p: Params, q: Params)
    requires SameInputs(kind, s, t, p, q)
    ensures ObservedSoFar(kind, s) == ObservedSoFar(kind, t) && SimulationCount(p) == SimulationCount(q)
  {
  }

  lemma SameBlend(observed: real, prior: real, minute: real, p: Params, q: Params)
    requires p.blendMin == q.blendMin && p.blendMax == q.blendMax
    ensures BlendedRate(observed, prior, minute, p) == BlendedRate(observed, prior, minute, q)
  {
    assert BlendWeight(minute, p) == BlendWeight(minute, q);
  }

  lemma SameMean(kind: Kind, s: MatchState, t: MatchState, p: Params, q: Params)
    requires SameInputs(kind, s, t, p, q)
    ensures RemainingRate(kind, s, p) == RemainingRate(kind, t, q)
  {
    SameObserved(kind, s, t, p, q);
    SameBlend(ObservedSoFar(kind, s) as real, if kind.TotalGoalsOver? then p.goalRatePrior else p.cornerRatePrior,
      s.minute, p, q);
  }

  /** Goals price goals and corners price corners: the other statistic and its prior change nothing, whoever scored. */
  lemma OwnStatisticOnly(m: Maths, line: Line, s: MatchState, t: MatchState, p: Params, q: Params, seed: U32)
    requires SameInputs(line.kind, s, t, p, q)
    ensures Probability(m, line, s, p, seed) == Probability(m, line, t, q, seed)
  {
    SameMean(line.kind, s, t, p, q);
    SameObserved(line.kind, s, t, p, q);
  }

  /** The events a match state and the parameters hold of a kind: those seen so far, and those of a whole match. */
  function Seen(kind: Kind, s: MatchState): nat
    requires !kind.Unsupported?
  {
    match kind
    case TotalGoalsOver => s.goalsHome + s.goalsAway
    case CornersOver => s.cornersHome + s.cornersAway
  }

  function Expected(kind: Kind, p: Params): real
    requires !kind.Unsupported?
  {
    match kind
    case TotalGoalsOver => p.goalRatePrior
    case CornersOver => p.cornerRatePrior
  }

  /** The blend moves linearly from blendMin at kickoff to blendMax at minute 90, and stays there. */
  lemma WeightIsLinear(minute: real, p: Params)
    ensures 0.0 <= minute <= 90.0 ==>
      (BlendWeight(minute, p) - p.blendMin) * 90.0 == (p.blendMax - p.blendMin) * minute
    ensures minute >= 90.0 ==> BlendWeight(minute, p) == p.blendMax
    ensures minute <= 0.0 ==> BlendWeight(minute, p) == p.blendMin
  {
    var d, frac := p.blendMax - p.blendMin, Min(Max(minute / 90.0, 0.0), 1.0);
    assert BlendWeight(minute, p) == p.blendMin + d * frac;
    if 0.0 <= minute <= 90.0 {
      SameFactor(d, frac, minute / 90.0);
      ShareOfNinety(d, minute);
    }
    if minute >= 90.0 { SameFactor(d, frac, 1.0); }
    if minute <= 0.0 { SameFactor(d, frac, 0.0); }
  }

  lemma ShareOfNinety(d: real, x: real)
    ensures d * (x / 90.0) * 90.0 == d * x
  {
    Regroup(d, x / 90.0);
    SameFactor(d, x / 90.0 * 90.0, x);
  }

  lemma Regroup(d: real, y: real)
    ensures d * y * 90.0 == d * (y * 90.0)
  {
  }

  lemma SameFactor(d: real, x: real, y: real)
    requires x == y
    ensures d * x == d * y
  {
  }

  /** The mean in events: at kickoff without a blend, from minute 90 on with a full one, and for any weight between. */
  lemma MeanIsKnown(kind: Kind, s: MatchState, p: Params)
    requires !kind.Unsupported?
    ensures s.minute == 0.0 && p.blendMin == 0.0 && p.stoppageMinutes >= 0.0 ==>
      RemainingRate(kind, s, p) == Expected(kind, p) / 90.0 * (90.0 + p.stoppageMinutes)
    ensures s.minute >= 90.0 && p.blendMax == 1.0 ==>
      RemainingRate(kind, s, p) == Seen(kind, s) as real / s.minute * p.stoppageMinutes
    ensures 0.0 < s.minute <= 90.0 ==>
      var w := BlendWeight(s.minute, p);
      RemainingRate(kind, s, p) == (w * (Seen(kind, s) as real / s.minute) + (1.0 - w) * (Expected(kind, p) / 90.0))
        * (90.0 + p.stoppageMinutes - s.minute)
  {
    RateBlendsAt(Seen(kind, s) as real, Expected(kind, p), s.minute, p);
  }

  lemma RateBlendsAt(observed: real, prior: real, minute: real, p: Params)
    ensures minute == 0.0 && p.blendMin == 0.0 ==> BlendedRate(observed, prior, minute, p) == prior / 90.0
    ensures minute >= 90.0 && p.blendMax == 1.0 ==> BlendedRate(observed, prior, minute, p) == observed / minute
  {
    WeightIsLinear(minute, p);
  }

  /** The numbers of the simulated futures that end over the line. */
  function OverLine(futures: seq<nat>, observed: nat, threshold: real): (over: set<nat>)
    ensures forall i :: i in over <==> 0 <= i < |futures| && (observed + futures[i]) as real > threshold
  {
    set i: nat | i < |futures| && (observed + futures[i]) as real > threshold
  }

  lemma {:induction false} HitsAreCounted(futures: seq<nat>, observed: nat, threshold: real)
    ensures Hits(futures, observed, threshold) == |OverLine(futures, observed, threshold)|
  {
    if futures == [] {
      assert OverLine([], observed, threshold) == {};
    } else {
      var last := |futures| - 1;
      var front := futures[..last];
      HitsAreCounted(front, observed, threshold);
      var before, after := OverLine(front, observed, threshold), OverLine(futures, observed, threshold);
      assert after == if (observed + futures[last]) as real > threshold then before + {last} else before;
    }
  }

  lemma EstimateCounts(m: Maths, seed: U32, mean: real, n: nat, observed: nat, threshold: real)
    requires n > 0
    ensures Estimate(m, seed, mean, n, observed, threshold)
      == |OverLine(Samples(m, seed, mean, n), observed, threshold)| as real / n as real
  {
    HitsAreCounted(Samples(m, seed, mean, n), observed, threshold);
  }

  /** The price is the number of simulated futures over the line, out of the configured number of simulations. */
  lemma PriceCounts(m: Maths, line: Line, s: MatchState, p: Params, seed: U32)
    requires !line.kind.Unsupported?
    ensures SimulationCount(p) == if p.simulations >= 1 then p.simulations else 1
    ensures var futures := Samples(m, seed, RemainingRate(line.kind, s, p), SimulationCount(p));
      Probability(m, line, s, p, seed)
        == |OverLine(futures, Seen(line.kind, s), ThresholdFor(line))| as real / SimulationCount(p) as real
  {
    EstimateCounts(m, seed, RemainingRate(line.kind, s, p), SimulationCount(p), ObservedSoFar(line.kind, s),
      ThresholdFor(line));
    assert ObservedSoFar(line.kind, s) == Seen(line.kind, s);
  }

  /** What is hashed: the caller's seed, the name of the predicate, the threshold (nought if missing), the snapshot. */
  lemma StreamNames(m: Maths, line: Line, st: Stream)
    requires !line.kind.Unsupported?
    ensures var threshold := if line.threshold.Some? then line.threshold.value else 0.0;
      var name := if line.kind == TotalGoalsOver then Lit("total_goals_over") else Lit("corners_over");
      StreamFor(m, line, st) == Joined(st.seed, name, m.show(threshold), st.hash)
  {
  }

  /** Kickoff with the default parameters: 2.65 goals and 10.5 corners a match, and five minutes of stoppage. */
  lemma DefaultMeans(s: MatchState)
    requires s.minute == 0.0
    ensures RemainingRate(TotalGoalsOver, s, DEFAULTS) == 2.65 / 90.0 * 95.0
    ensures RemainingRate(CornersOver, s, DEFAULTS) == 10.5 / 90.0 * 95.0
  {
    MeanIsKnown(TotalGoalsOver, s, DEFAULTS);
    MeanIsKnown(CornersOver, s, DEFAULTS);
  }
}
