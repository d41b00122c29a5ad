/** The calibration report: accumulating ten probability buckets, and what their figures mean. */
module Calibration {

  datatype Observation = Observation(p: real, outcome: bool)
  datatype Bucket = Bucket(lo: real, hi: real, predicted: real, actual: real, count: nat)
  datatype Report = Report(brier: real, buckets: seq<Bucket>, n: nat)

  const BUCKETS := 10

  function Score(outcome: bool): real { if outcome then 1.0 else 0.0 }

  function Sq(x: real): real { x * x }

  function BucketIndex(p: real): (i: nat)
    ensures i < BUCKETS
  {
    var f := (p * BUCKETS as real).Floor;
    if f < 0 then 0 else if f > BUCKETS - 1 then BUCKETS - 1 else f
  }

  // -------------------------------------------------- sums over a sub-list

  /** Running totals: how many points, and the sums of p, of outcomes, and of squared errors. */
  datatype Totals = Totals(count: nat, predicted: real, actual: real, squares: real)

  const ZERO := Totals(0, 0.0, 0.0, 0.0)

  function Add(t: Totals, x: Observation): Totals {
    Totals(t.count + 1, t.predicted + x.p, t.actual + Score(x.outcome), t.squares + Sq(x.p - Score(x.outcome)))
  }

  function Plus(a: Totals, b: Totals): Totals {
    Totals(a.count + b.count, a.predicted + b.predicted, a.actual + b.actual, a.squares + b.squares)
  }

  /** Totals of the points that fall in bucket `b`. */
  function InBucket(xs: seq<Observation>, b: nat): Totals {
    if xs == [] then ZERO
    else
      var t := InBucket(xs[..|xs| - 1], b);
      var x := xs[|xs| - 1];
      if BucketIndex(x.p) == b then Add(t, x) else t
  }

  /** Totals of all points. */
  function Overall(xs: seq<Observation>): Totals {
    if xs == [] then ZERO else Add(Overall(xs[..|xs| - 1]), xs[|xs| - 1])
  }

  function SumBuckets(xs: seq<Observation>, k: nat): Totals {
    if k == 0 then ZERO else Plus(SumBuckets(xs, k - 1), InBucket(xs, k - 1))
  }

  lemma {:induction false} SumBucketsStep(xs: seq<Observation>, x: Observation, k: nat)
    ensures SumBuckets(xs + [x], k) == if BucketIndex(x.p) < k then Add(SumBuckets(xs, k), x) else SumBuckets(xs, k)
  {
    if k > 0 {
      SumBucketsStep(xs, x, k - 1);
      assert (xs + [x])[..|xs|] == xs;
    }
  }

  lemma {:induction false} BucketsCoverAll(xs: seq<Observation>, k: nat)
    requires forall i :: 0 <= i < |xs| ==> BucketIndex(xs[i].p) < k
    ensures SumBuckets(xs, k) == Overall(xs)
    ensures Overall(xs).count == |xs|
  {
    if xs == [] {
      EmptyBuckets(k);
    } else {
      var front, x := xs[..|xs| - 1], xs[|xs| - 1];
      assert xs == front + [x];
      BucketsCoverAll(front, k);
      SumBucketsStep(front, x, k);
    }
  }

  /** The buckets partition the points: their counts and sums add up to the whole. */
  lemma BucketsPartition(xs: seq<Observation>)
    ensures SumBuckets(xs, BUCKETS) == Overall(xs)
    ensures Overall(xs).count == |xs|
  {
    BucketsCoverAll(xs, BUCKETS);
  }

  lemma {:induction false} EmptyBuckets(k: nat)
    ensures SumBuckets([], k) == ZERO
  {
    if k > 0 { EmptyBuckets(k - 1); }
  }

  // ------------------------------------------------------ bucket inequalities

  predicate Probabilities(xs: seq<Observation>) { forall i :: 0 <= i < |xs| ==> 0.0 <= xs[i].p <= 1.0 }

  function Lo(b: nat): real { b as real / BUCKETS as real }
  function Hi(b: nat): real { (b + 1) as real / BUCKETS as real }

  lemma PointInBounds(p: real)
    requires 0.0 <= p <= 1.0
    ensures Lo(BucketIndex(p)) <= p <= Hi(BucketIndex(p))
  {
    var f := (p * 10.0).Floor;
    assert f as real <= p * 10.0 < f as real + 1.0;
    assert 0 <= f <= 10;
  }

  /** `c` copies of `x` added up. */
  function Copies(c: nat, x: real): real { if c == 0 then 0.0 else Copies(c - 1, x) + x }

  lemma {:induction false} CopiesIsProduct(c: nat, x: real)
    ensures Copies(c, x) == c as real * x
  {
    if c > 0 {
      var k := (c - 1) as real;
      CopiesIsProduct(c - 1, x);
      assert c as real == k + 1.0;
      assert (k + 1.0) * x == k * x + x;
    }
  }

  lemma {:induction false} SumInBounds(xs: seq<Observation>, b: nat, lo: real, hi: real)
    requires forall i :: 0 <= i < |xs| && BucketIndex(xs[i].p) == b ==> lo <= xs[i].p <= hi
    ensures var t := InBucket(xs, b); Copies(t.count, lo) <= t.predicted <= Copies(t.count, hi)
  {
    if xs != [] { SumInBounds(xs[..|xs| - 1], b, lo, hi); }
  }

  lemma PointsInBounds(xs: seq<Observation>, b: nat)
    requires Probabilities(xs)
    ensures forall i :: 0 <= i < |xs| && BucketIndex(xs[i].p) == b ==> Lo(b) <= xs[i].p <= Hi(b)
  {
    forall i | 0 <= i < |xs| && BucketIndex(xs[i].p) == b ensures Lo(b) <= xs[i].p <= Hi(b) {
      PointInBounds(xs[i].p);
    }
  }

  lemma PredictedInBounds(xs: seq<Observation>, b: nat)
    requires Probabilities(xs)
    ensures var t := InBucket(xs, b); Copies(t.count, Lo(b)) <= t.predicted <= Copies(t.count, Hi(b))
  {
    PointsInBounds(xs, b);
    SumInBounds(xs, b, Lo(b), Hi(b));
  }

  lemma SqNonneg(x: real)
    ensures Sq(x) >= 0.0
  {
  }

  lemma ProductNonneg(x: real, y: real)
    requires x >= 0.0 && y >= 0.0
    ensures x * y >= 0.0
  {
  }

  /** Twice a product is at most the weighted squares, given D^2 <= c B. */
  lemma YoungBound(d: real, b: real, c: real, x: real)
    requires c >= 0.0 && b >= 0.0 && Sq(d) <= c * b && (c == 0.0 ==> d == 0.0)
    ensures 2.0 * (d * x) <= b + c * Sq(x)
  {
    var xx, dx := Sq(x), d * x;
    SqNonneg(x);
    ProductNonneg(c, xx);
    if c == 0.0 {
      assert dx == 0.0;
    } else {
      var cx := c * x;
      var u := d - cx;
      SqNonneg(u);
      assert d * cx == c * dx;
      assert cx * cx == c * (c * xx);
      assert u * u == d * d - 2.0 * (d * cx) + cx * cx;
      // c (b + c x^2 - 2 d x) >= (d - c x)^2 >= 0
      var y := b + c * xx - 2.0 * dx;
      assert c * y == c * b + c * (c * xx) - 2.0 * (c * dx);
      assert c * y >= 0.0;
      PositiveFactor(c, y);
    }
  }

  /** One step of Cauchy-Schwarz: from D^2 <= c B to (D + x)^2 <= (c + 1)(B + x^2). */
  lemma CauchyStep(d: real, b: real, c: real, x: real)
    requires c >= 0.0 && b >= 0.0 && Sq(d) <= c * b && (c == 0.0 ==> d == 0.0)
    ensures Sq(d + x) <= (c + 1.0) * (b + Sq(x))
  {
    YoungBound(d, b, c, x);
    var xx, dx := Sq(x), d * x;
    assert Sq(d + x) == Sq(d) + 2.0 * dx + xx;
    assert (c + 1.0) * (b + xx) == c * b + c * xx + b + xx;
  }

  lemma PositiveFactor(c: real, y: real)
    requires c > 0.0 && c * y >= 0.0
    ensures y >= 0.0
  {
  }

  /** In every bucket the squared gap of the sums is at most count times the squared errors. */
  lemma {:induction false} BucketGap(xs: seq<Observation>, b: nat)
    ensures var t := InBucket(xs, b);
      t.squares >= 0.0 && Sq(t.predicted - t.actual) <= t.count as real * t.squares
  {
    if xs != [] {
      var front, x := xs[..|xs| - 1], xs[|xs| - 1];
      BucketGap(front, b);
      if BucketIndex(x.p) == b {
        var t := InBucket(front, b);
        var e := x.p - Score(x.outcome);
        NoneNoYes(front, b);
        CauchyStep(t.predicted - t.actual, t.squares, t.count as real, e);
        SqNonneg(e);
        assert (t.count + 1) as real == t.count as real + 1.0;
        assert t.predicted - t.actual + e == Add(t, x).predicted - Add(t, x).actual;
      }
    }
  }

  lemma {:induction false} SquaresAtMostCount(xs: seq<Observation>)
    requires Probabilities(xs)
    ensures 0.0 <= Overall(xs).squares <= |xs| as real
  {
    if xs != [] {
      var front, x := xs[..|xs| - 1], xs[|xs| - 1];
      SquaresAtMostCount(front);
      ErrorAtMostOne(x);
      assert |xs| as real == |front| as real + 1.0;
    }
  }

  lemma ErrorAtMostOne(x: Observation)
    requires 0.0 <= x.p <= 1.0
    ensures 0.0 <= Sq(x.p - Score(x.outcome)) <= 1.0
  {
    var e := x.p - Score(x.outcome);
    SqNonneg(e);
    assert -1.0 <= e <= 1.0;
    var up, down := 1.0 + e, 1.0 - e;
    ProductNonneg(up, down);
    assert up * down == 1.0 - e * e;
  }

  // ------------------------------------------------------------- the report

  function Mean(sum: real, count: nat): real { if count > 0 then sum / count as real else 0.0 }

  function Summary(xs: seq<Observation>, b: nat): Bucket {
    var t := InBucket(xs, b);
    Bucket(Lo(b), Hi(b), Mean(t.predicted, t.count), Mean(t.actual, t.count), t.count)
  }

  function ReportOf(xs: seq<Observation>): Report {
    if xs == [] then Report(0.0, [], 0)
    else Report(Overall(xs).squares / |xs| as real, seq(BUCKETS, b requires 0 <= b < BUCKETS => Summary(xs, b)), |xs|)
  }

  /** Accumulate, then divide each bucket by its count. */
  method Backtest(points: seq<Observation>) returns (r: Report)
    ensures r == ReportOf(points)
  {
    var n := |points|;
    if n == 0 { return Report(0.0, [], 0); }
    var buckets := new Bucket[BUCKETS](b =>
      if b >= 0 then Bucket(Lo(b), Hi(b), 0.0, 0.0, 0) else Bucket(0.0, 0.0, 0.0, 0.0, 0));
    var brier := 0.0;
    for i := 0 to n
      invariant brier == Overall(points[..i]).squares
      invariant forall b :: 0 <= b < BUCKETS ==> buckets[b] == Accumulated(points[..i], b)
    {
      var x := points[i];
      assert points[..i + 1][..i] == points[..i] && points[..i + 1][i] == x;
      var o := Score(x.outcome);
      brier := brier + Sq(x.p - o);
      var idx := BucketIndex(x.p);
      var old_ := buckets[idx];
      buckets[idx] := old_.(count := old_.count + 1, predicted := old_.predicted + x.p, actual := old_.actual + o);
    }
    assert points[..n] == points;
    for b := 0 to BUCKETS
      invariant forall k :: 0 <= k < b ==> buckets[k] == Summary(points, k)
      invariant forall k :: b <= k < BUCKETS ==> buckets[k] == Accumulated(points, k)
    {
      var x := buckets[b];
      buckets[b] := x.(predicted := Mean(x.predicted, x.count), actual := Mean(x.actual, x.count));
    }
    assert buckets[..] == ReportOf(points).buckets;
    r := Report(brier / n as real, buckets[..], n);
  }

  /** A bucket before the division. */
  function Accumulated(xs: seq<Observation>, b: nat): Bucket {
    var t := InBucket(xs, b);
    Bucket(Lo(b), Hi(b), t.predicted, t.actual, t.count)
  }

  // ------------------------------------------------------ what a report says

  function SumCounts(bs: seq<Bucket>): nat {
    if bs == [] then 0 else SumCounts(bs[..|bs| - 1]) + bs[|bs| - 1].count
  }

  function Weighted(count: nat, x: real): real { count as real * x }

  function WeightedGap(count: nat, predicted: real, actual: real): real { count as real * Sq(predicted - actual) }

  /** Count-weighted sum of the buckets' yes frequencies. */
  function SumYes(bs: seq<Bucket>): real {
    if bs == [] then 0.0 else SumYes(bs[..|bs| - 1]) + Weighted(bs[|bs| - 1].count, bs[|bs| - 1].actual)
  }

  /** Count-weighted sum of the buckets' mean predictions. */
  function SumPredicted(bs: seq<Bucket>): real {
    if bs == [] then 0.0 else SumPredicted(bs[..|bs| - 1]) + Weighted(bs[|bs| - 1].count, bs[|bs| - 1].predicted)
  }

  /** Count-weighted sum of the squared calibration gaps. */
  function SumGaps(bs: seq<Bucket>): real {
    if bs == [] then 0.0
    else SumGaps(bs[..|bs| - 1]) + WeightedGap(bs[|bs| - 1].count, bs[|bs| - 1].predicted, bs[|bs| - 1].actual)
  }

  function YesCount(xs: seq<Observation>): nat {
    if xs == [] then 0 else YesCount(xs[..|xs| - 1]) + if xs[|xs| - 1].outcome then 1 else 0
  }

  lemma {:induction false} ActualCountsYes(xs: seq<Observation>)
    ensures Overall(xs).actual == YesCount(xs) as real
  {
    if xs != [] { ActualCountsYes(xs[..|xs| - 1]); }
  }

  function Sum(xs: seq<Observation>): real { if xs == [] then 0.0 else Sum(xs[..|xs| - 1]) + xs[|xs| - 1].p }

  lemma {:induction false} PredictedIsSum(xs: seq<Observation>)
    ensures Overall(xs).predicted == Sum(xs)
  {
    if xs != [] { PredictedIsSum(xs[..|xs| - 1]); }
  }

  lemma MeanTimesCount(sum: real, c: nat)
    requires c > 0
    ensures c as real * Mean(sum, c) == sum
  {
  }

  lemma GapOfMeans(t: Totals)
    requires t.squares >= 0.0 && Sq(t.predicted - t.actual) <= t.count as real * t.squares
    ensures WeightedGap(t.count, Mean(t.predicted, t.count), Mean(t.actual, t.count)) <= t.squares
  {
    if t.count > 0 {
      var c := t.count as real;
      var g := Mean(t.predicted, t.count) - Mean(t.actual, t.count);
      MeanTimesCount(t.predicted, t.count);
      MeanTimesCount(t.actual, t.count);
      assert c * g == t.predicted - t.actual;
      var gg := g * g;
      assert Sq(t.predicted - t.actual) == c * (c * gg) by { assert (c * g) * (c * g) == c * (c * (g * g)); }
      assert c * (t.squares - c * gg) >= 0.0;
      PositiveFactor(c, t.squares - c * gg);
    }
  }

  lemma MeansOfTotals(t: Totals)
    requires t.count == 0 ==> t == ZERO
    ensures Weighted(t.count, Mean(t.actual, t.count)) == t.actual
    ensures Weighted(t.count, Mean(t.predicted, t.count)) == t.predicted
  {
    if t.count > 0 {
      MeanTimesCount(t.actual, t.count);
      MeanTimesCount(t.predicted, t.count);
    }
  }

  /** What one summary adds to the weighted sums. */
  lemma SummarySums(xs: seq<Observation>, b: nat)
    ensures var t := InBucket(xs, b);
      var s := Summary(xs, b);
      && s.count == t.count && Weighted(s.count, s.actual) == t.actual && Weighted(s.count, s.predicted) == t.predicted
      && WeightedGap(s.count, s.predicted, s.actual) <= t.squares
  {
    BucketGap(xs, b);
    GapOfMeans(InBucket(xs, b));
    NoneNoYes(xs, b);
    MeansOfTotals(InBucket(xs, b));
  }

  lemma {:induction false} BucketSums(xs: seq<Observation>, k: nat)
    requires k <= BUCKETS && xs != []
    ensures var bs := ReportOf(xs).buckets[..k];
      var t := SumBuckets(xs, k);
      && SumCounts(bs) == t.count && SumYes(bs) == t.actual && SumPredicted(bs) == t.predicted
      && SumGaps(bs) <= t.squares
  {
    if k > 0 {
      var bs, front := ReportOf(xs).buckets[..k], ReportOf(xs).buckets[..k - 1];
      BucketSums(xs, k - 1);
      SummarySums(xs, k - 1);
      assert bs[..|bs| - 1] == front && bs[|bs| - 1] == Summary(xs, k - 1);
    }
  }

  lemma {:induction false} NoneNoYes(xs: seq<Observation>, b: nat)
    ensures InBucket(xs, b).count == 0 ==> InBucket(xs, b) == ZERO
  {
    if xs != [] { NoneNoYes(xs[..|xs| - 1], b); }
  }

  /**
   The ten buckets count every point, every prediction and every yes once, each mean prediction lies in its own
   bucket, and the calibration gap never exceeds the reported Brier score, which is at most 1.
  */
  lemma ReportIsCalibrated(xs: seq<Observation>)
    requires Probabilities(xs)
    ensures var r := ReportOf(xs);
      && r.n == |xs| == SumCounts(r.buckets)
      && SumYes(r.buckets) == YesCount(xs) as real && SumPredicted(r.buckets) == Sum(xs)
      && SumGaps(r.buckets) <= r.brier * r.n as real
      && 0.0 <= r.brier <= 1.0
      && (xs != [] ==> |r.buckets| == 10)
      && forall b :: 0 <= b < |r.buckets| ==> HoldsItsOwn(r.buckets[b], b)
  {
    if xs != [] {
      var r := ReportOf(xs);
      ReportSums(xs);
      ReportBrier(xs);
      forall b | 0 <= b < |r.buckets| ensures HoldsItsOwn(r.buckets[b], b) { SummaryHoldsItsOwn(xs, b); }
    }
  }

  /** The bucket is the b-th tenth of the unit interval, and its mean prediction lies in it. */
  predicate HoldsItsOwn(x: Bucket, b: nat) {
    && x.lo == b as real / 10.0 && x.hi == (b + 1) as real / 10.0
    && (x.count > 0 ==> x.lo <= x.predicted <= x.hi)
  }

  lemma SummaryHoldsItsOwn(xs: seq<Observation>, b: nat)
    requires Probabilities(xs)
    ensures HoldsItsOwn(Summary(xs, b), b)
  {
    if Summary(xs, b).count > 0 { SummaryInBounds(xs, b); }
  }

  /** One more point adds its squared error to the Brier sum. */
  lemma BrierAdds(xs: seq<Observation>, x: Observation)
    requires xs != []
    ensures var r, t := ReportOf(xs), ReportOf(xs + [x]);
      Weighted(t.n, t.brier) == Weighted(r.n, r.brier) + Sq(x.p - if x.outcome then 1.0 else 0.0)
  {
    assert (xs + [x])[..|xs|] == xs;
    BrierIsSum(xs);
    BrierIsSum(xs + [x]);
  }

  lemma BrierIsSum(xs: seq<Observation>)
    requires xs != []
    ensures Weighted(ReportOf(xs).n, ReportOf(xs).brier) == Overall(xs).squares
  {
    MeanTimesCount(Overall(xs).squares, |xs|);
  }

  lemma ReportBrier(xs: seq<Observation>)
    requires Probabilities(xs) && xs != []
    ensures var r := ReportOf(xs); 0.0 <= r.brier <= 1.0 && r.brier * r.n as real == Overall(xs).squares
  {
    SquaresAtMostCount(xs);
    BrierScales(Overall(xs).squares, |xs|);
  }

  lemma ReportSums(xs: seq<Observation>)
    requires xs != []
    ensures var bs := ReportOf(xs).buckets;
      && SumCounts(bs) == |xs| && SumYes(bs) == YesCount(xs) as real && SumPredicted(bs) == Sum(xs)
      && SumGaps(bs) <= Overall(xs).squares
  {
    assert ReportOf(xs).buckets[..BUCKETS] == ReportOf(xs).buckets;
    BucketSums(xs, BUCKETS);
    BucketsPartition(xs);
    ActualCountsYes(xs);
    PredictedIsSum(xs);
  }

  lemma SummaryInBounds(xs: seq<Observation>, b: nat)
    requires Probabilities(xs) && Summary(xs, b).count > 0
    ensures Lo(b) <= Summary(xs, b).predicted <= Hi(b)
  {
    PredictedInBounds(xs, b);
    MeanInBounds(InBucket(xs, b).predicted, InBucket(xs, b).count, Lo(b), Hi(b));
  }

  lemma BrierScales(s: real, n: nat)
    requires n > 0 && 0.0 <= s <= n as real
    ensures 0.0 <= s / n as real <= 1.0 && s / n as real * n as real == s
  {
  }

  lemma MeanInBounds(sum: real, n: nat, lo: real, hi: real)
    requires n > 0 && Copies(n, lo) <= sum <= Copies(n, hi)
    ensures lo <= Mean(sum, n) <= hi
  {
    CopiesIsProduct(n, lo);
    CopiesIsProduct(n, hi);
    DividedInBounds(sum, n as real, lo, hi);
  }

  lemma DividedInBounds(sum: real, c: real, lo: real, hi: real)
    requires c > 0.0 && c * lo <= sum <= c * hi
    ensures lo <= sum / c <= hi
  {
    var m := sum / c;
    assert c * m == sum;
    assert c * (m - lo) == sum - c * lo && c * (hi - m) == c * hi - sum;
    PositiveFactor(c, m - lo);
    PositiveFactor(c, hi - m);
  }
}
