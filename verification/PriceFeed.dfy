/** Hunting a price market's observation in the feed. */
module PriceFeed {
  import opened Basics

  const MAX_STALENESS := 120
  const OFFSETS: seq<int> := [2, 5, 15, 30, 60, 90, MAX_STALENESS]

  function Min(a: int, b: int): int { if a < b then a else b }

  // --------------------------------------------------------------- the feed

  /** Publish times of the feed, oldest first. */
  predicate Increasing(feed: seq<int>) { forall i, j :: 0 <= i < j < |feed| ==> feed[i] < feed[j] }

  /** The latest publish time at or before `ts`; the service answers an error when there is none. */
  function FetchAt(feed: seq<int>, ts: int): Option<int> {
    if feed == [] then None
    else if feed[|feed| - 1] <= ts then Some(feed[|feed| - 1])
    else FetchAt(feed[..|feed| - 1], ts)
  }

  lemma LastIsGreatest(feed: seq<int>)
    requires Increasing(feed) && feed != []
    ensures forall t :: t in feed ==> t <= feed[|feed| - 1]
    ensures forall t :: t in feed <==> t in feed[..|feed| - 1] || t == feed[|feed| - 1]
  {
    assert feed == feed[..|feed| - 1] + [feed[|feed| - 1]];
  }

  predicate IsLatest(feed: seq<int>, ts: int, x: int) {
    x in feed && x <= ts && forall t :: t in feed && t <= ts ==> t <= x
  }

  lemma {:induction false} FetchIsLatest(feed: seq<int>, ts: int)
    requires Increasing(feed)
    ensures FetchAt(feed, ts).Some? ==> IsLatest(feed, ts, FetchAt(feed, ts).value)
    ensures FetchAt(feed, ts).None? ==> forall t :: t in feed ==> t > ts
  {
    if feed != [] {
      LastIsGreatest(feed);
      if feed[|feed| - 1] > ts { FetchIsLatest(feed[..|feed| - 1], ts); }
    }
  }

  // -------------------------------------------------------------- the probe

  datatype Probe = Found(publishTime: int) | Missing | Failed

  predicate InWindow(t: int, ref: int) { ref <= t <= ref + MAX_STALENESS }

  /** Probe number `i` onwards; `online(i)` says whether that request gets through. */
  function ProbeFrom(feed: seq<int>, ref: int, now: int, online: nat -> bool, i: nat): Probe
    requires i <= |OFFSETS|
    decreases |OFFSETS| - i
  {
    if i == |OFFSETS| then Missing
    else
      var probeTs := Min(ref + OFFSETS[i], now);
      var pt := FetchAt(feed, probeTs);
      if !online(i) || pt.None? then Failed
      else if InWindow(pt.value, ref) then Found(pt.value)
      else if probeTs >= ref + MAX_STALENESS then Missing
      else ProbeFrom(feed, ref, now, online, i + 1)
  }

  method ProbeFeed(feed: seq<int>, ref: int, now: int, online: nat -> bool) returns (r: Probe)
    ensures r == ProbeFrom(feed, ref, now, online, 0)
  {
    var i := 0;
    while i < |OFFSETS|
      invariant i <= |OFFSETS|
      invariant ProbeFrom(feed, ref, now, online, i) == ProbeFrom(feed, ref, now, online, 0)
    {
      var probeTs := Min(ref + OFFSETS[i], now);
      var update := FetchAt(feed, probeTs);
      if !online(i) || update.None? { return Failed; }
      if InWindow(update.value, ref) { return Found(update.value); }
      if probeTs >= ref + MAX_STALENESS { return Missing; }
      i := i + 1;
    }
    r := Missing;
  }

  predicate Observable(feed: seq<int>, ref: int, now: int) {
    exists t :: t in feed && ref <= t <= Min(now, ref + MAX_STALENESS)
  }

  lemma {:induction false} ProbeOutcomes(feed: seq<int>, ref: int, now: int, online: nat -> bool, i: nat)
    requires Increasing(feed) && now >= ref && i < |OFFSETS|
    requires i > 0 ==> exists t :: t in feed && t <= Min(ref + OFFSETS[i], now)
    ensures match ProbeFrom(feed, ref, now, online, i)
      case Found(pt) => pt in feed && ref <= pt <= Min(now, ref + MAX_STALENESS)
      case Missing => !Observable(feed, ref, now)
      case Failed =>
        || (exists k: nat :: k < |OFFSETS| && !online(k))
        || forall t :: t in feed ==> t > Min(ref + OFFSETS[0], now)
    decreases |OFFSETS| - i
  {
    var probeTs := Min(ref + OFFSETS[i], now);
    FetchIsLatest(feed, probeTs);
    var pt := FetchAt(feed, probeTs);
    if online(i) && pt.Some? && !InWindow(pt.value, ref) && i + 1 < |OFFSETS| && probeTs < ref + MAX_STALENESS {
      assert pt.value <= Min(ref + OFFSETS[i + 1], now);
      ProbeOutcomes(feed, ref, now, online, i + 1);
    }
  }

  /** The feed had begun to publish by the first probe; before that the service only answers errors. */
  predicate Begun(feed: seq<int>, ref: int, now: int) {
    exists t :: t in feed && t <= Min(ref + OFFSETS[0], now)
  }

  /**
   With every request answered, the probe finds an observation exactly when the feed has one in the part of
   the window that has passed and had begun by the first probe; it fails exactly when the feed had not begun.
  */
  lemma ProbeIsComplete(feed: seq<int>, ref: int, now: int, online: nat -> bool)
    requires Increasing(feed) && now >= ref && (forall k: nat :: online(k))
    ensures var r := ProbeFrom(feed, ref, now, online, 0);
      && (r.Found? <==> Observable(feed, ref, now) && Begun(feed, ref, now))
      && (r.Missing? <==> !Observable(feed, ref, now) && Begun(feed, ref, now))
  {
    ProbeOutcomes(feed, ref, now, online, 0);
    FetchIsLatest(feed, Min(ref + OFFSETS[0], now));
  }

  /** A feed whose first price comes three seconds into the window: there is an observation, and the probe fails. */
  lemma LateFeedFails()
    ensures Observable([103], 100, 1000) && ProbeFrom([103], 100, 1000, _ => true, 0) == Failed
  {
    assert 103 in [103];
    assert FetchAt([103], 102) == FetchAt([], 102) == None;
  }

  // ------------------------------------------ the found observation's place

  /** First probe instant at or after `t`. */
  function FirstProbeFrom(ref: int, now: int, t: int, i: nat): int
    requires i < |OFFSETS|
    decreases |OFFSETS| - i
  {
    if i + 1 == |OFFSETS| || t <= Min(ref + OFFSETS[i], now) then Min(ref + OFFSETS[i], now)
    else FirstProbeFrom(ref, now, t, i + 1)
  }

  predicate IsEarliest(feed: seq<int>, ref: int, e: int) {
    e in feed && e >= ref && forall t :: t in feed && t >= ref ==> e <= t
  }

  lemma {:induction false} FoundAtFirstProbe(feed: seq<int>, ref: int, now: int, online: nat -> bool, e: int, i: nat)
    requires Increasing(feed) && now >= ref && (forall k: nat :: online(k)) && i < |OFFSETS|
    requires IsEarliest(feed, ref, e) && e <= Min(now, ref + MAX_STALENESS)
    requires exists t :: t in feed && t <= Min(ref + OFFSETS[i], now)
    ensures var last := FetchAt(feed, FirstProbeFrom(ref, now, e, i));
      last.Some? && ProbeFrom(feed, ref, now, online, i) == Found(last.value)
    decreases |OFFSETS| - i
  {
    var probeTs := Min(ref + OFFSETS[i], now);
    FetchIsLatest(feed, probeTs);
    if e > probeTs {
      FoundAtFirstProbe(feed, ref, now, online, e, i + 1);
    }
  }

  /**
   The probe returns the earliest observation of the window exactly when the feed had begun by the first probe
   and nothing else was published between that observation and the first probe instant after it.
  */
  lemma EarliestIff(feed: seq<int>, ref: int, now: int, online: nat -> bool, e: int)
    requires Increasing(feed) && now >= ref && (forall k: nat :: online(k))
    requires IsEarliest(feed, ref, e) && e <= Min(now, ref + MAX_STALENESS)
    ensures ProbeFrom(feed, ref, now, online, 0) == Found(e) <==>
      Begun(feed, ref, now) && forall t :: t in feed && e < t ==> t > FirstProbeFrom(ref, now, e, 0)
  {
    ProbeIsComplete(feed, ref, now, online);
    if Begun(feed, ref, now) {
      var p := FirstProbeFrom(ref, now, e, 0);
      FoundAtFirstProbe(feed, ref, now, online, e, 0);
      FetchIsLatest(feed, p);
      FirstProbeIsAfter(ref, now, e, 0);
    }
  }

  lemma {:induction false} FirstProbeIsAfter(ref: int, now: int, t: int, i: nat)
    requires i < |OFFSETS| && t <= Min(now, ref + MAX_STALENESS)
    ensures t <= FirstProbeFrom(ref, now, t, i)
    decreases |OFFSETS| - i
  {
    if i + 1 < |OFFSETS| { FirstProbeIsAfter(ref, now, t, i + 1); }
  }

  /** Two prices one second apart: the later one settles the market, not the earliest. */
  lemma NotAlwaysEarliest()
    ensures ProbeFrom([100, 101], 100, 1000, _ => true, 0) == Found(101)
  {
  }
}
