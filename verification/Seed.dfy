/** The text that seeds a price's random stream, and how it decodes back into what it commits to. */
module Seed {
  import opened Text

  const BAR: CodeUnit := 124

  type Units = seq<CodeUnit>

  /** What a live quote's stream is derived from; the threshold is the text of a number, whole or fractional. */
  datatype Key = Key(kind: Units, matchId: Units, seqNo: int, threshold: Units, hash: Units)

  /** Predicate kinds, numbers and hex digests contain no separator; match ids may contain both. */
  predicate WellFormed(k: Key) { COLON !in k.kind && BAR !in k.kind && BAR !in k.threshold && BAR !in k.hash }

  /** `deriveSeed`. */
  function DeriveSeed(kind: Units, matchId: Units, seqNo: int): Units {
    kind + [COLON] + (matchId + [COLON] + IntText(seqNo))
  }

  /** `hashSeed`'s joined parts, in the order the simulator passes them. */
  function Joined(seed: Units, kind: Units, threshold: Units, hash: Units): Units {
    seed + [BAR] + kind + [BAR] + threshold + [BAR] + hash
  }

  function StreamText(k: Key): Units {
    Joined(DeriveSeed(k.kind, k.matchId, k.seqNo), k.kind, k.threshold, k.hash)
  }

  lemma Separators()
    ensures [BAR] == Lit("|") && [COLON] == Lit(":")
  {
  }

  /** The four parts in their order, and the seed's own three, between separators. */
  lemma TextIsSpelledOut(seed: Units, kind: Units, matchId: Units, seqNo: int, threshold: Units, hash: Units)
    ensures Joined(seed, kind, threshold, hash) == seed + Lit("|") + kind + Lit("|") + threshold + Lit("|") + hash
    ensures DeriveSeed(kind, matchId, seqNo) == kind + Lit(":") + (matchId + Lit(":") + IntText(seqNo))
  {
    Separators();
  }

  /** Everything before the last `u`, and everything after it; the last separator must be there. */
  function SplitLast(s: Units, u: CodeUnit): (Units, Units) {
    var i := LastIndexOf(s, u);
    (if i > 0 then s[..i - 1] else [], s[i..])
  }

  function Decode(s: Units): Key {
    var (rest, hash) := SplitLast(s, BAR);
    var (rest1, threshold) := SplitLast(rest, BAR);
    var (seed, _) := SplitLast(rest1, BAR);
    var (front, seqText) := SplitLast(seed, COLON);
    var c := IndexOf(front, COLON);
    Key(front[..c], if c < |front| then front[c + 1..] else [], TextInt(seqText), threshold, hash)
  }

  lemma SplitsLast(a: Units, u: CodeUnit, b: Units)
    requires u !in b
    ensures SplitLast(a + [u] + b, u) == (a, b)
  {
    LastIndexOfSuffix(a, u, b);
    var s := a + [u] + b;
    assert s[..|a|] == a && s[|a| + 1..] == b;
  }

  lemma IntTextHasNo(u: CodeUnit, n: int)
    requires u == COLON || u == BAR
    ensures u !in IntText(n)
  {
  }

  /** Read from the right, the parts come apart whatever the caller's seed text contains. */
  lemma JoinedSplits(seed: Units, kind: Units, threshold: Units, hash: Units)
    requires BAR !in kind && BAR !in threshold && BAR !in hash
    ensures var (rest, h) := SplitLast(Joined(seed, kind, threshold, hash), BAR);
      var (rest1, t) := SplitLast(rest, BAR);
      h == hash && t == threshold && SplitLast(rest1, BAR) == (seed, kind)
  {
    SplitsLast(seed + [BAR] + kind + [BAR] + threshold, BAR, hash);
    SplitsLast(seed + [BAR] + kind, BAR, threshold);
    SplitsLast(seed, BAR, kind);
  }

  lemma SeedSplits(kind: Units, matchId: Units, seqNo: int)
    requires COLON !in kind
    ensures var (front, seqText) := SplitLast(DeriveSeed(kind, matchId, seqNo), COLON);
      && front == kind + [COLON] + matchId && seqText == IntText(seqNo)
      && IndexOf(front, COLON) == |kind|
  {
    IntTextHasNo(COLON, seqNo);
    var front := kind + [COLON] + matchId;
    assert DeriveSeed(kind, matchId, seqNo) == front + [COLON] + IntText(seqNo);
    SplitsLast(front, COLON, IntText(seqNo));
    IndexOfPrefix(kind, COLON, matchId);
  }

  lemma FrontComesApart(kind: Units, matchId: Units)
    ensures var front := kind + [COLON] + matchId;
      |front| > |kind| && front[..|kind|] == kind && front[|kind| + 1..] == matchId
  {
  }

  /** The seed text gives back kind, match, sequence, line and snapshot hash. */
  lemma DecodeInverts(k: Key)
    requires WellFormed(k)
    ensures Decode(StreamText(k)) == k
  {
    JoinedSplits(DeriveSeed(k.kind, k.matchId, k.seqNo), k.kind, k.threshold, k.hash);
    SeedSplits(k.kind, k.matchId, k.seqNo);
    IntTextRoundTrip(k.seqNo);
    FrontComesApart(k.kind, k.matchId);
  }

  /** Two different keys never share a seed text. */
  lemma SeedTextIsInjective(a: Key, b: Key)
    requires WellFormed(a) && WellFormed(b) && StreamText(a) == StreamText(b)
    ensures a == b
  {
    DecodeInverts(a);
    DecodeInverts(b);
  }
}
