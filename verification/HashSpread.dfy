/** The seed hash keeps texts apart: no unit of a text can be changed alone without changing both lanes. */
module HashSpread {
  import opened BitXor
  import opened Text
  import opened Rng

  // --------------------------------------------------------------- one step

  /** An odd multiplier has an inverse modulo 2^32. */
  predicate Inverse(k: U32, inverse: U32) { k * inverse % TWO32 == 1 }

  lemma MultipliersAreOdd()
    ensures Inverse(LANE1, 244002641) && Inverse(LANE2, 851723965) && Inverse(STIR, 2781581891)
  {
  }

  lemma ModTwice(y: int)
    ensures y % TWO32 % TWO32 == y % TWO32
  {
  }

  lemma Regroup(x: int, y: int, z: int)
    ensures x * y * z == y * z * x
  {
  }

  lemma InverseTimes(x: U32, k: U32, inverse: U32)
    requires Inverse(k, inverse)
    ensures x * k * inverse % TWO32 == x
  {
    CongruentTimes(k * inverse, 1, x);
    Regroup(x, k, inverse);
  }

  lemma ImulUndone(x: U32, k: U32, inverse: U32)
    requires Inverse(k, inverse)
    ensures Imul(x, k) * inverse % TWO32 == x
  {
    ModTwice(x * k);
    CongruentTimes(Imul(x, k), x * k, inverse);
    InverseTimes(x, k, inverse);
  }

  lemma ImulCancels(x: U32, y: U32, k: U32, inverse: U32)
    requires Inverse(k, inverse) && Imul(x, k) == Imul(y, k)
    ensures x == y
  {
    ImulUndone(x, k, inverse);
    ImulUndone(y, k, inverse);
  }

  /** The operation tells its operands apart, and a word with its upper half folded in from other such words. */
  ghost predicate Tells(x: WordOp) {
    && (forall a: U32, b: U32, c: U32 :: x(a, c) == x(b, c) ==> a == b)
    && (forall a: U32, b: U32, c: U32 :: x(c, a) == x(c, b) ==> a == b)
    && (forall a: U32, b: U32 :: x(a, a / 0x1_0000) == x(b, b / 0x1_0000) ==> a == b)
  }

  lemma XorTellsWords()
    ensures Tells(Xor32)
  {
    forall a: U32, b: U32, c: U32 | Xor32(a, c) == Xor32(b, c) ensures a == b { XorCancels(a, b, c); }
    forall a: U32, b: U32, c: U32 | Xor32(c, a) == Xor32(c, b) ensures a == b { XorCancels(a, b, c); }
    forall a: U32, b: U32 | Xor32(a, a / 0x1_0000) == Xor32(b, b / 0x1_0000) ensures a == b { FoldedHalfCancels(a, b); }
  }

  /** A lane step is injective in its state and in its unit. */
  lemma LaneTells(x: WordOp, h: U32, g: U32, u: CodeUnit, v: CodeUnit, k: U32, inverse: U32)
    requires Tells(x) && Inverse(k, inverse) && Lane(x, h, u, k) == Lane(x, g, v, k)
    ensures u == v <==> h == g
  {
    ImulCancels(x(h, u), x(g, v), k, inverse);
  }

  // ------------------------------------------------------------ whole texts

  /** The texts are equally long and differ in the one unit at `i`. */
  predicate DifferAt(a: seq<CodeUnit>, b: seq<CodeUnit>, i: nat) {
    |a| == |b| && i < |a| && a[i] != b[i] && a[..i] == b[..i] && a[i + 1..] == b[i + 1..]
  }

  lemma DifferInFront(a: seq<CodeUnit>, b: seq<CodeUnit>, i: nat)
    requires DifferAt(a, b, i)
    ensures var n := |a| - 1; if i == n then a[..n] == b[..n] else DifferAt(a[..n], b[..n], i) && a[n] == b[n]
  {
    var n := |a| - 1;
    var s, t := a[..n], b[..n];
    if i < n {
      assert s[..i] == a[..i] && t[..i] == b[..i];
      assert s[i + 1..] == a[i + 1..][..n - i - 1] && t[i + 1..] == b[i + 1..][..n - i - 1];
      assert a[n] == a[i + 1..][n - i - 1] && b[n] == b[i + 1..][n - i - 1];
    }
  }

  lemma {:induction false} FoldSpreads(x: WordOp, a: seq<CodeUnit>, b: seq<CodeUnit>, i: nat, h: U32, k: U32,
                                       inverse: U32)
    requires Tells(x) && DifferAt(a, b, i) && Inverse(k, inverse)
    ensures Fold(x, a, h, k) != Fold(x, b, h, k)
  {
    var n := |a| - 1;
    var s, t := Fold(x, a[..n], h, k), Fold(x, b[..n], h, k);
    DifferInFront(a, b, i);
    if i < n { FoldSpreads(x, a[..n], b[..n], i, h, k, inverse); }
    if Lane(x, s, a[n], k) == Lane(x, t, b[n], k) { LaneTells(x, s, t, a[n], b[n], k, inverse); }
  }

  /** Changing one unit of a text, at any place, changes the state of each lane. */
  lemma LanesSpread(a: seq<CodeUnit>, b: seq<CodeUnit>, i: nat)
    requires DifferAt(a, b, i)
    ensures First(Xor32, a) != First(Xor32, b) && Second(Xor32, a) != Second(Xor32, b)
  {
    XorTellsWords();
    MultipliersAreOdd();
    FoldSpreads(Xor32, a, b, i, 0xdead_beef, LANE1, 244002641);
    FoldSpreads(Xor32, a, b, i, 0x41c6_ce57, LANE2, 851723965);
  }

  // ---------------------------------------------------------- the final mix

  lemma StirTells(x: WordOp, h: U32, g: U32)
    requires Tells(x) && Stir(x, h) == Stir(x, g)
    ensures h == g
  {
    MultipliersAreOdd();
    ImulCancels(x(h, h / 0x1_0000), x(g, g / 0x1_0000), STIR, 2781581891);
  }

  /** The final mix loses nothing of the two lanes. */
  lemma FinalTells(x: WordOp, h1: U32, h2: U32, g1: U32, g2: U32)
    requires Tells(x) && Final(x, h1, h2) == Final(x, g1, g2)
    ensures h1 == g1 && h2 == g2
  {
    StirTells(x, h2, g2);
    StirTells(x, h1, g1);
  }

  lemma JoinTellsLow(a: U32, b: U32, c: U32, d: U32)
    requires Join53(a, b) == Join53(c, d)
    ensures a == c
  {
  }

  lemma WordsSpread(a: seq<CodeUnit>, b: seq<CodeUnit>, i: nat)
    requires DifferAt(a, b, i)
    ensures Words(Xor32, a) != Words(Xor32, b)
  {
    LanesSpread(a, b, i);
    XorTellsWords();
    if Words(Xor32, a) == Words(Xor32, b) {
      FinalTells(Xor32, First(Xor32, a), Second(Xor32, a), First(Xor32, b), Second(Xor32, b));
    }
  }

  /**
   Two texts that differ in one unit have different pairs of final words.  If their hashes agree all the same, it is
   by the eleven bits of the second word that the hash cuts off.
  */
  lemma HashSpreads(a: seq<CodeUnit>, b: seq<CodeUnit>, i: nat)
    requires DifferAt(a, b, i)
    ensures var v, w := Words(Xor32, a), Words(Xor32, b);
      v != w && (Cyrb53(a) == Cyrb53(b) ==> v.0 == w.0 && v.1 != w.1)
  {
    WordsSpread(a, b, i);
    var v, w := Words(Xor32, a), Words(Xor32, b);
    if Cyrb53(a) == Cyrb53(b) { JoinTellsLow(v.0, v.1, w.0, w.1); }
  }
}
