/** The seeded generator: mulberry32's stream, Knuth's Poisson sampler over it, and the string hash that seeds it. */
module Rng {
  import opened BitXor
  import opened Text

  const TWO32 := 0x1_0000_0000
  const STEP := 0x6d2b_79f5

  type U32 = n: nat | n < TWO32

  // ------------------------------------------------------------ mulberry32

  /** One 32-bit wrapping addition. */
  function Advance(a: U32): U32 { if a + STEP < TWO32 then a + STEP else a + STEP - TWO32 }

  function StateAfter(seed: U32, n: nat): U32 {
    if n == 0 then seed else Advance(StateAfter(seed, n - 1))
  }

  function Mix(a: bv32): bv32 {
    var t := (a ^ (a >> 15)) * (1 | a);
    var u := (t + (t ^ (t >> 7)) * (61 | t)) ^ t;
    u ^ (u >> 14)
  }

  /** mulberry32's output word. */
  function Output(a: U32): U32 { Mix(a as bv32) as int }

  /** How a state becomes an output word; the sampling theory holds for any such function. */
  type Mixer = U32 -> U32

  /** Every draw is a multiple of 2^-32 below one. */
  function DrawAt(mix: Mixer, seed: U32, i: nat): real {
    mix(StateAfter(seed, i + 1)) as real / TWO32 as real
  }

  lemma MixedWords()
    ensures Mix(0x6d2b_79f5) == 1144304738 && Mix(0xda56_f3ea) == 1416247
  {
  }

  lemma OutputWords()
    ensures Output(0x6d2b_79f5) == 1144304738 && Output(0xda56_f3ea) == 1416247
  {
    MixedWords();
    assert 0x6d2b_79f5 as bv32 == 0x6d2b_79f5 && 0xda56_f3ea as bv32 == 0xda56_f3ea;
  }

  /** Reference values: the first two draws of seed 0 are 1144304738 and 1416247, over 2^32. */
  lemma FirstDraws()
    ensures DrawAt(Output, 0, 0) == 1144304738.0 / TWO32 as real && DrawAt(Output, 0, 1) == 1416247.0 / TWO32 as real
  {
    OutputWords();
    assert StateAfter(0, 1) == Advance(StateAfter(0, 0)) == 0x6d2b_79f5;
    assert StateAfter(0, 2) == Advance(StateAfter(0, 1)) == 0xda56_f3ea;
  }

  lemma {:induction false} StateIsLinear(seed: U32, n: nat)
    ensures StateAfter(seed, n) == (seed + n * STEP) % TWO32
  {
    if n > 0 {
      StateIsLinear(seed, n - 1);
      var x := seed + (n - 1) * STEP;
      assert seed + n * STEP == x + STEP;
      AdvanceIsCongruent(x);
    }
  }

  lemma AdvanceIsCongruent(x: int)
    ensures Advance(x % TWO32) == (x + STEP) % TWO32
  {
    var q, m := x / TWO32, x % TWO32;
    if m + STEP < TWO32 { AddMultiple(m + STEP, q); } else { AddMultiple(m + STEP - TWO32, q + 1); }
  }

  lemma {:induction false} StatesCompose(seed: U32, i: nat, j: nat)
    ensures StateAfter(StateAfter(seed, i), j) == StateAfter(seed, i + j)
  {
    if j > 0 { StatesCompose(seed, i, j - 1); }
  }

  /** The inverse of STEP modulo 2^32. */
  const STEP_INVERSE := 3696798301
  const STEP_QUOTIENT := 1576479847

  lemma StepIsInvertible()
    ensures STEP * STEP_INVERSE == STEP_QUOTIENT * TWO32 + 1
  {
  }

  lemma CongruentTimes(x: int, y: int, k: int)
    requires x % TWO32 == y % TWO32
    ensures (x * k) % TWO32 == (y * k) % TWO32
  {
    var q := x / TWO32 - y / TWO32;
    assert x - y == q * TWO32;
    assert x * k == y * k + (q * k) * TWO32 by {
      assert x * k - y * k == (x - y) * k;
      assert (q * TWO32) * k == (q * k) * TWO32;
    }
    AddMultiple(y * k, q * k);
  }

  lemma AddMultiple(x: int, q: int)
    ensures (x + q * TWO32) % TWO32 == x % TWO32
  {
  }

  lemma AddBoth(x: int, y: int, k: int)
    requires x % TWO32 == y % TWO32
    ensures (x + k) % TWO32 == (y + k) % TWO32
  {
    var q := x / TWO32 - y / TWO32;
    assert x + k == (y + k) + q * TWO32;
    AddMultiple(y + k, q);
  }

  lemma UndoStep(i: int)
    ensures (i * STEP * STEP_INVERSE) % TWO32 == i % TWO32
  {
    StepIsInvertible();
    assert i * STEP * STEP_INVERSE == i * (STEP * STEP_INVERSE) == i + (i * STEP_QUOTIENT) * TWO32;
    AddMultiple(i, i * STEP_QUOTIENT);
  }

  lemma StepsAgreeIff(i: int, j: int)
    ensures (i * STEP) % TWO32 == (j * STEP) % TWO32 <==> i % TWO32 == j % TWO32
  {
    if i % TWO32 == j % TWO32 { CongruentTimes(i, j, STEP); }
    if (i * STEP) % TWO32 == (j * STEP) % TWO32 {
      CongruentTimes(i * STEP, j * STEP, STEP_INVERSE);
      UndoStep(i);
      UndoStep(j);
    }
  }

  lemma ShiftedAgreeIff(x: int, y: int, k: int)
    ensures (k + x) % TWO32 == (k + y) % TWO32 <==> x % TWO32 == y % TWO32
  {
    if x % TWO32 == y % TWO32 { AddBoth(x, y, k); }
    if (k + x) % TWO32 == (k + y) % TWO32 { AddBoth(k + x, k + y, -k); }
  }

  /** Full period: two states of one stream coincide exactly when their indices agree modulo 2^32. */
  lemma FullPeriod(seed: U32, i: nat, j: nat)
    ensures StateAfter(seed, i) == StateAfter(seed, j) <==> i % TWO32 == j % TWO32
  {
    StateIsLinear(seed, i);
    StateIsLinear(seed, j);
    ShiftedAgreeIff(i * STEP, j * STEP, seed);
    StepsAgreeIff(i, j);
  }

  /** The generator object; `taken` counts its draws. */
  class Mulberry32 {
    const mix: Mixer
    ghost const seed: U32
    ghost var taken: nat
    var a: U32

    ghost predicate Valid()
      reads this
    {
      a == StateAfter(seed, taken)
    }

    constructor (mix: Mixer, seed: U32)
      ensures Valid() && this.mix == mix && this.seed == seed && taken == 0
    {
      this.mix, this.seed, taken, a := mix, seed, 0, seed;
    }

    method Next() returns (x: real)
      requires Valid()
      modifies this
      ensures Valid() && taken == old(taken) + 1
      ensures x == DrawAt(mix, seed, old(taken))
    {
      a := Advance(a);
      taken := taken + 1;
      x := mix(a) as real / TWO32 as real;
    }
  }

  lemma DrawIsMixed(mix: Mixer, seed: U32, i: nat)
    ensures DrawAt(mix, seed, i) == mix((seed + (i + 1) * STEP) % TWO32) as real / TWO32 as real
  {
    StateIsLinear(seed, i + 1);
  }

  lemma DrawBelowOne(mix: Mixer, seed: U32, i: nat)
    ensures 0.0 <= DrawAt(mix, seed, i) < 1.0
  {
    DrawInRange(mix, seed, i);
  }

  /** The generator the model uses: word n is the mix of seed + (n + 1) STEP, and every draw is below one. */
  lemma MulberryDraws(seed: U32, i: nat)
    ensures DrawAt(Output, seed, i) == Output((seed + (i + 1) * STEP) % TWO32) as real / TWO32 as real
    ensures 0.0 <= DrawAt(Output, seed, i) < 1.0
  {
    DrawIsMixed(Output, seed, i);
    DrawBelowOne(Output, seed, i);
  }

  // ------------------------------------------------------- Poisson sampling

  const GAP: real := 1.0 / TWO32 as real

  predicate IsDraw(x: real) { 0.0 <= x <= 1.0 - GAP }

  lemma DrawInRange(mix: Mixer, seed: U32, i: nat)
    ensures IsDraw(DrawAt(mix, seed, i))
  {
    var m := mix(StateAfter(seed, i + 1));
    assert m as real <= (TWO32 - 1) as real;
    assert m as real / TWO32 as real <= (TWO32 - 1) as real / TWO32 as real;
  }

  /** The next `k` draws of the stream from position `at`. */
  function Take(mix: Mixer, seed: U32, at: nat, k: nat): (r: seq<real>)
    ensures |r| == k
  {
    if k == 0 then [] else Take(mix, seed, at, k - 1) + [DrawAt(mix, seed, at + k - 1)]
  }

  predicate AllDraws(s: seq<real>) { forall i :: 0 <= i < |s| ==> IsDraw(s[i]) }

  lemma {:induction false} TakesDraws(mix: Mixer, seed: U32, at: nat, k: nat)
    ensures AllDraws(Take(mix, seed, at, k))
  {
    if k > 0 {
      TakesDraws(mix, seed, at, k - 1);
      DrawInRange(mix, seed, at + k - 1);
    }
  }

  lemma {:induction false} TakeAdds(mix: Mixer, seed: U32, at: nat, j: nat, k: nat)
    ensures Take(mix, seed, at, j) + Take(mix, seed, at + j, k) == Take(mix, seed, at, j + k)
  {
    if k > 0 {
      TakeAdds(mix, seed, at, j, k - 1);
    } else {
      assert Take(mix, seed, at, j) + [] == Take(mix, seed, at, j);
    }
  }

  function Times(p: real, x: real): real { p * x }

  function Product(s: seq<real>): real {
    if s == [] then 1.0 else Times(Product(s[..|s| - 1]), s[|s| - 1])
  }

  lemma ScaleDown(p: real, x: real)
    requires 0.0 <= p && 0.0 <= x <= 1.0
    ensures 0.0 <= Times(p, x) <= p
  {
  }

  lemma ProductAppend(s: seq<real>, x: real)
    ensures Product(s + [x]) == Times(Product(s), x)
  {
    assert (s + [x])[..|s|] == s;
  }

  lemma {:induction false} ProductShrinks(s: seq<real>, t: seq<real>)
    requires AllDraws(s) && AllDraws(t)
    ensures 0.0 <= Product(s + t) <= Product(s) <= 1.0
    decreases |s| + |t|
  {
    if t != [] {
      var front, x := t[..|t| - 1], t[|t| - 1];
      assert s + t == (s + front) + [x];
      ProductShrinks(s, front);
      ProductAppend(s + front, x);
      ScaleDown(Product(s + front), x);
    } else if s != [] {
      var front, x := s[..|s| - 1], s[|s| - 1];
      assert s + t == s && s == front + [x] && front + [] == front;
      ProductShrinks(front, []);
      ProductAppend(front, x);
      ScaleDown(Product(front), x);
    }
  }

  /** (1 - g)^k <= 1 / (1 + k g): how fast any product of draws must fall. */
  lemma {:induction false} ProductFalls(s: seq<real>)
    requires AllDraws(s)
    ensures Times(Product(s), 1.0 + |s| as real * GAP) <= 1.0
  {
    if s != [] {
      var front, x := s[..|s| - 1], s[|s| - 1];
      ProductFalls(front);
      ProductShrinks(front, []);
      assert front + [] == front;
      assert |s| as real == |front| as real + 1.0;
      FallStep(Product(front), x, |front| as real, GAP);
    }
  }

  lemma FallStep(p: real, x: real, k: real, g: real)
    requires 0.0 <= p && 0.0 <= x <= 1.0 - g && 0.0 < g && 0.0 <= k
    requires Times(p, 1.0 + k * g) <= 1.0
    ensures Times(Times(p, x), 1.0 + (k + 1.0) * g) <= 1.0
  {
    var w := 1.0 + (k + 1.0) * g;
    var kg, gw, xw := k * g, g * w, x * w;
    assert w == 1.0 + kg + g;
    assert gw >= g by { MulLe(1.0, w, g); }
    assert xw <= w - gw by {
      MulLe(x, 1.0 - g, w);
      assert (1.0 - g) * w == w - gw;
    }
    assert xw <= 1.0 + kg;
    assert p * xw <= p * (1.0 + kg) by { MulLe(xw, 1.0 + kg, p); }
    assert p * x * w == p * xw;
  }

  lemma MulLe(x: real, y: real, w: real)
    requires x <= y && 0.0 <= w
    ensures x * w <= y * w && w * x <= w * y
  {
  }

  /** No more draws than this can be needed for the limit `L`. */
  function DrawBound(L: real): nat
    requires 0.0 < L < 1.0
  {
    assert 1.0 / L > 1.0;
    ((1.0 / L - 1.0) * TWO32 as real).Floor + 1
  }

  lemma AboveLimitIsEarly(s: seq<real>, L: real)
    requires AllDraws(s) && 0.0 < L < 1.0 && Product(s) > L
    ensures |s| < DrawBound(L)
  {
    ProductFalls(s);
    EarlyBound(Product(s), |s|, L);
  }

  lemma EarlyBound(p: real, k: nat, L: real)
    requires 0.0 < L < 1.0 && p > L && Times(p, 1.0 + k as real * GAP) <= 1.0
    ensures k < DrawBound(L)
  {
    var w := 1.0 + k as real * GAP;
    assert L * w <= 1.0 by { MulLe(L, p, w); }
    assert w <= 1.0 / L by { assert w == (L * w) / L; }
    assert k as real * GAP <= 1.0 / L - 1.0;
    assert k as real == (k as real * GAP) * TWO32 as real;
    assert k as real <= (1.0 / L - 1.0) * TWO32 as real;
  }

  /** The product of the first `k` draws is above the limit. */
  predicate Above(mix: Mixer, seed: U32, at: nat, L: real, k: nat) { Product(Take(mix, seed, at, k)) > L }

  /** `n` is the Poisson value of the stream from `at`: the most draws whose product is above L. */
  ghost predicate IsPoisson(mix: Mixer, seed: U32, at: nat, L: real, n: nat) {
    && Above(mix, seed, at, L, n)
    && forall k: nat :: k > n ==> !Above(mix, seed, at, L, k)
  }

  lemma StaysBelow(mix: Mixer, seed: U32, at: nat, j: nat, k: nat, L: real)
    requires j <= k && !Above(mix, seed, at, L, j)
    ensures !Above(mix, seed, at, L, k)
  {
    var s, t := Take(mix, seed, at, j), Take(mix, seed, at + j, k - j);
    TakesDraws(mix, seed, at, j);
    TakesDraws(mix, seed, at + j, k - j);
    TakeAdds(mix, seed, at, j, k - j);
    ProductShrinks(s, t);
  }

  lemma StopsThere(mix: Mixer, seed: U32, at: nat, n: nat, L: real)
    requires Above(mix, seed, at, L, n) && !Above(mix, seed, at, L, n + 1)
    ensures IsPoisson(mix, seed, at, L, n)
  {
    forall k: nat | k > n ensures !Above(mix, seed, at, L, k) { StaysBelow(mix, seed, at, n + 1, k, L); }
  }

  lemma TakeIsEarly(mix: Mixer, seed: U32, at: nat, k: nat, L: real)
    requires 0.0 < L < 1.0 && Above(mix, seed, at, L, k)
    ensures k < DrawBound(L)
  {
    TakesDraws(mix, seed, at, k);
    AboveLimitIsEarly(Take(mix, seed, at, k), L);
  }

  /** The Poisson value, searched upwards; it exists for every seed, place and limit. */
  function PoissonFrom(mix: Mixer, seed: U32, at: nat, L: real, k: nat): (n: nat)
    requires 0.0 < L < 1.0 && Above(mix, seed, at, L, k)
    ensures n < DrawBound(L) && IsPoisson(mix, seed, at, L, n)
    decreases DrawBound(L) - k
  {
    TakeIsEarly(mix, seed, at, k, L);
    if Above(mix, seed, at, L, k + 1) then
      TakeIsEarly(mix, seed, at, k + 1, L);
      PoissonFrom(mix, seed, at, L, k + 1)
    else
      StopsThere(mix, seed, at, k, L);
      k
  }

  lemma PoissonIsUnique(mix: Mixer, seed: U32, at: nat, L: real, m: nat, n: nat)
    requires IsPoisson(mix, seed, at, L, m) && IsPoisson(mix, seed, at, L, n)
    ensures m == n
  {
  }

  /** Products of at least `bound` draws are not above L. */
  ghost predicate FallsBy(mix: Mixer, seed: U32, at: nat, L: real, bound: nat) {
    forall k: nat :: Above(mix, seed, at, L, k) ==> k < bound
  }

  lemma FallsByDrawBound(mix: Mixer, seed: U32, at: nat, L: real)
    requires 0.0 < L < 1.0
    ensures FallsBy(mix, seed, at, L, DrawBound(L))
  {
    forall k: nat | Above(mix, seed, at, L, k) ensures k < DrawBound(L) {
      TakeIsEarly(mix, seed, at, k, L);
    }
  }

  /** `p` is the product of the `k` draws taken since `at`. */
  ghost predicate Multiplied(rng: Mulberry32, at: nat, k: nat, p: real)
    reads rng
  {
    rng.Valid() && rng.taken == at + k && p == Product(Take(rng.mix, rng.seed, at, k))
  }

  /** Multiply in one more draw. */
  method MultiplyDraw(rng: Mulberry32, p: real, L: real, ghost at: nat, ghost k: nat) returns (q: real)
    requires Multiplied(rng, at, k, p)
    modifies rng
    ensures Multiplied(rng, at, k + 1, q)
    ensures q > L <==> Above(rng.mix, rng.seed, at, L, k + 1)
  {
    ProductAppend(Take(rng.mix, rng.seed, at, k), DrawAt(rng.mix, rng.seed, at + k));
    var x := rng.Next();
    q := Times(p, x);
  }

  /** Knuth's loop: multiply draws until the product is no longer above the limit. */
  method DrawUntilBelow(rng: Mulberry32, L: real, ghost bound: nat) returns (k: nat)
    requires rng.Valid() && L < 1.0 && FallsBy(rng.mix, rng.seed, rng.taken, L, bound)
    modifies rng
    ensures rng.Valid() && 0 < k <= bound && rng.taken == old(rng.taken) + k
    ensures Above(rng.mix, rng.seed, old(rng.taken), L, k - 1) && !Above(rng.mix, rng.seed, old(rng.taken), L, k)
  {
    k := 0;
    var p := 1.0;
    var more := true;
    ghost var at := rng.taken;
    while more
      invariant Multiplied(rng, at, k, p)
      invariant more <==> Above(rng.mix, rng.seed, at, L, k)
      invariant k > 0 ==> k - 1 < bound && Above(rng.mix, rng.seed, at, L, k - 1)
      invariant !more ==> k > 0
      decreases bound - k, more
    {
      p := MultiplyDraw(rng, p, L, at, k);
      k := k + 1;
      more := p > L;
    }
  }

  /** The sample; it uses one draw more than its value, and never more than `DrawBound(L)`. */
  method Poisson(rng: Mulberry32, L: real) returns (n: nat)
    requires 0.0 < L < 1.0 && rng.Valid()
    modifies rng
    ensures rng.Valid() && rng.taken == old(rng.taken) + n + 1
    ensures IsPoisson(rng.mix, rng.seed, old(rng.taken), L, n) && n < DrawBound(L)
  {
    FallsByDrawBound(rng.mix, rng.seed, rng.taken, L);
    ghost var at := rng.taken;
    var k := DrawUntilBelow(rng, L, DrawBound(L));
    n := k - 1;
    StopsThere(rng.mix, rng.seed, at, n, L);
  }

  // ------------------------------------------------------------ seed hash

  function Xor32(x: U32, y: U32): U32 {
    XorCancels(x, y, 0);
    Xor(x, y)
  }

  /** `Math.imul`, read as an unsigned word. */
  function Imul(a: U32, k: U32): U32 { a * k % TWO32 }

  const LANE1: U32 := 2654435761
  const LANE2: U32 := 1597334677
  const STIR: U32 := 2246822507
  const SALT: U32 := 3266489909

  /** The exclusive or that the hash is built on; what follows takes any such operation on words. */
  type WordOp = (U32, U32) -> U32

  function Lane(x: WordOp, h: U32, ch: CodeUnit, k: U32): U32 { Imul(x(h, ch), k) }

  function Fold(x: WordOp, text: seq<CodeUnit>, h: U32, k: U32): U32 {
    if text == [] then h else Lane(x, Fold(x, text[..|text| - 1], h, k), text[|text| - 1], k)
  }

  /** The states of the two lanes after a text. */
  function First(x: WordOp, text: seq<CodeUnit>): U32 { Fold(x, text, 0xdead_beef, LANE1) }
  function Second(x: WordOp, text: seq<CodeUnit>): U32 { Fold(x, text, 0x41c6_ce57, LANE2) }

  function Stir(x: WordOp, h: U32): U32 { Imul(x(h, h / 0x1_0000), STIR) }
  function Salt(x: WordOp, h: U32): U32 { Imul(x(h, h / 0x2000), SALT) }

  /** The two words of the final mix; the second one is salted with the first. */
  function Final(x: WordOp, h1: U32, h2: U32): (U32, U32) {
    var a := x(Stir(x, h1), Salt(x, h2));
    var b := x(Stir(x, h2), Salt(x, a));
    (a, b)
  }

  const LOW21 := 0x20_0000

  /** 53 bits: the low 21 of `b` above all 32 of `a`. */
  function Join53(a: U32, b: U32): int { TWO32 * (b % LOW21) + a }

  function Words(x: WordOp, text: seq<CodeUnit>): (U32, U32) { Final(x, First(x, text), Second(x, text)) }

  function HashBy(x: WordOp, text: seq<CodeUnit>): int { Join53(Words(x, text).0, Words(x, text).1) }

  function Cyrb53(text: seq<CodeUnit>): int { HashBy(Xor32, text) }

  method HashText(text: seq<CodeUnit>) returns (r: int)
    ensures r == Cyrb53(text)
  {
    var h1: U32, h2: U32 := 0xdead_beef, 0x41c6_ce57;
    for i := 0 to |text|
      invariant h1 == First(Xor32, text[..i])
      invariant h2 == Second(Xor32, text[..i])
    {
      assert text[..i + 1][..i] == text[..i];
      h1 := Lane(Xor32, h1, text[i], LANE1);
      h2 := Lane(Xor32, h2, text[i], LANE2);
    }
    assert text[..|text|] == text;
    var (a, b) := Final(Xor32, h1, h2);
    r := Join53(a, b);
  }

  /** The hash has 53 bits, so it is exact in the source's number type. */
  lemma HashFits53Bits(text: seq<CodeUnit>)
    ensures 0 <= Cyrb53(text) < 0x20_0000_0000_0000
  {
    JoinFits(Words(Xor32, text).0, Words(Xor32, text).1);
  }

  lemma JoinFits(a: U32, b: U32)
    ensures 0 <= Join53(a, b) < 0x20_0000_0000_0000
  {
  }

  /** The 53-bit hash seeds mulberry32 with its low word, `seed >>> 0`. */
  function SeedOf(text: seq<CodeUnit>): U32 { Cyrb53(text) % TWO32 }
}
