/** Exclusive or of natural numbers, put together from halves: bits, pairs of bits, and so on up to 32 bits. */
module BitXor {
  type Op = (nat, nat) -> nat

  /** The operation on numbers of two digits in base `k`, digit by digit. */
  function Halves(f: Op, k: nat, a: nat, b: nat): nat
    requires k > 0
  {
    k * f(a / k, b / k) + f(a % k, b % k)
  }

  function Xor1(a: nat, b: nat): nat { (a + b) % 2 }
  function Xor2(a: nat, b: nat): nat { Halves(Xor1, 2, a, b) }
  function Xor4(a: nat, b: nat): nat { Halves(Xor2, 4, a, b) }
  function Xor8(a: nat, b: nat): nat { Halves(Xor4, 16, a, b) }
  function Xor16(a: nat, b: nat): nat { Halves(Xor8, 0x100, a, b) }
  function Xor(a: nat, b: nat): nat { Halves(Xor16, 0x1_0000, a, b) }

  /** Below `k` the operation stays below `k`, is its own undoing, does not mind the order, and zero changes nothing. */
  ghost predicate Reversible(f: Op, k: nat) {
    && (forall a: nat, b: nat :: a < k && b < k ==> f(a, b) < k && f(f(a, b), b) == a && f(a, b) == f(b, a))
    && (forall a: nat :: a < k ==> f(a, 0) == a)
  }

  lemma Digits(k: nat, p: nat, q: nat)
    requires q < k
    ensures (k * p + q) / k == p && (k * p + q) % k == q
  {
    var n := k * p + q;
    var d := n / k;
    assert n == k * d + n % k;
    assert k * (p - d) == k * p - k * d == n % k - q;
    if p - d >= 1 { MulGrows(k, 1, p - d); }
    if p - d <= -1 { MulGrows(k, p - d, -1); }
  }

  lemma MulGrows(k: nat, x: int, y: int)
    requires x <= y
    ensures k * x <= k * y
  {
  }

  lemma DigitsFit(k: nat, a: nat)
    requires 0 < k && a < k * k
    ensures a / k < k && a % k < k && a == k * (a / k) + a % k
  {
    if a / k >= k { MulGrows(k, k, a / k); }
  }

  lemma TwoDigitsFit(k: nat, p: nat, q: nat)
    requires p < k && q < k
    ensures k * p + q < k * k
  {
    MulGrows(k, p + 1, k);
    assert k * (p + 1) == k * p + k;
  }

  lemma HalvesReverse(f: Op, k: nat, a: nat, b: nat)
    requires 0 < k && Reversible(f, k) && a < k * k && b < k * k
    ensures var c := Halves(f, k, a, b); c < k * k && Halves(f, k, c, b) == a && c == Halves(f, k, b, a)
  {
    var p, q := f(a / k, b / k), f(a % k, b % k);
    DigitsFit(k, a);
    DigitsFit(k, b);
    TwoDigitsFit(k, p, q);
    Digits(k, p, q);
  }

  lemma HalvesKeepZero(f: Op, k: nat, a: nat)
    requires 0 < k && Reversible(f, k) && a < k * k
    ensures Halves(f, k, a, 0) == a
  {
    DigitsFit(k, a);
    Digits(k, 0, 0);
  }

  lemma HalvesAreReversible(f: Op, k: nat, g: Op)
    requires 0 < k && Reversible(f, k) && forall a: nat, b: nat :: g(a, b) == Halves(f, k, a, b)
    ensures Reversible(g, k * k)
  {
    forall a: nat, b: nat | a < k * k && b < k * k ensures g(a, b) < k * k && g(g(a, b), b) == a && g(a, b) == g(b, a) {
      HalvesReverse(f, k, a, b);
    }
    forall a: nat | a < k * k ensures g(a, 0) == a { HalvesKeepZero(f, k, a); }
  }

  lemma XorIsReversible()
    ensures Reversible(Xor8, 0x100) && Reversible(Xor16, 0x1_0000) && Reversible(Xor, 0x1_0000_0000)
  {
    assert Reversible(Xor1, 2);
    HalvesAreReversible(Xor1, 2, Xor2);
    HalvesAreReversible(Xor2, 4, Xor4);
    HalvesAreReversible(Xor4, 16, Xor8);
    HalvesAreReversible(Xor8, 0x100, Xor16);
    HalvesAreReversible(Xor16, 0x1_0000, Xor);
  }

  /** Exclusive or with one and the same number tells numbers apart. */
  lemma XorCancels(a: nat, b: nat, c: nat)
    requires a < 0x1_0000_0000 && b < 0x1_0000_0000 && c < 0x1_0000_0000
    ensures Xor(a, b) < 0x1_0000_0000 && Xor(a, b) == Xor(b, a)
    ensures Xor(a, c) == Xor(b, c) ==> a == b
    ensures Xor(c, a) == Xor(c, b) ==> a == b
  {
    XorIsReversible();
    XorTells(Xor, 0x1_0000_0000, a, b, c);
  }

  lemma XorTells(f: Op, k: nat, a: nat, b: nat, c: nat)
    requires Reversible(f, k) && a < k && b < k && c < k
    ensures f(a, b) < k && f(a, b) == f(b, a)
    ensures f(a, c) == f(b, c) ==> a == b
    ensures f(c, a) == f(c, b) ==> a == b
  {
    assert f(f(a, c), c) == a && f(f(b, c), c) == b;
    assert f(c, a) == f(a, c) && f(c, b) == f(b, c);
  }

  /** A word with its upper half folded into the lower one tells words apart. */
  lemma FoldedHalfCancels(x: nat, y: nat)
    requires x < 0x1_0000_0000 && y < 0x1_0000_0000
    requires Xor(x, x / 0x1_0000) == Xor(y, y / 0x1_0000)
    ensures x == y
  {
    XorIsReversible();
    FoldedHalf(Xor16, x);
    FoldedHalf(Xor16, y);
    XorTells(Xor16, 0x1_0000, x % 0x1_0000, y % 0x1_0000, x / 0x1_0000);
  }

  lemma FoldedHalf(f: Op, x: nat)
    requires Reversible(f, 0x1_0000) && x < 0x1_0000_0000
    ensures var folded := Halves(f, 0x1_0000, x, x / 0x1_0000);
      folded / 0x1_0000 == x / 0x1_0000 && folded % 0x1_0000 == f(x % 0x1_0000, x / 0x1_0000)
  {
    Digits(0x1_0000, x / 0x1_0000, f(x % 0x1_0000, x / 0x1_0000));
  }
}
