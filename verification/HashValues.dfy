/** A reference value of the seed hash: the text "ab", whose code units are 97 and 98. */
module HashValues {
  import opened BitXor
  import opened Text
  import opened Rng

  predicate Maps(x: WordOp, a: U32, b: U32, c: U32) { x(a, b) == c }

  /** What the operation makes of the words that the hash of "ab" comes across. */
  predicate Works(x: WordOp) {
    && Maps(x, 3735928559, 97, 3735928462) && Maps(x, 1103547991, 97, 1103547958)
    && Maps(x, 2847137326, 98, 2847137356) && Maps(x, 2893094254, 98, 2893094156)
    && Maps(x, 63086220, 962, 63085902) && Maps(x, 78288892, 9556, 78295720)
    && Maps(x, 252791706, 2241146056, 2323933010) && Maps(x, 78288892, 1194, 78287702)
    && Maps(x, 2323933010, 283683, 2323657585) && Maps(x, 2038395122, 907244645, 1332479127)
  }

  predicate HalfMaps(f: Op, a: nat, b: nat, c: nat) { f(a, b) == c }

  /** What the operation on halves makes of theirs, where neither is nought. */
  predicate HalvesWork(f: Op) {
    && HalfMaps(f, 48879, 97, 48782) && HalfMaps(f, 52823, 97, 52790) && HalfMaps(f, 56878, 98, 56908)
    && HalfMaps(f, 7534, 98, 7436) && HalfMaps(f, 40588, 962, 40270) && HalfMaps(f, 38908, 9556, 45736)
    && HalfMaps(f, 3857, 34197, 35460) && HalfMaps(f, 19354, 11464, 26450) && HalfMaps(f, 38908, 1194, 37718)
    && HalfMaps(f, 35460, 4, 35456) && HalfMaps(f, 26450, 21539, 13169) && HalfMaps(f, 31103, 13843, 20332)
    && HalfMaps(f, 28914, 29797, 1175)
  }

  lemma Half1()
    ensures HalfMaps(Xor16, 48879, 97, 48782)
  {
  }

  lemma Half2()
    ensures HalfMaps(Xor16, 52823, 97, 52790)
  {
  }

  lemma Half3()
    ensures HalfMaps(Xor16, 56878, 98, 56908)
  {
  }

  lemma Half4()
    ensures HalfMaps(Xor16, 7534, 98, 7436)
  {
  }

  lemma Half5()
    ensures HalfMaps(Xor16, 40588, 962, 40270)
  {
  }

  lemma Half6()
    ensures HalfMaps(Xor16, 38908, 9556, 45736)
  {
  }

  lemma Half7()
    ensures HalfMaps(Xor16, 3857, 34197, 35460)
  {
  }

  lemma Half8()
    ensures HalfMaps(Xor16, 19354, 11464, 26450)
  {
  }

  lemma Half9()
    ensures HalfMaps(Xor16, 38908, 1194, 37718)
  {
  }

  lemma Half10()
    ensures HalfMaps(Xor16, 35460, 4, 35456)
  {
  }

  lemma Half11()
    ensures HalfMaps(Xor16, 26450, 21539, 13169)
  {
  }

  lemma Half12()
    ensures HalfMaps(Xor16, 31103, 13843, 20332)
  {
  }

  lemma Half13()
    ensures HalfMaps(Xor16, 28914, 29797, 1175)
  {
  }

  lemma HalvesOfXorWork()
    ensures HalvesWork(Xor16)
  {
    Half1();
    Half2();
    Half3();
    Half4();
    Half5();
    Half6();
    Half7();
    Half8();
    Half9();
    Half10();
    Half11();
    Half12();
    Half13();
  }

  ghost predicate MadeOf(x: WordOp, f: Op) {
    Reversible(f, 0x1_0000) && forall a: U32, b: U32 :: x(a, b) == Halves(f, 0x1_0000, a, b)
  }

  lemma WholesWork(f: Op, x: WordOp)
    requires HalvesWork(f) && MadeOf(x, f)
    ensures Works(x)
  {
  }

  lemma XorIsMade()
    ensures MadeOf(Xor32, Xor16)
  {
    XorIsReversible();
  }

  /** The operation on halves, of which nothing else is needed. */
  lemma SomeHalvesWork() returns (f: Op)
    ensures HalvesWork(f) && MadeOf(Xor32, f)
  {
    f := Xor16;
    HalvesOfXorWork();
    XorIsMade();
  }

  lemma XorWorks()
    ensures Works(Xor32)
  {
    var f := SomeHalvesWork();
    WholesWork(f, Xor32);
  }

  lemma LanesStep(x: WordOp, text: seq<CodeUnit>, u: CodeUnit)
    ensures First(x, text + [u]) == Lane(x, First(x, text), u, LANE1)
    ensures Second(x, text + [u]) == Lane(x, Second(x, text), u, LANE2)
  {
    assert (text + [u])[..|text|] == text;
  }

  lemma LanesWork(x: WordOp)
    requires Works(x)
    ensures First(x, [97, 98]) == 63086220 && Second(x, [97, 98]) == 78288892
  {
    LanesStep(x, [], 97);
    LanesStep(x, [97], 98);
    assert [] + [97] == [97] && [97] + [98] == [97, 98];
  }

  lemma StirIs(x: WordOp, h: U32, top: U32, mixed: U32, r: U32)
    requires top == h / 0x1_0000 && Maps(x, h, top, mixed) && Imul(mixed, STIR) == r
    ensures Stir(x, h) == r
  {
  }

  lemma SaltIs(x: WordOp, h: U32, top: U32, mixed: U32, r: U32)
    requires top == h / 0x2000 && Maps(x, h, top, mixed) && Imul(mixed, SALT) == r
    ensures Salt(x, h) == r
  {
  }

  lemma FinalWorks(x: WordOp)
    requires Works(x)
    ensures Final(x, 63086220, 78288892) == (2323933010, 1332479127)
  {
    StirIs(x, 63086220, 962, 63085902, 252791706);
    SaltIs(x, 78288892, 9556, 78295720, 2241146056);
    StirIs(x, 78288892, 1194, 78287702, 2038395122);
    SaltIs(x, 2323933010, 283683, 2323657585, 907244645);
  }

  lemma HashWorks(x: WordOp)
    requires Works(x)
    ensures HashBy(x, [97, 98]) == 3382748631033682
  {
    LanesWork(x);
    FinalWorks(x);
  }

  /** The hash of "ab". */
  lemma HashOfAB()
    ensures Cyrb53([97, 98]) == 3382748631033682
  {
    XorWorks();
    HashWorks(Xor32);
  }
}
