/** Packing a settlement bundle into transactions that fit the packet limit, and the lookup table that helps it. */
module SettlePacking {
  import opened Basics

  const PACKET := 1232
  const TABLE_CAP := 256

  // ---------------------------------------------------------------- packing

  /** A signed transaction; `v0` ones use the lookup table. */
  datatype Tx<Ix> = Tx(ixs: seq<Ix>, v0: bool)

  /** Serialized sizes, as a legacy transaction and with the lookup table. */
  datatype Sizes<!Ix> = Sizes(legacy: seq<Ix> -> nat, withTable: seq<Ix> -> nat)

  datatype Packing<Ix> =
    | Packed(txs: seq<Tx<Ix>>, split: bool)
    | TableNotReady
    | TooDeep

  predicate Fits<Ix>(size: Sizes<Ix>, t: Tx<Ix>) {
    (if t.v0 then size.withTable(t.ixs) else size.legacy(t.ixs)) <= PACKET
  }

  /** The two halves: budget and resolve, then a fresh budget and the rest. */
  function Parts<Ix>(ixs: seq<Ix>, budget: Ix): seq<seq<Ix>>
    requires |ixs| >= 2
  {
    [ixs[..2], [budget] + ixs[2..]]
  }

  /** A part on its own: with the table if that fits, else legacy if that fits. */
  function PackPart<Ix>(size: Sizes<Ix>, part: seq<Ix>): Option<Tx<Ix>> {
    if Fits(size, Tx(part, true)) then Some(Tx(part, true))
    else if Fits(size, Tx(part, false)) then Some(Tx(part, false))
    else None
  }

  /** Both halves fit as legacy transactions. */
  predicate PlainHalvesFit<Ix>(size: Sizes<Ix>, ixs: seq<Ix>, budget: Ix)
    requires |ixs| >= 2
  {
    var parts := Parts(ixs, budget);
    Fits(size, Tx(parts[0], false)) && Fits(size, Tx(parts[1], false))
  }

  function Pack<Ix>(size: Sizes<Ix>, ixs: seq<Ix>, budget: Ix, tableReady: bool): Packing<Ix>
    requires |ixs| >= 2
  {
    var parts := Parts(ixs, budget);
    if Fits(size, Tx(ixs, false)) then Packed([Tx(ixs, false)], false)
    else if PlainHalvesFit(size, ixs, budget) then
      Packed([Tx(parts[0], false), Tx(parts[1], false)], true)
    else if !tableReady then TableNotReady
    else if Fits(size, Tx(ixs, true)) then Packed([Tx(ixs, true)], false)
    else
      var a, b := PackPart(size, parts[0]), PackPart(size, parts[1]);
      if a.Some? && b.Some? then Packed([a.value, b.value], true) else TooDeep
  }

  method BuildSettleTransactions<Ix(==)>(size: Sizes<Ix>, ixs: seq<Ix>, budget: Ix, tableReady: bool)
    returns (r: Packing<Ix>)
    requires |ixs| >= 2
    ensures r == Pack(size, ixs, budget, tableReady)
  {
    var single := Tx(ixs, false);
    if Fits(size, single) { return Packed([single], false); }
    var parts := Parts(ixs, budget);
    if Fits(size, Tx(parts[0], false)) && Fits(size, Tx(parts[1], false)) {
      return Packed([Tx(parts[0], false), Tx(parts[1], false)], true);
    }
    if !tableReady { return TableNotReady; }
    if Fits(size, Tx(ixs, true)) { return Packed([Tx(ixs, true)], false); }
    var txs: seq<Tx<Ix>> := [];
    for i := 0 to 2
      invariant |txs| == i
      invariant forall j :: 0 <= j < i ==> PackPart(size, parts[j]) == Some(txs[j])
    {
      var v0 := Tx(parts[i], true);
      if Fits(size, v0) {
        txs := txs + [v0];
      } else if Fits(size, Tx(parts[i], false)) {
        txs := txs + [Tx(parts[i], false)];
      } else {
        return TooDeep;
      }
    }
    assert txs == [txs[0], txs[1]];
    r := Packed(txs, true);
  }

  /** The instructions after each transaction's leading budget instruction, in sending order. */
  function Payload<Ix>(txs: seq<Tx<Ix>>): seq<Ix> {
    if txs == [] then []
    else (if txs[0].ixs == [] then [] else txs[0].ixs[1..]) + Payload(txs[1..])
  }

  lemma PayloadOfTwo<Ix>(a: Tx<Ix>, b: Tx<Ix>)
    requires a.ixs != [] && b.ixs != []
    ensures Payload([a, b]) == a.ixs[1..] + b.ixs[1..] && Payload([a]) == a.ixs[1..]
  {
    assert [a, b][1..] == [b] && [b][1..] == [] && [a][1..] == [];
    assert Payload([a]) == a.ixs[1..] + [] == a.ixs[1..];
    assert Payload([b]) == b.ixs[1..] + [] == b.ixs[1..];
  }

  lemma HalvesCarryTheBundle<Ix>(a: Tx<Ix>, b: Tx<Ix>, ixs: seq<Ix>, budget: Ix)
    requires |ixs| >= 2 && a.ixs == ixs[..2] && b.ixs == [budget] + ixs[2..]
    ensures Payload([a, b]) == ixs[1..]
  {
    PayloadOfTwo(a, b);
    assert ixs[..2][1..] + ([budget] + ixs[2..])[1..] == ixs[1..];
  }

  /**
   Every transaction returned fits its packet; together, and in order, they carry exactly the bundle, resolve
   first when split; and it is split only when the plain bundle does not fit, the table used only when, besides, it
   is ready and the plain halves do not both fit.
  */
  lemma PackIsSound<Ix>(size: Sizes<Ix>, ixs: seq<Ix>, budget: Ix, tableReady: bool)
    requires |ixs| >= 2
    ensures var r := Pack(size, ixs, budget, tableReady);
      r.Packed? ==>
        && (forall t :: t in r.txs ==> Fits(size, t))
        && Payload(r.txs) == ixs[1..]
        && (r.split <==> |r.txs| == 2)
        && (r.split ==> r.txs[0].ixs == ixs[..2] && r.txs[1].ixs == [budget] + ixs[2..] && !Fits(size, Tx(ixs, false)))
        && (!r.split ==> |r.txs| == 1 && r.txs[0].ixs == ixs)
        && (forall t :: t in r.txs && t.v0 ==>
              tableReady && !Fits(size, Tx(ixs, false)) && !PlainHalvesFit(size, ixs, budget))
  {
    var r := Pack(size, ixs, budget, tableReady);
    PayloadOfTwo(Tx(ixs, false), Tx(ixs, false));
    PayloadOfTwo(Tx(ixs, true), Tx(ixs, true));
    if r.Packed? && r.split { HalvesCarryTheBundle(r.txs[0], r.txs[1], ixs, budget); }
  }

  /**
   An atomic settle is meant to be preferred whenever the table makes the bundle fit.  Exactly when it is not: the
   bundle is split just where it does not fit without the table and both plain halves do, table ready or not.
  */
  lemma AtomicIsPassedOverIff<Ix>(size: Sizes<Ix>, ixs: seq<Ix>, budget: Ix, tableReady: bool)
    requires |ixs| >= 2 && Fits(size, Tx(ixs, true))
    ensures var r := Pack(size, ixs, budget, tableReady);
      r.Packed? && r.split <==> !Fits(size, Tx(ixs, false)) && PlainHalvesFit(size, ixs, budget)
  {
  }

  /**
   Exactly when a half travels with the table although it fits without it: nothing atomic fits, and the other half
   fits only with the table.
  */
  lemma HalfTakesTableNeedlesslyIff<Ix>(size: Sizes<Ix>, ixs: seq<Ix>, budget: Ix, tableReady: bool, i: nat)
    requires |ixs| >= 2 && i < 2
    ensures var r, parts := Pack(size, ixs, budget, tableReady), Parts(ixs, budget);
      r.Packed? && r.split && r.txs[i].v0 && Fits(size, Tx(parts[i], false)) <==>
        && tableReady && !Fits(size, Tx(ixs, false)) && !Fits(size, Tx(ixs, true))
        && Fits(size, Tx(parts[i], false)) && Fits(size, Tx(parts[i], true))
        && !Fits(size, Tx(parts[1 - i], false)) && Fits(size, Tx(parts[1 - i], true))
  {
    assert 1 - i == if i == 0 then 1 else 0;
  }

  /** Four instructions whose bundle fits with the table and is nevertheless split. */
  lemma AtomicIsPassedOver()
    ensures var size := Sizes((s: seq<nat>) => if |s| > 3 then 1233 else 1232, (s: seq<nat>) => 1232);
      var r := Pack(size, [0, 1, 2, 3], 0, true);
      r.Packed? && r.split && Fits(size, Tx([0, 1, 2, 3], true))
  {
    assert [0, 1, 2, 3][..2] == [0, 1] && [0] + [0, 1, 2, 3][2..] == [0, 2, 3];
  }

  /** Four instructions whose first half travels with the table although it fits without it. */
  lemma HalfTakesTableNeedlessly()
    ensures var size := Sizes((s: seq<nat>) => if |s| > 2 then 1233 else 1000,
                              (s: seq<nat>) => if |s| > 3 then 1233 else 900);
      var r := Pack(size, [0, 1, 2, 3], 0, true);
      r.Packed? && r.split && r.txs[0] == Tx([0, 1], true) && Fits(size, Tx([0, 1], false))
  {
    assert [0, 1, 2, 3][..2] == [0, 1] && [0] + [0, 1, 2, 3][2..] == [0, 2, 3];
  }

  // ------------------------------------------------------- the lookup table

  datatype Table = Table(addresses: seq<string>, lastExtended: int)

  /** What one `ensureAltAddresses` leaves behind: the table in use, and whether it may be used now. */
  datatype Ensured = Ensured(table: Table, ready: bool, rotated: bool)

  function Missing(t: Table, needed: seq<string>): (r: seq<string>)
    ensures forall a :: a in r <==> a in needed && a !in t.addresses
    ensures |r| <= |needed|
  {
    if needed == [] then []
    else
      var last := needed[|needed| - 1];
      assert needed == needed[..|needed| - 1] + [last];
      Missing(t, needed[..|needed| - 1]) + if last in t.addresses then [] else [last]
  }

  /** `slot` is the confirmed slot, `advanced` whether a later slot is seen within the polling budget. */
  function Ensure(t: Table, statics: seq<string>, needed: seq<string>, slot: int, advanced: bool): Ensured {
    var missing := Missing(t, needed);
    if missing == [] then Ensured(t, slot > t.lastExtended, false)
    else if |t.addresses| + |missing| > TABLE_CAP then Ensured(Table(statics + needed, slot), false, true)
    else Ensured(Table(t.addresses + missing, slot), advanced, false)
  }

  /**
   The table in use afterwards holds every needed address and, when fresh, the static ones; an old table only
   grows.  It stays within 256 entries exactly when no fresh one was started that is too small for both groups.
  */
  lemma EnsureIsSound(t: Table, statics: seq<string>, needed: seq<string>, slot: int, advanced: bool)
    requires |t.addresses| <= 256
    ensures var r := Ensure(t, statics, needed, slot, advanced);
      && (|r.table.addresses| <= 256 <==> r.rotated ==> |statics| + |needed| <= 256)
      && (forall a :: a in needed ==> a in r.table.addresses)
      && (if r.rotated then forall a :: a in statics ==> a in r.table.addresses else t.addresses <= r.table.addresses)
  {
    var missing := Missing(t, needed);
    forall a | a in needed ensures a in t.addresses || a in missing {}
  }

  /**
   The table may be used at once exactly when it was left as it was and a later slot than its last extension is
   confirmed, or it was extended and a later slot was seen; an extended or fresh one counts from this slot.
  */
  lemma ReadyIff(t: Table, statics: seq<string>, needed: seq<string>, slot: int, advanced: bool)
    ensures var r := Ensure(t, statics, needed, slot, advanced);
      var complete := forall a :: a in needed ==> a in t.addresses;
      && (r.ready <==> if complete then slot > t.lastExtended else !r.rotated && advanced)
      && (complete ==> r.table == t && !r.rotated) && (!complete ==> r.table.lastExtended == slot)
  {
    var missing := Missing(t, needed);
    if missing != [] { assert missing[0] in missing; }
    if a :| a in needed && a !in t.addresses { assert a in missing; }
  }

  lemma {:induction false} NoneMissing(t: Table, needed: seq<string>)
    requires forall a :: a in needed ==> a in t.addresses
    ensures Missing(t, needed) == []
  {
    if needed != [] {
      assert needed == needed[..|needed| - 1] + [needed[|needed| - 1]];
      NoneMissing(t, needed[..|needed| - 1]);
    }
  }

  /** At most one attempt is put off per settlement: the next one, in any later slot, finds the table ready. */
  lemma ReadyNextTime(t: Table, statics: seq<string>, needed: seq<string>, slot: int, advanced: bool, later: int,
                      advanced2: bool)
    ensures var first := Ensure(t, statics, needed, slot, advanced);
      later > first.table.lastExtended ==>
        Ensure(first.table, statics, needed, later, advanced2) == Ensured(first.table, true, false)
  {
    var first := Ensure(t, statics, needed, slot, advanced);
    var missing := Missing(t, needed);
    forall a | a in needed ensures a in first.table.addresses {
      assert a in t.addresses || a in missing;
    }
    NoneMissing(first.table, needed);
  }

  /** The keeper's table. */
  class SettleTable {
    var addresses: seq<string>
    var lastExtended: int

    constructor (statics: seq<string>, slot: int)
      ensures addresses == statics && lastExtended == slot
    {
      addresses, lastExtended := statics, slot;
    }

    method EnsureAltAddresses(statics: seq<string>, needed: seq<string>, slot: int, advanced: bool)
      returns (ready: bool, rotated: bool)
      modifies this
      ensures Ensured(Table(addresses, lastExtended), ready, rotated)
        == Ensure(Table(old(addresses), old(lastExtended)), statics, needed, slot, advanced)
    {
      var missing := [];
      for i := 0 to |needed|
        invariant missing == Missing(Table(addresses, lastExtended), needed[..i])
      {
        assert needed[..i + 1][..i] == needed[..i] && needed[..i + 1][i] == needed[i];
        if needed[i] !in addresses { missing := missing + [needed[i]]; }
      }
      assert needed[..|needed|] == needed;
      if missing == [] { return slot > lastExtended, false; }
      if |addresses| + |missing| > TABLE_CAP {
        addresses, lastExtended := statics + needed, slot;
        return false, true;
      }
      addresses, lastExtended := addresses + missing, slot;
      ready, rotated := advanced, false;
    }
  }
}
