/** The creator-bond sweep: which dead markets it closes or claims, in batches, and what it leaves behind. */
module BondSweep {
  import Programs

  const CLOSE_GRACE := 604800
  const CLAIMS_PER_TX := 8

  datatype Status = Open | Awaiting | Settled | Void

  /** `settlesAt` is 0 while unset. */
  datatype Account = Account(status: Status, settlesAt: int, bondClaimed: bool)

  /** The accounts created by this wallet. */
  type Chain = map<string, Account>

  predicate Dead(a: Account) { a.status == Settled || a.status == Void }

  predicate PastWindow(a: Account, now: int) { now > a.settlesAt + CLOSE_GRACE }

  predicate Closable(a: Account, now: int) { Dead(a) && a.settlesAt > 0 && PastWindow(a, now) }

  predicate BondOnly(a: Account, now: int) { Dead(a) && !Closable(a, now) && !a.bondClaimed }

  datatype Verb = Close | Claim

  type Fate = Programs.TxFate

  /** The programs' own checks. */
  predicate Accepts(chain: Chain, pda: string, verb: Verb, now: int) {
    pda in chain && Dead(chain[pda]) && (if verb == Close then PastWindow(chain[pda], now) else !chain[pda].bondClaimed)
  }

  function After(chain: Chain, pdas: seq<string>, verb: Verb): Chain {
    if verb == Close then map k | k in chain && k !in pdas :: chain[k]
    else map k | k in chain :: if k in pdas then chain[k].(bondClaimed := true) else chain[k]
  }

  /** The order in which the account scan lists the chain. */
  ghost predicate Scans(order: seq<string>, chain: Chain) {
    NoRepeats(order) && forall k :: k in order <==> k in chain
  }

  predicate NoRepeats(s: seq<string>) { forall i, j :: 0 <= i < j < |s| ==> s[i] != s[j] }

  function Pick(order: seq<string>, chain: Chain, now: int, verb: Verb): seq<string> {
    if order == [] then []
    else
      var k := order[|order| - 1];
      var front := Pick(order[..|order| - 1], chain, now, verb);
      var due := k in chain && if verb == Close then Closable(chain[k], now) else BondOnly(chain[k], now);
      if due then front + [k] else front
  }

  /** A dead market can be closed from a week after its settlement on, if it has one. */
  lemma ClosableIff(a: Account, now: int)
    ensures Closable(a, now) <==> a.status in {Settled, Void} && 0 < a.settlesAt < now - 7 * 24 * 3600
  {
  }

  lemma {:induction false} PickMembers(order: seq<string>, chain: Chain, now: int, verb: Verb)
    requires NoRepeats(order)
    ensures NoRepeats(Pick(order, chain, now, verb))
    ensures forall k :: k in Pick(order, chain, now, verb) <==>
      k in order && k in chain && (if verb == Close then Closable(chain[k], now) else BondOnly(chain[k], now))
  {
    if order != [] {
      assert order == order[..|order| - 1] + [order[|order| - 1]];
      PickMembers(order[..|order| - 1], chain, now, verb);
    }
  }

  // ---------------------------------------------------------------- batches

  datatype Sent = Sent(chain: Chain, done: seq<string>, failed: seq<string>, txs: nat)

  function ChunkEnd(n: nat, i: nat): (e: nat)
    requires i < n
    ensures i < e <= n && e <= i + CLAIMS_PER_TX
  {
    if i + CLAIMS_PER_TX < n then i + CLAIMS_PER_TX else n
  }

  /** Sends the batches from index `i` on; transaction number `txs` meets `fates(txs)`. */
  function SendFrom(s: Sent, batch: seq<string>, verb: Verb, now: int, fates: nat -> Fate, i: nat): Sent
    requires i <= |batch|
    decreases |batch| - i
  {
    if i == |batch| then s
    else
      var e := ChunkEnd(|batch|, i);
      SendFrom(SendChunk(s, batch[i..e], verb, now, fates(s.txs)), batch, verb, now, fates, e)
  }

  /** One transaction carries a whole chunk or fails as a whole. */
  function SendChunk(s: Sent, chunk: seq<string>, verb: Verb, now: int, fate: Fate): Sent {
    var valid := forall k :: k in chunk ==> Accepts(s.chain, k, verb, now);
    var chain := if valid && !fate.Lost? then After(s.chain, chunk, verb) else s.chain;
    if valid && fate.Lands? then Sent(chain, s.done + chunk, s.failed, s.txs + 1)
    else Sent(chain, s.done, s.failed + chunk, s.txs + 1)
  }

  datatype Result = Result(scanned: nat, claimed: seq<string>, closed: seq<string>, failed: seq<string>)

  datatype Swept = Swept(chain: Chain, result: Result, txs: nat)

  function CountDead(order: seq<string>, chain: Chain): nat {
    if order == [] then 0
    else
      var k := order[|order| - 1];
      CountDead(order[..|order| - 1], chain) + if k in chain && Dead(chain[k]) then 1 else 0
  }

  function Sweep(chain: Chain, order: seq<string>, now: int, dryRun: bool, fates: nat -> Fate): Swept {
    var closable, bondOnly := Pick(order, chain, now, Close), Pick(order, chain, now, Claim);
    var scanned := CountDead(order, chain);
    if (closable == [] && bondOnly == []) || dryRun then Swept(chain, Result(scanned, [], [], []), 0)
    else
      var a := SendFrom(Sent(chain, [], [], 0), closable, Close, now, fates, 0);
      var b := SendFrom(Sent(a.chain, [], [], a.txs), bondOnly, Claim, now, fates, 0);
      Swept(b.chain, Result(scanned, b.done, a.done, a.failed + b.failed), b.txs)
  }

  // ------------------------------------------------------------- guarantees

  predicate AllAccepted(chain: Chain, batch: seq<string>, verb: Verb, now: int, i: nat)
    requires i <= |batch|
  {
    forall j :: i <= j < |batch| ==> Accepts(chain, batch[j], verb, now)
  }

  lemma ChunkAccepted(chain: Chain, batch: seq<string>, verb: Verb, now: int, i: nat, e: nat)
    requires i <= e <= |batch| && NoRepeats(batch) && AllAccepted(chain, batch, verb, now, i)
    ensures forall k :: k in batch[i..e] ==> Accepts(chain, k, verb, now)
    ensures AllAccepted(After(chain, batch[i..e], verb), batch, verb, now, e)
    ensures AllAccepted(chain, batch, verb, now, e)
  {
    forall k | k in batch[i..e] ensures Accepts(chain, k, verb, now) {
      var j :| i <= j < e && batch[j] == k;
    }
    forall j | e <= j < |batch| ensures batch[j] !in batch[i..e] {
      assert forall x :: i <= x < e ==> batch[x] != batch[j];
    }
  }

  /** Market `k` rode one of the batches from index `i` on, whose transaction did (or did not) succeed. */
  predicate Rode(batch: seq<string>, fates: nat -> Fate, base: nat, i: nat, k: string, ok: bool) {
    exists j :: i <= j < |batch| && batch[j] == k && fates(base + j / 8).Lands? == ok
  }

  /** Index `i` starts batch number `s.txs - base`. */
  predicate AtBatch(s: Sent, base: nat, n: nat, i: nat) {
    i == n || (i % CLAIMS_PER_TX == 0 && s.txs == base + i / CLAIMS_PER_TX)
  }

  lemma RodeSplit(batch: seq<string>, fates: nat -> Fate, base: nat, i: nat, e: nat, k: string, ok: bool)
    requires i < |batch| && i % CLAIMS_PER_TX == 0 && e == ChunkEnd(|batch|, i)
    ensures Rode(batch, fates, base, i, k, ok) <==>
      (k in batch[i..e] && fates(base + i / CLAIMS_PER_TX).Lands? == ok) || Rode(batch, fates, base, e, k, ok)
  {
    assert forall j :: i <= j < e ==> j / CLAIMS_PER_TX == i / CLAIMS_PER_TX;
    if k in batch[i..e] && fates(base + i / CLAIMS_PER_TX).Lands? == ok {
      var j :| i <= j < e && batch[j] == k;
      assert Rode(batch, fates, base, i, k, ok);
    }
  }

  lemma RodeSplitAll(batch: seq<string>, fates: nat -> Fate, base: nat, i: nat, e: nat, ok: bool)
    requires i < |batch| && i % CLAIMS_PER_TX == 0 && e == ChunkEnd(|batch|, i)
    ensures forall k :: Rode(batch, fates, base, i, k, ok) <==>
      (k in batch[i..e] && fates(base + i / CLAIMS_PER_TX).Lands? == ok) || Rode(batch, fates, base, e, k, ok)
  {
    forall k ensures Rode(batch, fates, base, i, k, ok) <==>
      (k in batch[i..e] && fates(base + i / CLAIMS_PER_TX).Lands? == ok) || Rode(batch, fates, base, e, k, ok)
    {
      RodeSplit(batch, fates, base, i, e, k, ok);
    }
  }

  /** Every market of a batch ends in exactly one list, once. */
  lemma {:induction false} BatchPartitions(s: Sent, batch: seq<string>, verb: Verb, now: int, fates: nat -> Fate,
                                           i: nat)
    requires i <= |batch|
    ensures var t := SendFrom(s, batch, verb, now, fates, i);
      multiset(t.done) + multiset(t.failed) == multiset(s.done) + multiset(s.failed) + multiset(batch[i..])
    decreases |batch| - i
  {
    if i < |batch| {
      var e := ChunkEnd(|batch|, i);
      BatchPartitions(SendChunk(s, batch[i..e], verb, now, fates(s.txs)), batch, verb, now, fates, e);
      assert batch[i..] == batch[i..e] + batch[e..];
    }
  }

  lemma ChunkOutcome(s: Sent, chunk: seq<string>, verb: Verb, now: int, fate: Fate)
    requires forall k :: k in chunk ==> Accepts(s.chain, k, verb, now)
    ensures var t := SendChunk(s, chunk, verb, now, fate);
      && (forall k :: k in t.done <==> k in s.done || (k in chunk && fate.Lands?))
      && (forall k :: k in t.failed <==> k in s.failed || (k in chunk && !fate.Lands?))
      && t.chain == if fate.Lost? then s.chain else After(s.chain, chunk, verb)
  {
  }

  /** Which list a market ends in is decided by the fate of its own transaction alone. */
  lemma {:induction false} BatchOutcome(s: Sent, batch: seq<string>, verb: Verb, now: int, fates: nat -> Fate, i: nat,
                                        base: nat)
    requires i <= |batch| && NoRepeats(batch)
    requires AllAccepted(s.chain, batch, verb, now, i) && AtBatch(s, base, |batch|, i)
    ensures var t := SendFrom(s, batch, verb, now, fates, i);
      && (forall k :: k in t.done <==> k in s.done || Rode(batch, fates, base, i, k, true))
      && (forall k :: k in t.failed <==> k in s.failed || Rode(batch, fates, base, i, k, false))
    decreases |batch| - i
  {
    if i < |batch| {
      var e := ChunkEnd(|batch|, i);
      ChunkAccepted(s.chain, batch, verb, now, i, e);
      ChunkOutcome(s, batch[i..e], verb, now, fates(s.txs));
      BatchOutcome(SendChunk(s, batch[i..e], verb, now, fates(s.txs)), batch, verb, now, fates, e, base);
      RodeSplitAll(batch, fates, base, i, e, true);
      RodeSplitAll(batch, fates, base, i, e, false);
    }
  }

  // ---------------------------------------------- what happens on the chain

  /** `b` is `a` with some accounts of `batch` closed, or their bonds claimed, and nothing else touched. */
  predicate Touched(a: Chain, b: Chain, batch: seq<string>, verb: Verb) {
    && (forall k :: k in b ==>
          k in a && (b[k] == a[k] || (verb == Claim && k in batch && b[k] == a[k].(bondClaimed := true))))
    && (forall k :: k in a && k !in b ==> verb == Close && k in batch)
  }

  lemma {:induction false} BatchTouches(s: Sent, batch: seq<string>, verb: Verb, now: int, fates: nat -> Fate, i: nat)
    requires i <= |batch|
    ensures Touched(s.chain, SendFrom(s, batch, verb, now, fates, i).chain, batch, verb)
    decreases |batch| - i
  {
    if i < |batch| {
      var e := ChunkEnd(|batch|, i);
      var s1 := SendChunk(s, batch[i..e], verb, now, fates(s.txs));
      assert forall k :: k in batch[i..e] ==> k in batch;
      assert Touched(s.chain, s1.chain, batch, verb);
      BatchTouches(s1, batch, verb, now, fates, e);
    }
  }

  lemma {:induction false} FailuresGrow(s: Sent, batch: seq<string>, verb: Verb, now: int, fates: nat -> Fate, i: nat)
    requires i <= |batch|
    ensures |s.failed| <= |SendFrom(s, batch, verb, now, fates, i).failed|
    decreases |batch| - i
  {
    if i < |batch| {
      var e := ChunkEnd(|batch|, i);
      FailuresGrow(SendChunk(s, batch[i..e], verb, now, fates(s.txs)), batch, verb, now, fates, e);
    }
  }

  /** When no market of the batch is reported as failed, every one is closed, or its bond claimed. */
  lemma {:induction false} BatchClears(s: Sent, batch: seq<string>, verb: Verb, now: int, fates: nat -> Fate, i: nat)
    requires i <= |batch| && NoRepeats(batch) && AllAccepted(s.chain, batch, verb, now, i)
    requires |SendFrom(s, batch, verb, now, fates, i).failed| == |s.failed|
    requires forall k :: k in batch[..i] ==> Cleared(s.chain, k, verb)
    ensures forall k :: k in batch ==> Cleared(SendFrom(s, batch, verb, now, fates, i).chain, k, verb)
    decreases |batch| - i
  {
    if i < |batch| {
      var e := ChunkEnd(|batch|, i);
      ChunkAccepted(s.chain, batch, verb, now, i, e);
      var s1 := SendChunk(s, batch[i..e], verb, now, fates(s.txs));
      FailuresGrow(s1, batch, verb, now, fates, e);
      assert fates(s.txs).Lands?;
      assert batch[..e] == batch[..i] + batch[i..e];
      BatchClears(s1, batch, verb, now, fates, e);
    } else {
      assert batch[..i] == batch;
    }
  }

  predicate Cleared(chain: Chain, k: string, verb: Verb) {
    if verb == Close then k !in chain else k in chain ==> chain[k].bondClaimed
  }

  predicate Due(chain: Chain, k: string, now: int) {
    k in chain && (Closable(chain[k], now) || BondOnly(chain[k], now))
  }

  lemma PicksAccepted(chain: Chain, order: seq<string>, now: int, verb: Verb)
    requires NoRepeats(order)
    ensures AllAccepted(chain, Pick(order, chain, now, verb), verb, now, 0)
  {
    PickMembers(order, chain, now, verb);
    var p := Pick(order, chain, now, verb);
    forall j | 0 <= j < |p| ensures Accepts(chain, p[j], verb, now) { assert p[j] in p; }
  }

  /** Closing batches leaves every bond-only market as it was, so the claims are still accepted. */
  lemma ClaimsStillAccepted(chain: Chain, order: seq<string>, now: int, fates: nat -> Fate)
    requires NoRepeats(order)
    ensures var a := SendFrom(Sent(chain, [], [], 0), Pick(order, chain, now, Close), Close, now, fates, 0);
      AllAccepted(a.chain, Pick(order, chain, now, Claim), Claim, now, 0)
  {
    var closable, bondOnly := Pick(order, chain, now, Close), Pick(order, chain, now, Claim);
    var a := SendFrom(Sent(chain, [], [], 0), closable, Close, now, fates, 0);
    BatchTouches(Sent(chain, [], [], 0), closable, Close, now, fates, 0);
    PickMembers(order, chain, now, Close);
    PickMembers(order, chain, now, Claim);
    forall j | 0 <= j < |bondOnly| ensures Accepts(a.chain, bondOnly[j], Claim, now) {
      assert bondOnly[j] in bondOnly && bondOnly[j] !in closable;
    }
  }

  lemma PassPartitions(chain: Chain, batch: seq<string>, verb: Verb, now: int, fates: nat -> Fate, txs: nat)
    ensures var t := SendFrom(Sent(chain, [], [], txs), batch, verb, now, fates, 0);
      multiset(t.done) + multiset(t.failed) == multiset(batch) && multiset(t.done) <= multiset(batch)
  {
    BatchPartitions(Sent(chain, [], [], txs), batch, verb, now, fates, 0);
    assert batch[0..] == batch;
  }

  /** What the two passes of a live sweep put into the three lists. */
  lemma SweepLists(chain: Chain, order: seq<string>, now: int, fates: nat -> Fate)
    ensures var r := Sweep(chain, order, now, false, fates).result;
      multiset(r.closed) + multiset(r.claimed) + multiset(r.failed)
        == multiset(Pick(order, chain, now, Close)) + multiset(Pick(order, chain, now, Claim))
    ensures var r := Sweep(chain, order, now, false, fates).result;
      && multiset(r.closed) <= multiset(Pick(order, chain, now, Close))
      && multiset(r.claimed) <= multiset(Pick(order, chain, now, Claim))
  {
    var closable, bondOnly := Pick(order, chain, now, Close), Pick(order, chain, now, Claim);
    var a := SendFrom(Sent(chain, [], [], 0), closable, Close, now, fates, 0);
    var b := SendFrom(Sent(a.chain, [], [], a.txs), bondOnly, Claim, now, fates, 0);
    PassPartitions(chain, closable, Close, now, fates, 0);
    PassPartitions(a.chain, bondOnly, Claim, now, fates, a.txs);
    JoinFailures(multiset(a.done), multiset(b.done), a.failed, b.failed);
  }

  lemma JoinFailures(closed: multiset<string>, claimed: multiset<string>, f: seq<string>, g: seq<string>)
    ensures closed + claimed + multiset(f + g) == (closed + multiset(f)) + (claimed + multiset(g))
  {
    assert multiset(f + g) == multiset(f) + multiset(g);
  }

  /**
   Every closable or bond-unclaimed dead market lands in exactly one of closed, claimed and failed,
   exactly once, and nothing else does.
  */
  lemma SweepPartitions(chain: Chain, order: seq<string>, now: int, fates: nat -> Fate)
    requires Scans(order, chain)
    ensures var r := Sweep(chain, order, now, false, fates).result;
      var all := multiset(r.closed) + multiset(r.claimed) + multiset(r.failed);
      && (forall k :: k in all <==> Due(chain, k, now))
      && (forall k :: all[k] <= 1)
      && (forall k :: k in r.closed ==> k in chain && Closable(chain[k], now))
      && (forall k :: k in r.claimed ==> k in chain && BondOnly(chain[k], now))
  {
    var closable, bondOnly := Pick(order, chain, now, Close), Pick(order, chain, now, Claim);
    var r := Sweep(chain, order, now, false, fates).result;
    SweepLists(chain, order, now, fates);
    PickMembers(order, chain, now, Close);
    PickMembers(order, chain, now, Claim);
    NoRepeatsCount(closable);
    NoRepeatsCount(bondOnly);
    var all := multiset(closable) + multiset(bondOnly);
    forall k ensures all[k] <= 1 && (k in all <==> Due(chain, k, now)) {
      assert k in multiset(closable) <==> k in closable;
      assert k in multiset(bondOnly) <==> k in bondOnly;
    }
    forall k | k in r.closed ensures k in closable { assert k in multiset(r.closed); }
    forall k | k in r.claimed ensures k in bondOnly { assert k in multiset(r.claimed); }
  }

  /** Batches fail independently: a market is closed or claimed exactly when the one transaction it rode succeeds. */
  lemma BatchesAreIndependent(chain: Chain, order: seq<string>, now: int, fates: nat -> Fate)
    requires NoRepeats(order)
    ensures var closable, bondOnly := Pick(order, chain, now, Close), Pick(order, chain, now, Claim);
      var first := SendFrom(Sent(chain, [], [], 0), closable, Close, now, fates, 0).txs;
      var r := Sweep(chain, order, now, false, fates).result;
      && (forall k :: k in r.closed <==> Rode(closable, fates, 0, 0, k, true))
      && (forall k :: k in r.claimed <==> Rode(bondOnly, fates, first, 0, k, true))
      && (forall k :: k in r.failed <==>
            Rode(closable, fates, 0, 0, k, false) || Rode(bondOnly, fates, first, 0, k, false))
  {
    var closable, bondOnly := Pick(order, chain, now, Close), Pick(order, chain, now, Claim);
    var s0 := Sent(chain, [], [], 0);
    var a := SendFrom(s0, closable, Close, now, fates, 0);
    PickMembers(order, chain, now, Close);
    PickMembers(order, chain, now, Claim);
    PicksAccepted(chain, order, now, Close);
    ClaimsStillAccepted(chain, order, now, fates);
    BatchOutcome(s0, closable, Close, now, fates, 0, 0);
    BatchOutcome(Sent(a.chain, [], [], a.txs), bondOnly, Claim, now, fates, 0, a.txs);
  }

  lemma {:induction false} NoRepeatsCount(s: seq<string>)
    requires NoRepeats(s)
    ensures forall k :: multiset(s)[k] <= 1
  {
    if s != [] {
      var front, last := s[..|s| - 1], s[|s| - 1];
      NoRepeatsCount(front);
      assert s == front + [last];
      assert last !in front;
    }
  }

  /** Unchanged, or bond-only and now claimed. */
  predicate Kept(a: Account, b: Account, now: int) { b == a || (BondOnly(a, now) && b == a.(bondClaimed := true)) }

  /** Only closable markets disappear; of another dead one the bond may be claimed, and nothing else changes. */
  lemma SweepTouchesOnlyDue(chain: Chain, order: seq<string>, now: int, dryRun: bool, fates: nat -> Fate)
    requires Scans(order, chain)
    ensures var after := Sweep(chain, order, now, dryRun, fates).chain;
      && (forall k :: k in chain && k !in after ==> Closable(chain[k], now))
      && (forall k :: k in after ==> k in chain && Kept(chain[k], after[k], now))
      && (dryRun ==> after == chain)
  {
    var closable, bondOnly := Pick(order, chain, now, Close), Pick(order, chain, now, Claim);
    var s0 := Sent(chain, [], [], 0);
    var a := SendFrom(s0, closable, Close, now, fates, 0);
    PickMembers(order, chain, now, Close);
    PickMembers(order, chain, now, Claim);
    BatchTouches(s0, closable, Close, now, fates, 0);
    BatchTouches(Sent(a.chain, [], [], a.txs), bondOnly, Claim, now, fates, 0);
  }

  /** After a sweep that reports no failure, an immediate repeat sends no transaction, in whatever order it scans. */
  lemma RepeatSendsNothing(chain: Chain, order: seq<string>, now: int, fates: nat -> Fate, order2: seq<string>,
                           fates2: nat -> Fate)
    requires Scans(order, chain) && Sweep(chain, order, now, false, fates).result.failed == []
    requires Scans(order2, Sweep(chain, order, now, false, fates).chain)
    ensures forall k :: !Due(Sweep(chain, order, now, false, fates).chain, k, now)
    ensures Sweep(Sweep(chain, order, now, false, fates).chain, order2, now, false, fates2).txs == 0
  {
    var closable, bondOnly := Pick(order, chain, now, Close), Pick(order, chain, now, Claim);
    var s0 := Sent(chain, [], [], 0);
    var a := SendFrom(s0, closable, Close, now, fates, 0);
    var s1 := Sent(a.chain, [], [], a.txs);
    var b := SendFrom(s1, bondOnly, Claim, now, fates, 0);
    var after := Sweep(chain, order, now, false, fates).chain;
    if closable != [] || bondOnly != [] { assert a.failed + b.failed == []; }
    assert a.failed == [] && b.failed == [];
    PickMembers(order, chain, now, Close);
    PickMembers(order, chain, now, Claim);
    PicksAccepted(chain, order, now, Close);
    ClaimsStillAccepted(chain, order, now, fates);
    BatchTouches(s0, closable, Close, now, fates, 0);
    BatchTouches(s1, bondOnly, Claim, now, fates, 0);
    BatchClears(s0, closable, Close, now, fates, 0);
    BatchClears(s1, bondOnly, Claim, now, fates, 0);
    assert forall k :: k in closable ==> k !in a.chain by {
      forall k | k in closable ensures k !in a.chain { assert Cleared(a.chain, k, Close); }
    }
    forall k ensures !Due(after, k, now) {
      assert k in bondOnly ==> Cleared(b.chain, k, Claim);
    }
    NothingDue(after, order2, now);
  }

  lemma NothingDue(chain: Chain, order: seq<string>, now: int)
    requires NoRepeats(order) && forall k :: !Due(chain, k, now)
    ensures Pick(order, chain, now, Close) == [] && Pick(order, chain, now, Claim) == []
  {
    var p, q := Pick(order, chain, now, Close), Pick(order, chain, now, Claim);
    assert (p != [] ==> p[0] in p) && (q != [] ==> q[0] in q);
    PickMembers(order, chain, now, Close);
    PickMembers(order, chain, now, Claim);
    assert forall k :: k in p || k in q ==> Due(chain, k, now);
  }

  // -------------------------------------------------------------- the sweep

  class Sweeper {
    var chain: Chain
    // transactions sent by the latest sweep
    var sentTxs: nat

    constructor (chain: Chain)
      ensures this.chain == chain && sentTxs == 0
    {
      this.chain, sentTxs := chain, 0;
    }

    /** `sendBatch`: pushes each chunk into the sink or into the failures. */
    method SendBatch(batch: seq<string>, verb: Verb, now: int, fates: nat -> Fate)
      returns (sink: seq<string>, failed: seq<string>)
      modifies this
      ensures Sent(chain, sink, failed, sentTxs)
        == SendFrom(Sent(old(chain), [], [], old(sentTxs)), batch, verb, now, fates, 0)
    {
      sink, failed := [], [];
      var i := 0;
      while i < |batch|
        invariant i <= |batch|
        invariant SendFrom(Sent(chain, sink, failed, sentTxs), batch, verb, now, fates, i)
          == SendFrom(Sent(old(chain), [], [], old(sentTxs)), batch, verb, now, fates, 0)
      {
        var e := ChunkEnd(|batch|, i);
        var chunk := batch[i..e];
        var fate := fates(sentTxs);
        var valid := forall k :: k in chunk ==> Accepts(chain, k, verb, now);
        if valid && !fate.Lost? { chain := After(chain, chunk, verb); }
        if valid && fate.Lands? { sink := sink + chunk; } else { failed := failed + chunk; }
        sentTxs := sentTxs + 1;
        i := e;
      }
    }

    method SweepCreatorBonds(order: seq<string>, now: int, dryRun: bool, fates: nat -> Fate) returns (r: Result)
      modifies this
      ensures Swept(chain, r, sentTxs) == Sweep(old(chain), order, now, dryRun, fates)
    {
      sentTxs := 0;
      var closable := Pick(order, chain, now, Close);
      var bondOnly := Pick(order, chain, now, Claim);
      var scanned := CountDead(order, chain);
      if closable == [] && bondOnly == [] { return Result(scanned, [], [], []); }
      if dryRun { return Result(scanned, [], [], []); }
      var closed, failed1 := SendBatch(closable, Close, now, fates);
      var claimed, failed2 := SendBatch(bondOnly, Claim, now, fates);
      r := Result(scanned, claimed, closed, failed1 + failed2);
    }
  }
}
