/** What both price keepers share: tracked markets, their chain, creating, settling and voiding one market. */
module PriceMarkets {
  import opened Basics
  import opened Programs
  import opened PriceFeed

  const PROGRAM_GRACE := 3600
  const VOID_GRACE := PROGRAM_GRACE + 900

  /** An address is fixed by the match id and the line. */
  datatype Pda = Pda(matchId: seq<int>, threshold: int)

  datatype Market = Market(pda: Pda, referenceTs: int, oracle: Oracle)

  // ------------------------------------------------------------ the chain

  datatype OnChain = OnChain(closesAt: int, account: Account)

  type Chain = map<Pda, OnChain>

  function At(chain: Chain, pda: Pda): OnChain {
    if pda in chain then chain[pda] else OnChain(0, Account(Absent, None, Txline))
  }

  function AccountAt(chain: Chain, pda: Pda): Account { At(chain, pda).account }

  /** A transaction that takes effect; a create also fixes the closing time. */
  function Apply(chain: Chain, m: Market, tx: Tx, clock: int): Option<Chain> {
    var x := At(chain, m.pda);
    var v := Execute(tx, x.account, clock > x.closesAt + PROGRAM_GRACE);
    if v.None? then None
    else
      var after := OnChain(if tx.CreateTx? then m.referenceTs else x.closesAt, v.value);
      Some(chain[m.pda := after])
  }

  /** Outcomes, receipts and bindings on the chain are for ever. */
  ghost predicate Grows(a: Chain, b: Chain) {
    forall pda: Pda :: AccountAt(a, pda).phase != Absent ==>
      && AccountAt(b, pda).phase != Absent
      && (Spent(AccountAt(a, pda)) ==> Spent(AccountAt(b, pda)))
      && (Over(AccountAt(a, pda)) ==> AccountAt(b, pda).phase == AccountAt(a, pda).phase)
      && AccountAt(b, pda).oracle == AccountAt(a, pda).oracle && At(b, pda).closesAt == At(a, pda).closesAt
  }

  lemma ApplyGrows(chain: Chain, m: Market, tx: Tx, clock: int)
    ensures var v := Apply(chain, m, tx, clock); v.Some? ==> Grows(chain, v.value)
    ensures var v := Apply(chain, m, tx, clock);
      v.Some? ==> forall pda :: pda != m.pda ==> At(v.value, pda) == At(chain, pda)
  {
  }

  lemma GrowsTrans(a: Chain, b: Chain, d: Chain)
    requires Grows(a, b) && Grows(b, d)
    ensures Grows(a, d)
  {
  }

  // ------------------------------------------------------- tracked markets

  predicate Has(tracked: seq<Market>, pda: Pda) { exists i :: 0 <= i < |tracked| && tracked[i].pda == pda }

  predicate Distinct(tracked: seq<Market>) {
    forall i, j :: 0 <= i < j < |tracked| ==> tracked[i].pda != tracked[j].pda
  }

  function Drop(tracked: seq<Market>, pda: Pda): seq<Market> {
    if tracked == [] then []
    else if tracked[0].pda == pda then tracked[1..]
    else [tracked[0]] + Drop(tracked[1..], pda)
  }

  lemma {:induction false} DropRemovesOne(tracked: seq<Market>, pda: Pda)
    requires Distinct(tracked)
    ensures Distinct(Drop(tracked, pda))
    ensures forall x :: x in Drop(tracked, pda) <==> x in tracked && x.pda != pda
  {
    if tracked != [] {
      assert tracked == [tracked[0]] + tracked[1..];
      if tracked[0].pda != pda {
        DropRemovesOne(tracked[1..], pda);
        var d := Drop(tracked, pda);
        forall i, j | 0 <= i < j < |d| ensures d[i].pda != d[j].pda {
          assert d[j] == Drop(tracked[1..], pda)[j - 1] && d[j] in Drop(tracked[1..], pda);
          if i > 0 { assert d[i] == Drop(tracked[1..], pda)[i - 1]; }
        }
      }
    }
  }

  lemma {:induction false} DropOnly(tracked: seq<Market>, pda: Pda)
    ensures |Drop(tracked, pda)| <= |tracked|
    ensures |tracked| == 1 ==> Drop(tracked, pda) == if tracked[0].pda == pda then [] else tracked
  {
    if tracked != [] { DropOnly(tracked[1..], pda); }
  }

  lemma TrackedIsUnique(tracked: seq<Market>, x: Market, m: Market)
    requires Distinct(tracked) && x in tracked && m in tracked && x.pda == m.pda
    ensures x == m
  {
    var i :| 0 <= i < |tracked| && tracked[i] == x;
    var j :| 0 <= j < |tracked| && tracked[j] == m;
  }

  // ------------------------------------------------------------ the context

  datatype Setup = Setup(feed: seq<int>, attestationMode: bool, dryRun: bool)

  /**
   What one attempt on a market meets: the feed requests, the spot candle, the price that it observes, the posting
   of the price update, the fates of the settle bundle and of the void, and the chain's clock when the void arrives.
  */
  datatype Attempt = Attempt(online: nat -> bool, candle: bool, price: int, posted: bool,
                             settle: TxFate, void: TxFate, clock: int)

  /** What creating meets: a spot line, the account lookup, the create; `status` and `claim` are later reads. */
  datatype CreateEnv = CreateEnv(spot: Option<int>, lookupOk: bool, fate: TxFate, statusOk: bool, claimOk: bool)

  /** A round of a keeper's loop, or a transaction of somebody else. */
  datatype Event =
    | Tick(now: int, create: CreateEnv, attempts: nat -> Attempt)
    | Outside(m: Market, tx: Tx, clock: int)

  /** One settle or void transaction: why it was sent, what it met, and whether it took effect. */
  datatype Sent = Sent(m: Market, tx: Tx, at: int, candle: bool, before: Account, landed: bool)

  /** The atomic bundle: the observed outcome, proved to the validator the market was tracked with. */
  function Bundle(m: Market, a: Attempt): Tx { ResolveAndSettleTx(Claim(a.price >= m.pda.threshold, m.oracle, true)) }

  datatype View = View(tracked: seq<Market>, chain: Chain, sent: seq<Sent>)

  function Submit(v: View, m: Market, tx: Tx, at: int, a: Attempt, fate: TxFate): (View, bool) {
    var after := Apply(v.chain, m, tx, a.clock);
    var landed := after.Some? && fate != Lost;
    (v.(chain := if landed then after.value else v.chain,
        sent := v.sent + [Sent(m, tx, at, a.candle, AccountAt(v.chain, m.pda), landed)]),
     landed && fate == Lands)
  }

  /** How creating ended: with a market in hand, with none (a dry run), or with an error. */
  datatype Ensured = Ensured(v: View, market: Option<Market>, threw: bool)

  /** The account can take the bundle: it is open, has no receipt, and is bound to the oracle it was tracked with. */
  predicate Takes(x: Account, m: Market) { x.phase == Open && x.receipt.None? && x.oracle == m.oracle }

  /** `ensurePriceMarket`: adopt the market of this id and line, or create it. */
  function Ensure(c: Setup, v: View, matchId: seq<int>, ref: int, e: CreateEnv): Ensured {
    if e.spot.None? then Ensured(v, None, true)
    else
      var pda := Pda(matchId, e.spot.value);
      if Has(v.tracked, pda) then Ensured(v, Some(Tracked(v.tracked, pda)), false)
      else if !e.lookupOk then Ensured(v, None, true)
      else if AccountAt(v.chain, pda).phase != Absent then
        var m := Market(pda, ref, AccountAt(v.chain, pda).oracle);
        Ensured(v.(tracked := v.tracked + [m]), Some(m), false)
      else if c.dryRun then Ensured(v.(tracked := v.tracked + [Market(pda, ref, Pyth)]), None, false)
      else
        var m := Market(pda, ref, if c.attestationMode then Attestation else Pyth);
        if e.fate == Lost then Ensured(v, None, true)
        else
          var created := AccountAt(v.chain, pda).(phase := Open, oracle := m.oracle);
          var u := v.(chain := v.chain[pda := OnChain(ref, created)]);
          if e.fate == LandsUnseen then Ensured(u, None, true)
          else Ensured(u.(tracked := v.tracked + [m]), Some(m), false)
  }

  function Tracked(tracked: seq<Market>, pda: Pda): Market
    requires Has(tracked, pda)
  {
    if tracked[0].pda == pda then tracked[0] else Tracked(tracked[1..], pda)
  }

  lemma EnsureTracks(c: Setup, v: View, matchId: seq<int>, ref: int, e: CreateEnv)
    requires Distinct(v.tracked)
    ensures var u := Ensure(c, v, matchId, ref, e).v;
      && u.sent == v.sent && Distinct(u.tracked)
      && (u.tracked == v.tracked || (|u.tracked| == |v.tracked| + 1 && u.tracked[..|v.tracked|] == v.tracked))
      && (forall x :: x in u.tracked && x !in v.tracked ==> x.pda.matchId == matchId)
  {
  }

  lemma EnsureGrows(c: Setup, v: View, matchId: seq<int>, ref: int, e: CreateEnv)
    ensures var u := Ensure(c, v, matchId, ref, e).v;
      && Grows(v.chain, u.chain)
      && (forall pda :: AccountAt(v.chain, pda).phase != Absent || pda.matchId != matchId ==>
            At(u.chain, pda) == At(v.chain, pda))
  {
  }

  /** A create that works ends with the market of this id and line tracked. */
  lemma EnsureHas(c: Setup, v: View, matchId: seq<int>, ref: int, e: CreateEnv)
    requires e.spot.Some? && e.lookupOk && e.fate == Lands
    ensures var u := Ensure(c, v, matchId, ref, e).v;
      exists j :: 0 <= j < |u.tracked| && u.tracked[j].pda == Pda(matchId, e.spot.value)
                  && (j < |v.tracked| || u.tracked[j].referenceTs == ref)
  {
    var u, pda := Ensure(c, v, matchId, ref, e).v, Pda(matchId, e.spot.value);
    if i :| 0 <= i < |v.tracked| && v.tracked[i].pda == pda {
      assert u.tracked[i].pda == pda;
    } else {
      assert u.tracked[|v.tracked|].pda == pda;
    }
  }

  // ---------------------------------------------------- observing a market

  /** What an attempt learns before it sends anything. */
  datatype Verdict = Observed | NotYet | Never | Unsupported | Unreachable

  function Observe(c: Setup, m: Market, now: int, a: Attempt): Verdict {
    match m.oracle
    case Attestation => if a.candle then Observed else if now > m.referenceTs + VOID_GRACE - 300 then Never else NotYet
    case Pyth =>
      if c.attestationMode then Unsupported
      else (match ProbeFrom(c.feed, m.referenceTs, now, a.online, 0)
            case Failed => Unreachable
            case Missing => if now > m.referenceTs + MAX_STALENESS then Never else NotYet
            case Found(_) => Observed)
    case _ => Unsupported
  }

  /** The keeper gives a market up: it cannot be proved, and the grace period is over. */
  predicate GivesUp(c: Setup, m: Market, now: int, a: Attempt) {
    Observe(c, m, now, a) in {Never, Unsupported} && now > m.referenceTs + VOID_GRACE
  }

  /** No observation can settle the market under this setup. */
  predicate Unprovable(c: Setup, m: Market, candle: bool) {
    match m.oracle
    case Attestation => !candle
    case Pyth => c.attestationMode || forall t :: t in c.feed ==> !InWindow(t, m.referenceTs)
    case _ => true
  }

  /** A market is given up only past the grace period and only when it cannot be proved. */
  lemma GivesUpOnlyUnprovable(c: Setup, m: Market, now: int, a: Attempt)
    requires Increasing(c.feed)
    ensures GivesUp(c, m, now, a) ==> Unprovable(c, m, a.candle) && now > m.referenceTs + VOID_GRACE
    ensures now >= m.referenceTs && Observe(c, m, now, a) == Observed && m.oracle == Pyth ==>
      !c.attestationMode && Observable(c.feed, m.referenceTs, now)
  {
    if m.oracle == Pyth && now >= m.referenceTs { ProbeOutcomes(c.feed, m.referenceTs, now, a.online, 0); }
  }

  predicate InWindowAny(c: Setup, m: Market) { exists t :: t in c.feed && InWindow(t, m.referenceTs) }

  /** Past the grace period, with the feed reachable, what is learnt about a Pyth market depends on the feed alone. */
  lemma VerdictIff(c: Setup, m: Market, now: int, a: Attempt)
    requires Increasing(c.feed) && m.oracle == Pyth && !c.attestationMode
    requires now > m.referenceTs + VOID_GRACE && forall k: nat :: a.online(k)
    ensures var begun := Begun(c.feed, m.referenceTs, now);
      && (Observe(c, m, now, a) == Observed <==> begun && InWindowAny(c, m))
      && (GivesUp(c, m, now, a) <==> begun && !InWindowAny(c, m))
      && (Observe(c, m, now, a) == Unreachable <==> !begun)
  {
    ProbeIsComplete(c.feed, m.referenceTs, now, a.online);
  }

  /** Whenever it is asked, an observable market is never given up. */
  lemma ObservableIsNeverGivenUp(c: Setup, m: Market, now: int, a: Attempt)
    requires Increasing(c.feed) && m.oracle == Pyth && !c.attestationMode && InWindowAny(c, m)
    ensures !GivesUp(c, m, now, a)
  {
    GivesUpOnlyUnprovable(c, m, now, a);
  }

  // --------------------------------------------------------------- settling

  datatype Result = Settled | Pending | Unresolvable | NotSupported | Threw

  /** `settlePriceMarket` without the removal from the tracked markets. */
  function SettlePrice(c: Setup, v: View, m: Market, now: int, a: Attempt): (View, Result) {
    match Observe(c, m, now, a)
    case Unreachable => (v, Threw)
    case NotYet => (v, Pending)
    case Never => (v, Unresolvable)
    case Unsupported => (v, NotSupported)
    case Observed =>
      if c.dryRun then (v, Result.Settled)
      else if !a.posted then (v, Threw)
      else
        var (u, ok) := Submit(v, m, Bundle(m, a), now, a, a.settle);
        (u, if ok then Result.Settled else Threw)
  }

  /** One settle attempt, with the market let go when it settled. */
  function Settle(c: Setup, v: View, m: Market, now: int, a: Attempt): (View, Result) {
    var (u, r) := SettlePrice(c, v, m, now, a);
    (if r == Result.Settled then u.(tracked := Drop(u.tracked, m.pda)) else u, r)
  }

  /** Giving a market up: let go of it first, then send the void. */
  function GiveUp(c: Setup, v: View, m: Market, now: int, a: Attempt): View {
    var u := v.(tracked := Drop(v.tracked, m.pda));
    if c.dryRun then u else Submit(u, m, VoidTx, now, a, a.void).0
  }

  /** The settle-or-void step of both loops for one market. */
  function Handle(c: Setup, v: View, m: Market, now: int, a: Attempt): (View, Result) {
    if now < m.referenceTs then (v, Pending)
    else
      var (u, r) := Settle(c, v, m, now, a);
      (if GivesUp(c, m, now, a) then GiveUp(c, u, m, now, a) else u, r)
  }

  /** The step touches nothing of other markets, and the chain only grows. */
  lemma HandleFrame(c: Setup, v: View, m: Market, now: int, a: Attempt)
    requires Distinct(v.tracked)
    ensures var t := Handle(c, v, m, now, a).0;
      && Distinct(t.tracked) && Grows(v.chain, t.chain)
      && (forall x :: x in t.tracked ==> x in v.tracked)
      && (forall x :: x in v.tracked && x.pda != m.pda ==> x in t.tracked)
      && (forall pda :: pda != m.pda ==> At(t.chain, pda) == At(v.chain, pda))
  {
    DropRemovesOne(v.tracked, m.pda);
    HandleChain(c, v, m, now, a);
    var t := Handle(c, v, m, now, a).0;
    assert t.tracked == v.tracked || t.tracked == Drop(v.tracked, m.pda);
    if t.chain != v.chain {
      ApplyGrows(v.chain, m, if GivesUp(c, m, now, a) then VoidTx else Bundle(m, a), a.clock);
    }
  }

  lemma HandleChain(c: Setup, v: View, m: Market, now: int, a: Attempt)
    ensures var t := Handle(c, v, m, now, a).0;
      var after := Apply(v.chain, m, if GivesUp(c, m, now, a) then VoidTx else Bundle(m, a), a.clock);
      t.chain == v.chain || (after.Some? && t.chain == after.value)
    ensures var t := Handle(c, v, m, now, a).0;
      t.tracked == v.tracked || (now >= m.referenceTs && t.tracked == Drop(v.tracked, m.pda))
  {
    var w := SettlePrice(c, v, m, now, a).0;
    assert GivesUp(c, m, now, a) ==> w == v;
  }

  /** A void for this address met an open account and did not take effect. */
  predicate Lossy(x: Sent, pda: Pda) { x.tx == VoidTx && x.m.pda == pda && x.before.phase == Open && !x.landed }

  predicate VoidLost(sent: seq<Sent>, pda: Pda) { exists i :: 0 <= i < |sent| && Lossy(sent[i], pda) }

  /** The market exists, and is tracked, final on chain, or let go of by a void that did not take effect. */
  predicate Accounted(v: View, pda: Pda) {
    && AccountAt(v.chain, pda).phase != Absent
    && (Has(v.tracked, pda) || Over(AccountAt(v.chain, pda)) || VoidLost(v.sent, pda))
  }

  lemma MoreSent(sent: seq<Sent>, x: Sent, pda: Pda)
    ensures VoidLost(sent + [x], pda) <==> VoidLost(sent, pda) || Lossy(x, pda)
  {
    var more := sent + [x];
    assert more[|sent|] == x;
    if i :| 0 <= i < |sent| && Lossy(sent[i], pda) { assert more[i] == sent[i]; }
    if i :| 0 <= i < |more| && Lossy(more[i], pda) { assert i < |sent| ==> sent[i] == more[i]; }
  }

  /** The trace after a step has lost a void for the address exactly if it had, or this step loses one. */
  lemma HandleLoses(c: Setup, v: View, m: Market, now: int, a: Attempt, pda: Pda)
    ensures VoidLost(Handle(c, v, m, now, a).0.sent, pda) <==>
      || VoidLost(v.sent, pda)
      || (pda == m.pda && now >= m.referenceTs && !c.dryRun
          && AccountAt(v.chain, pda).phase == Open && GivesUp(c, m, now, a)
          && (a.void == Lost || a.clock <= At(v.chain, pda).closesAt + PROGRAM_GRACE))
  {
    var t := Handle(c, v, m, now, a).0;
    HandleTrace(c, v, m, now, a);
    if t.sent != v.sent {
      MoreSent(v.sent, t.sent[|v.sent|], pda);
      assert t.sent == v.sent + [t.sent[|v.sent|]];
    }
  }

  lemma HandleAccounts(c: Setup, v: View, m: Market, now: int, a: Attempt, pda: Pda)
    requires Distinct(v.tracked) && !c.dryRun && Accounted(v, pda)
    requires m in v.tracked || !Has(v.tracked, m.pda)
    ensures Accounted(Handle(c, v, m, now, a).0, pda)
  {
    var t := Handle(c, v, m, now, a).0;
    HandleFrame(c, v, m, now, a);
    if VoidLost(v.sent, pda) {
      HandleLoses(c, v, m, now, a, pda);
    } else if Has(v.tracked, pda) {
      var i :| 0 <= i < |v.tracked| && v.tracked[i].pda == pda;
      var x := v.tracked[i];
      assert x in v.tracked;
      if x in t.tracked {
        var j :| 0 <= j < |t.tracked| && t.tracked[j] == x;
      } else {
        assert m in v.tracked && pda == m.pda;
        TrackedIsUnique(v.tracked, x, m);
        LetGoIsAccounted(c, v, m, now, a);
      }
    }
  }

  lemma LetGoIsAccounted(c: Setup, v: View, m: Market, now: int, a: Attempt)
    requires Distinct(v.tracked) && m in v.tracked && !c.dryRun && m !in Handle(c, v, m, now, a).0.tracked
    requires AccountAt(v.chain, m.pda).phase != Absent
    ensures Accounted(Handle(c, v, m, now, a).0, m.pda)
  {
    var t := Handle(c, v, m, now, a).0;
    LetGoIff(c, v, m, now, a);
    HandleChain(c, v, m, now, a);
    HandleLoses(c, v, m, now, a, m.pda);
    HandleFrame(c, v, m, now, a);
    if !Over(AccountAt(t.chain, m.pda)) { StrandsIff(c, v, m, now, a); }
  }

  /** At most one transaction, about this market, of a kind that the verdict calls for. */
  lemma HandleTrace(c: Setup, v: View, m: Market, now: int, a: Attempt)
    ensures var t := Handle(c, v, m, now, a).0;
      || (t.sent == v.sent && t.chain == v.chain)
      || (var x := Sent(m, if GivesUp(c, m, now, a) then VoidTx else Bundle(m, a), now, a.candle,
                        AccountAt(v.chain, m.pda), t.chain != v.chain);
          && t.sent == v.sent + [x] && now >= m.referenceTs && !c.dryRun
          && (x.tx.ResolveAndSettleTx? ==> Observe(c, m, now, a) == Observed))
  {
  }

  /**
   In a live keeper a market is let go of exactly when it is given up, or its bundle takes effect before the
   keeper's eyes; and then it is final on chain, or its void was sent and did not take effect.
  */
  lemma LetGoIff(c: Setup, v: View, m: Market, now: int, a: Attempt)
    requires Distinct(v.tracked) && m in v.tracked && now >= m.referenceTs && !c.dryRun
    ensures var t := Handle(c, v, m, now, a).0;
      && (m !in t.tracked <==>
            || GivesUp(c, m, now, a)
            || (Observe(c, m, now, a) == Observed && a.posted && a.settle == Lands
                && Takes(AccountAt(v.chain, m.pda), m)))
      && (m !in t.tracked && !GivesUp(c, m, now, a) ==>
            AccountAt(t.chain, m.pda).phase == Phase.Settled(a.price >= m.pda.threshold))
      && (GivesUp(c, m, now, a) ==>
            t.sent == v.sent + [Sent(m, VoidTx, now, a.candle, AccountAt(v.chain, m.pda), t.chain != v.chain)])
  {
    DropRemovesOne(v.tracked, m.pda);
  }

  /**
   A step strands a market, leaving it open on chain and tracked by nobody, exactly when it gives the
   market up while it is open and the void is lost or comes before the program's own grace is over.
  */
  lemma StrandsIff(c: Setup, v: View, m: Market, now: int, a: Attempt)
    requires Distinct(v.tracked) && m in v.tracked && now >= m.referenceTs && !c.dryRun
    ensures var t := Handle(c, v, m, now, a).0;
      m !in t.tracked && AccountAt(t.chain, m.pda).phase == Open <==>
        && AccountAt(v.chain, m.pda).phase == Open && GivesUp(c, m, now, a)
        && (a.void == Lost || a.clock <= At(v.chain, m.pda).closesAt + PROGRAM_GRACE)
  {
    LetGoIff(c, v, m, now, a);
  }

  /**
   Past the grace period, with the feed and the chain reachable, a Pyth market is let go of exactly when the
   feed had begun and either has no observation for it or the account can still take the bundle.
  */
  lemma GraceReleasesIff(c: Setup, v: View, m: Market, now: int, a: Attempt)
    requires Distinct(v.tracked) && m in v.tracked && !c.dryRun && Increasing(c.feed)
    requires m.oracle == Pyth && !c.attestationMode && now > m.referenceTs + VOID_GRACE
    requires (forall k: nat :: a.online(k)) && a.posted && a.settle == Lands
    ensures m !in Handle(c, v, m, now, a).0.tracked <==>
      && Begun(c.feed, m.referenceTs, now)
      && (InWindowAny(c, m) ==> Takes(AccountAt(v.chain, m.pda), m))
  {
    VerdictIff(c, m, now, a);
    LetGoIff(c, v, m, now, a);
  }

  /** A market that is final on chain, or has a receipt, and has an observation is never let go of. */
  lemma SpentMarketStays(c: Setup, v: View, m: Market, now: int, a: Attempt)
    requires Distinct(v.tracked) && m in v.tracked && !c.dryRun && Increasing(c.feed)
    requires m.oracle == Pyth && !c.attestationMode && InWindowAny(c, m) && Spent(AccountAt(v.chain, m.pda))
    ensures var t := Handle(c, v, m, now, a).0; t.tracked == v.tracked && t.chain == v.chain
  {
    ObservableIsNeverGivenUp(c, m, now, a);
  }

  /** How a market gets spent behind the keeper's back: its own bundle lands while the keeper sees an error. */
  lemma UnseenBundleSpends(c: Setup, v: View, m: Market, now: int, a: Attempt)
    requires Distinct(v.tracked) && m in v.tracked && now >= m.referenceTs && !c.dryRun
    requires Observe(c, m, now, a) == Observed && a.posted && a.settle == LandsUnseen
    requires Takes(AccountAt(v.chain, m.pda), m)
    ensures var t := Handle(c, v, m, now, a).0;
      m in t.tracked && AccountAt(t.chain, m.pda).phase == Phase.Settled(a.price >= m.pda.threshold)
  {
    LetGoIff(c, v, m, now, a);
  }

  // ------------------------------------------------ one market at a time

  /** A step on a market depends on no other market. */
  lemma HandleLocal(c: Setup, u: View, v: View, m: Market, now: int, a: Attempt)
    requires Distinct(u.tracked) && Distinct(v.tracked) && m in u.tracked && m in v.tracked
    requires At(u.chain, m.pda) == At(v.chain, m.pda)
    ensures var s, t := Handle(c, u, m, now, a).0, Handle(c, v, m, now, a).0;
      (m in s.tracked <==> m in t.tracked) && At(s.chain, m.pda) == At(t.chain, m.pda)
  {
    TakenAt(c, u, m, now, a);
    TakenAt(c, v, m, now, a);
    LeavesAt(c, u, m, now, a);
    LeavesAt(c, v, m, now, a);
  }

  /** Whether the market leaves the tracked ones, from its account alone. */
  predicate Leaves(c: Setup, x: OnChain, m: Market, now: int, a: Attempt) {
    now >= m.referenceTs
    && (GivesUp(c, m, now, a)
        || (Observe(c, m, now, a) == Observed
            && (c.dryRun || (a.posted && a.settle == Lands && Takes(x.account, m)))))
  }

  /** The transaction taken by the account, if any. */
  function Taken(c: Setup, x: OnChain, m: Market, now: int, a: Attempt): Option<Account> {
    if now < m.referenceTs || c.dryRun then None
    else if GivesUp(c, m, now, a) then
      (if a.void == Lost then None else Execute(VoidTx, x.account, a.clock > x.closesAt + PROGRAM_GRACE))
    else if Observe(c, m, now, a) == Observed && a.posted && a.settle != Lost then
      Execute(Bundle(m, a), x.account, a.clock > x.closesAt + PROGRAM_GRACE)
    else None
  }

  lemma LeavesAt(c: Setup, v: View, m: Market, now: int, a: Attempt)
    requires Distinct(v.tracked) && m in v.tracked
    ensures m !in Handle(c, v, m, now, a).0.tracked <==> Leaves(c, At(v.chain, m.pda), m, now, a)
  {
    DropRemovesOne(v.tracked, m.pda);
  }

  lemma TakenAt(c: Setup, v: View, m: Market, now: int, a: Attempt)
    ensures var x := At(v.chain, m.pda);
      var y := Taken(c, x, m, now, a);
      At(Handle(c, v, m, now, a).0.chain, m.pda) == if y.None? then x else x.(account := y.value)
  {
  }

  // -------------------------------------------------------------- the class

  /** The context a keeper owns: its tracked markets, over the chain. */
  class Context {
    const setup: Setup
    var tracked: seq<Market>
    var chain: Chain
    ghost var sent: seq<Sent>

    ghost function Abs(): View
      reads this
    {
      View(tracked, chain, sent)
    }

    constructor (setup: Setup, recovered: seq<Market>, chain: Chain)
      ensures this.setup == setup && Abs() == View(recovered, chain, [])
    {
      this.setup, tracked, this.chain, sent := setup, recovered, chain, [];
    }

    method IndexOf(pda: Pda) returns (i: nat)
      ensures i <= |tracked| && (i < |tracked| <==> Has(tracked, pda))
      ensures i < |tracked| ==> tracked[i] == Tracked(tracked, pda)
    {
      i := 0;
      while i < |tracked| && tracked[i].pda != pda
        invariant i <= |tracked|
        invariant forall j :: 0 <= j < i ==> tracked[j].pda != pda
      {
        i := i + 1;
      }
      if i < |tracked| { FirstTracked(tracked, pda, i); }
    }

    method Send(m: Market, tx: Tx, at: int, a: Attempt, fate: TxFate) returns (ok: bool)
      modifies this
      ensures (Abs(), ok) == Submit(old(Abs()), m, tx, at, a, fate)
    {
      var after := Apply(chain, m, tx, a.clock);
      var landed := after.Some? && fate != Lost;
      sent := sent + [Sent(m, tx, at, a.candle, AccountAt(chain, m.pda), landed)];
      if landed { chain := after.value; }
      ok := landed && fate == Lands;
    }

    method EnsurePriceMarket(matchId: seq<int>, ref: int, e: CreateEnv) returns (market: Option<Market>, threw: bool)
      modifies this
      ensures Ensured(Abs(), market, threw) == Ensure(setup, old(Abs()), matchId, ref, e)
    {
      if e.spot.None? { return None, true; }
      var pda := Pda(matchId, e.spot.value);
      var i := IndexOf(pda);
      if i < |tracked| { return Some(tracked[i]), false; }
      if !e.lookupOk { return None, true; }
      var existing := At(chain, pda);
      if existing.account.phase != Absent {
        var m := Market(pda, ref, existing.account.oracle);
        tracked := tracked + [m];
        return Some(m), false;
      }
      if setup.dryRun {
        tracked := tracked + [Market(pda, ref, Pyth)];
        return None, false;
      }
      var m := Market(pda, ref, if setup.attestationMode then Attestation else Pyth);
      if e.fate != Lost {
        chain := chain[pda := OnChain(ref, existing.account.(phase := Open, oracle := m.oracle))];
      }
      if e.fate != Lands { return None, true; }
      tracked := tracked + [m];
      return Some(m), false;
    }

    method SettlePriceMarket(m: Market, now: int, a: Attempt) returns (r: Result)
      modifies this
      ensures (Abs(), r) == Settle(setup, old(Abs()), m, now, a)
    {
      match Observe(setup, m, now, a)
      case Unreachable => return Threw;
      case NotYet => return Pending;
      case Never => return Unresolvable;
      case Unsupported => return NotSupported;
      case Observed =>
        if !setup.dryRun {
          if !a.posted { return Threw; }
          var ok := Send(m, Bundle(m, a), now, a, a.settle);
          if !ok { return Threw; }
        }
        tracked := Drop(tracked, m.pda);
        r := Result.Settled;
    }

    method VoidPriceMarket(m: Market, now: int, a: Attempt)
      modifies this
      ensures Abs() == GiveUp(setup, old(Abs()), m, now, a)
    {
      tracked := Drop(tracked, m.pda);
      if setup.dryRun { return; }
      var _ := Send(m, VoidTx, now, a, a.void);
    }
  }

  lemma {:induction false} FirstTracked(tracked: seq<Market>, pda: Pda, i: nat)
    requires i < |tracked| && tracked[i].pda == pda && forall j :: 0 <= j < i ==> tracked[j].pda != pda
    ensures Tracked(tracked, pda) == tracked[i]
  {
    if i > 0 { FirstTracked(tracked[1..], pda, i - 1); }
  }
}
