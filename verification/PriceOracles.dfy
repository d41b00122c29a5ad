/** What a keeper's step makes of a market, oracle by oracle: settled by an observation, given up, or kept as it is. */
module PriceOracles {
  import opened Basics
  import opened Programs
  import opened PriceFeed
  import opened PriceMarkets
  import PriceLoop
  import WeekLoop

  /** The price observed at the reference time is at least the line. */
  predicate Yes(m: Market, a: Attempt) { a.price >= m.pda.threshold }

  /**
   An observed market is settled to what the observed price says, with a receipt of that by its own oracle, when its
   bundle takes effect on an account that can take it; the keeper lets go of it when it sees that.
  */
  predicate Settles(x: OnChain, y: Account, gone: bool, m: Market, a: Attempt) {
    && (gone <==> a.posted && a.settle == Lands && Takes(x.account, m))
    && y == if a.posted && a.settle != Lost && Takes(x.account, m)
            then Account(Phase.Settled(Yes(m, a)), Some(Receipt(Yes(m, a), m.oracle)), m.oracle)
            else x.account
  }

  /** A market without a proof is let go of once 4500 seconds have passed; the void ends it when it takes effect. */
  predicate GivenUp(x: OnChain, y: Account, gone: bool, m: Market, now: int, a: Attempt) {
    && (gone <==> now > m.referenceTs + 4500)
    && y == if gone && a.void != Lost && x.account.phase == Open && a.clock > x.closesAt + 3600
            then x.account.(phase := Void)
            else x.account
  }

  predicate Untouched(x: OnChain, y: Account, gone: bool) { !gone && y == x.account }

  /** How a step ends for a market, by the oracle it is tracked with: attested, Pyth while it is used, or any other. */
  ghost predicate EndsAs(c: Setup, x: OnChain, y: Account, gone: bool, m: Market, now: int, a: Attempt) {
    if m.oracle == Attestation then
      if a.candle then Settles(x, y, gone, m, a) else GivenUp(x, y, gone, m, now, a)
    else if m.oracle == Pyth && !c.attestationMode then
      (forall k: nat :: a.online(k)) ==>
        if !Begun(c.feed, m.referenceTs, now) then Untouched(x, y, gone)
        else if Observable(c.feed, m.referenceTs, now) then Settles(x, y, gone, m, a)
        else GivenUp(x, y, gone, m, now, a)
    else GivenUp(x, y, gone, m, now, a)
  }

  lemma ObservedStep(c: Setup, v: View, m: Market, now: int, a: Attempt)
    requires Distinct(v.tracked) && m in v.tracked && now >= m.referenceTs && !c.dryRun
    requires Observe(c, m, now, a) == Observed
    ensures var t := Handle(c, v, m, now, a).0;
      Settles(At(v.chain, m.pda), AccountAt(t.chain, m.pda), m !in t.tracked, m, a)
  {
    TakenAt(c, v, m, now, a);
    LeavesAt(c, v, m, now, a);
  }

  lemma UnobservedStep(c: Setup, v: View, m: Market, now: int, a: Attempt)
    requires Distinct(v.tracked) && m in v.tracked && now >= m.referenceTs && !c.dryRun
    requires Observe(c, m, now, a) != Observed && (GivesUp(c, m, now, a) <==> now > m.referenceTs + 4500)
    ensures var t := Handle(c, v, m, now, a).0;
      GivenUp(At(v.chain, m.pda), AccountAt(t.chain, m.pda), m !in t.tracked, m, now, a)
  {
    TakenAt(c, v, m, now, a);
    LeavesAt(c, v, m, now, a);
  }

  lemma UnreachableStep(c: Setup, v: View, m: Market, now: int, a: Attempt)
    requires Distinct(v.tracked) && m in v.tracked && now >= m.referenceTs && !c.dryRun
    requires Observe(c, m, now, a) == Unreachable
    ensures var t := Handle(c, v, m, now, a).0;
      Untouched(At(v.chain, m.pda), AccountAt(t.chain, m.pda), m !in t.tracked)
  {
    TakenAt(c, v, m, now, a);
    LeavesAt(c, v, m, now, a);
  }

  /** One market's step after its reference time, whatever its oracle. */
  lemma StepEndsAs(c: Setup, v: View, m: Market, now: int, a: Attempt)
    requires Distinct(v.tracked) && m in v.tracked && now >= m.referenceTs && !c.dryRun && Increasing(c.feed)
    ensures var t := Handle(c, v, m, now, a).0;
      EndsAs(c, At(v.chain, m.pda), AccountAt(t.chain, m.pda), m !in t.tracked, m, now, a)
  {
    if m.oracle == Pyth && !c.attestationMode && forall k: nat :: a.online(k) {
      ProbeIsComplete(c.feed, m.referenceTs, now, a.online);
    }
    match Observe(c, m, now, a)
    case Observed => ObservedStep(c, v, m, now, a);
    case Unreachable => UnreachableStep(c, v, m, now, a);
    case _ => UnobservedStep(c, v, m, now, a);
  }

  /** The same for every market of a tick of the interval keeper, whatever becomes of the other ones. */
  lemma PriceTickEndsAs(c: PriceLoop.Config, v: View, now: int, create: CreateEnv, attempts: nat -> Attempt, j: nat)
    requires c.interval > 0 && Distinct(v.tracked) && !c.setup.dryRun && Increasing(c.setup.feed) && j < |v.tracked|
    requires now >= v.tracked[j].referenceTs && AccountAt(v.chain, v.tracked[j].pda).phase != Absent
    ensures var m, t := v.tracked[j], PriceLoop.Step(c, v, Tick(now, create, attempts));
      EndsAs(c.setup, At(v.chain, m.pda), AccountAt(t.chain, m.pda), m !in t.tracked, m, now, attempts(j))
  {
    var u := PriceLoop.Created(c, v, now, create);
    PriceLoop.CreatedFrame(c, v, now, create);
    assert u.tracked[j] == v.tracked[j];
    PriceLoop.PassIsLocal(c.setup, u, now, attempts, j);
    StepEndsAs(c.setup, u, v.tracked[j], now, attempts(j));
  }

  /** And for the market of a tick of the weekly keeper. */
  lemma WeekTickEndsAs(c: WeekLoop.Config, s: WeekLoop.State, now: int, create: CreateEnv, attempts: nat -> Attempt)
    requires |s.view.tracked| == 1 && now >= s.view.tracked[0].referenceTs
    requires !c.setup.dryRun && Increasing(c.setup.feed)
    ensures var m, t := s.view.tracked[0], WeekLoop.Step(c, s, Tick(now, create, attempts)).view;
      EndsAs(c.setup, At(s.view.chain, m.pda), AccountAt(t.chain, m.pda), m !in t.tracked, m, now, attempts(0))
  {
    var m := s.view.tracked[0];
    WeekLoop.HandleAllOfOne(c, s, now, attempts);
    WeekLoop.HandleOneChain(c, s, m, now, attempts(0));
    assert WeekLoop.Step(c, s, Tick(now, create, attempts)) == WeekLoop.HandleOne(c, s, m, now, attempts(0)).s;
    StepEndsAs(c.setup, s.view, m, now, attempts(0));
  }

  // --------------------------------------------------- bound and tracked alike

  /** Creating binds the market to the oracle in use and to its closing time; adopting takes the oracle it has. */
  lemma EnsureBinds(c: Setup, v: View, matchId: seq<int>, ref: int, e: CreateEnv)
    requires e.spot.Some? && e.lookupOk && !Has(v.tracked, Pda(matchId, e.spot.value)) && !c.dryRun
    ensures var pda := Pda(matchId, e.spot.value);
      var x, u := At(v.chain, pda), Ensure(c, v, matchId, ref, e).v;
      var oracle := if x.account.phase != Absent then x.account.oracle
                    else if c.attestationMode then Attestation else Pyth;
      && (u.tracked == v.tracked
          + (if x.account.phase != Absent || e.fate == Lands then [Market(pda, ref, oracle)] else []))
      && At(u.chain, pda) == (if x.account.phase != Absent || e.fate == Lost then x
                              else OnChain(ref, Account(Phase.Open, x.account.receipt, oracle)))
  {
  }

  /** Every tracked market is on chain, bound to the oracle it is tracked with. */
  predicate Agrees(v: View) {
    forall x :: x in v.tracked ==>
      AccountAt(v.chain, x.pda).phase != Absent && AccountAt(v.chain, x.pda).oracle == x.oracle
  }

  lemma EnsureAgrees(c: Setup, v: View, matchId: seq<int>, ref: int, e: CreateEnv)
    requires Agrees(v) && !c.dryRun
    ensures Agrees(Ensure(c, v, matchId, ref, e).v)
  {
    EnsureGrows(c, v, matchId, ref, e);
    if e.spot.Some? && e.lookupOk && !Has(v.tracked, Pda(matchId, e.spot.value)) {
      EnsureBinds(c, v, matchId, ref, e);
    }
  }

  lemma FewerAgree(v: View, u: View)
    requires Agrees(v) && Grows(v.chain, u.chain) && forall x :: x in u.tracked ==> x in v.tracked
    ensures Agrees(u)
  {
  }

  lemma PriceStepAgrees(c: PriceLoop.Config, v: View, e: Event)
    requires c.interval > 0 && Distinct(v.tracked) && !c.setup.dryRun && Agrees(v)
    ensures Agrees(PriceLoop.Step(c, v, e))
  {
    match e
    case Tick(now, create, attempts) =>
      var u := PriceLoop.Created(c, v, now, create);
      var ref := PriceLoop.NextBoundary(now, c.interval);
      PriceLoop.CreatedFrame(c, v, now, create);
      EnsureAgrees(c.setup, v, PriceLoop.IdOf(c, ref), ref, create);
      PriceLoop.HandleAllFrame(c.setup, u, u.tracked, now, attempts, 0);
      FewerAgree(u, PriceLoop.Step(c, v, e));
    case Outside(m, tx, clock) =>
      ApplyGrows(v.chain, m, tx, clock);
      FewerAgree(v, PriceLoop.Step(c, v, e));
  }

  /**
   Over every run of the interval keeper, whatever others do, each tracked market is bound on chain to the oracle it
   is tracked with, so a bundle meets the wrong oracle never.
  */
  lemma {:induction false} PriceRunAgrees(c: PriceLoop.Config, v: View, events: seq<Event>)
    requires c.interval > 0 && Distinct(v.tracked) && !c.setup.dryRun && Agrees(v)
    ensures Agrees(PriceLoop.Run(c, v, events))
    decreases |events|
  {
    if events != [] {
      PriceStepAgrees(c, v, events[0]);
      PriceLoop.StepKeepsDistinct(c, v, events[0]);
      PriceRunAgrees(c, PriceLoop.Step(c, v, events[0]), events[1..]);
    }
  }
}
