/** The interval price keeper over time: what becomes of every market it tracks. */
module PriceLoop {
  import opened Basics
  import opened Programs
  import opened PriceFeed
  import opened PriceMarkets
  import opened Text

  datatype Config = Config(setup: Setup, interval: int, symbol: seq<int>)

  /** The match id of the round that closes at `ref`. */
  function IdOf(c: Config, ref: int): seq<int> { c.symbol + [COLON] + IntText(ref) }

  lemma RoundsHaveOwnIds(c: Config, a: int, b: int)
    requires IdOf(c, a) == IdOf(c, b)
    ensures a == b
  {
    var n := |c.symbol| + 1;
    assert IdOf(c, a)[n..] == IntText(a) && IdOf(c, b)[n..] == IntText(b);
    IntTextRoundTrip(a);
    IntTextRoundTrip(b);
  }

  function NextBoundary(now: int, interval: int): int
    requires interval > 0
  {
    now - now % interval + interval
  }

  /** Rounds close on the next multiple of the interval, strictly in the future. */
  lemma BoundaryIsNext(now: int, interval: int)
    requires interval > 0
    ensures var b := NextBoundary(now, interval);
      b == (now / interval + 1) * interval && now < b <= now + interval
  {
    var q := now / interval;
    assert now == q * interval + now % interval;
    assert (q + 1) * interval == q * interval + interval;
  }

  // ------------------------------------------------------------------ ticks

  /** The markets of a snapshot from number `i` on; an error in one does not keep the loop from the next. */
  function HandleAll(c: Setup, v: View, ms: seq<Market>, now: int, attempts: nat -> Attempt, i: nat): View
    requires i <= |ms|
    decreases |ms| - i
  {
    if i == |ms| then v else HandleAll(c, Handle(c, v, ms[i], now, attempts(i)).0, ms, now, attempts, i + 1)
  }

  /** The match id of the round that closes next. */
  function NextId(c: Config, now: int): seq<int>
    requires c.interval > 0
  {
    IdOf(c, NextBoundary(now, c.interval))
  }

  function Created(c: Config, v: View, now: int, e: CreateEnv): View
    requires c.interval > 0
  {
    var ref := NextBoundary(now, c.interval);
    Ensure(c.setup, v, IdOf(c, ref), ref, e).v
  }

  function Step(c: Config, v: View, e: Event): View
    requires c.interval > 0
  {
    match e
    case Tick(now, create, attempts) =>
      var u := Created(c, v, now, create);
      HandleAll(c.setup, u, u.tracked, now, attempts, 0)
    case Outside(m, tx, clock) =>
      var after := Apply(v.chain, m, tx, clock);
      if after.Some? then v.(chain := after.value) else v
  }

  function Run(c: Config, v: View, events: seq<Event>): View
    requires c.interval > 0
    decreases |events|
  {
    if events == [] then v else Run(c, Step(c, v, events[0]), events[1..])
  }

  // ----------------------------------------------- one market within a tick

  /** The loop so far: markets from `i` on are as they were in `v`, market `j` went its own way if its turn is over. */
  ghost predicate Turn(c: Setup, v: View, u: View, ms: seq<Market>, now: int, a: Attempt, i: nat, j: nat)
    requires j < |ms|
  {
    && Distinct(u.tracked) && (forall x :: x in u.tracked ==> x in ms)
    && Same(u, if i <= j then v else Handle(c, v, ms[j], now, a).0, ms[j])
  }

  /** Two views agree on a market. */
  predicate Same(u: View, v: View, m: Market) {
    && (m in u.tracked <==> m in v.tracked)
    && At(u.chain, m.pda) == At(v.chain, m.pda)
    && (VoidLost(u.sent, m.pda) <==> VoidLost(v.sent, m.pda))
  }

  lemma {:induction false} TurnsPass(c: Setup, v: View, u: View, ms: seq<Market>, now: int, attempts: nat -> Attempt,
                                     i: nat, j: nat)
    requires i <= |ms| && j < |ms| && Distinct(ms) && Distinct(v.tracked) && ms[j] in v.tracked
    requires Turn(c, v, u, ms, now, attempts(j), i, j)
    ensures Turn(c, v, HandleAll(c, u, ms, now, attempts, i), ms, now, attempts(j), |ms|, j)
    decreases |ms| - i
  {
    if i < |ms| {
      HandleFrame(c, u, ms[i], now, attempts(i));
      HandleLoses(c, u, ms[i], now, attempts(i), ms[j].pda);
      if i == j {
        HandleLocal(c, u, v, ms[j], now, attempts(j));
        HandleLoses(c, v, ms[j], now, attempts(j), ms[j].pda);
      }
      TurnsPass(c, v, Handle(c, u, ms[i], now, attempts(i)).0, ms, now, attempts, i + 1, j);
    }
  }

  /** What a tick's settle pass makes of a market is what the market's own step makes of it. */
  lemma PassIsLocal(c: Setup, v: View, now: int, attempts: nat -> Attempt, j: nat)
    requires Distinct(v.tracked) && j < |v.tracked|
    ensures var m, u := v.tracked[j], HandleAll(c, v, v.tracked, now, attempts, 0);
      Same(u, Handle(c, v, m, now, attempts(j)).0, m)
  {
    TurnsPass(c, v, v, v.tracked, now, attempts, 0, j);
  }

  /** Creating adds at most one market, at an address that was not tracked, and changes no existing account. */
  lemma CreatedFrame(c: Config, v: View, now: int, e: CreateEnv)
    requires c.interval > 0 && Distinct(v.tracked)
    ensures var u := Created(c, v, now, e);
      && Distinct(u.tracked) && Grows(v.chain, u.chain) && u.sent == v.sent
      && (u.tracked == v.tracked || (|u.tracked| == |v.tracked| + 1 && u.tracked[..|v.tracked|] == v.tracked))
      && (forall pda :: AccountAt(v.chain, pda).phase != Absent || pda.matchId != NextId(c, now) ==>
            At(u.chain, pda) == At(v.chain, pda))
      && (forall x :: x in u.tracked && x !in v.tracked ==> x.pda.matchId == NextId(c, now))
  {
    EnsureTracks(c.setup, v, NextId(c, now), NextBoundary(now, c.interval), e);
    EnsureGrows(c.setup, v, NextId(c, now), NextBoundary(now, c.interval), e);
  }

  lemma {:induction false} HandleAllFrame(c: Setup, v: View, ms: seq<Market>, now: int, attempts: nat -> Attempt,
                                          i: nat)
    requires i <= |ms| && Distinct(v.tracked)
    ensures var t := HandleAll(c, v, ms, now, attempts, i);
      && Distinct(t.tracked) && Grows(v.chain, t.chain)
      && (forall x :: x in t.tracked ==> x in v.tracked)
      && (forall pda :: (forall j :: i <= j < |ms| ==> ms[j].pda != pda) ==> At(t.chain, pda) == At(v.chain, pda))
    decreases |ms| - i
  {
    if i < |ms| {
      var u := Handle(c, v, ms[i], now, attempts(i)).0;
      HandleFrame(c, v, ms[i], now, attempts(i));
      HandleAllFrame(c, u, ms, now, attempts, i + 1);
      GrowsTrans(v.chain, u.chain, HandleAll(c, u, ms, now, attempts, i + 1).chain);
    }
  }

  // ------------------------------------------------- no market is forgotten

  predicate Carried(v: View, ms: seq<Market>, pda: Pda) {
    Distinct(v.tracked) && (forall x :: x in v.tracked ==> x in ms) && Accounted(v, pda)
  }

  lemma HandleCarries(c: Setup, v: View, ms: seq<Market>, m: Market, now: int, a: Attempt, pda: Pda)
    requires Distinct(ms) && m in ms && Carried(v, ms, pda) && !c.dryRun
    ensures Carried(Handle(c, v, m, now, a).0, ms, pda)
  {
    forall x | x in v.tracked && x.pda == m.pda ensures x == m { TrackedIsUnique(ms, x, m); }
    HandleFrame(c, v, m, now, a);
    HandleAccounts(c, v, m, now, a, pda);
  }

  lemma {:induction false} HandleAllAccounts(c: Setup, v: View, ms: seq<Market>, now: int, attempts: nat -> Attempt,
                                             i: nat, pda: Pda)
    requires i <= |ms| && Distinct(ms) && Carried(v, ms, pda) && !c.dryRun
    ensures Carried(HandleAll(c, v, ms, now, attempts, i), ms, pda)
    decreases |ms| - i
  {
    if i < |ms| {
      HandleCarries(c, v, ms, ms[i], now, attempts(i), pda);
      HandleAllAccounts(c, Handle(c, v, ms[i], now, attempts(i)).0, ms, now, attempts, i + 1, pda);
    }
  }

  lemma StepAccounts(c: Config, v: View, e: Event, pda: Pda)
    requires c.interval > 0 && Distinct(v.tracked) && !c.setup.dryRun && Accounted(v, pda)
    ensures Accounted(Step(c, v, e), pda)
  {
    match e
    case Tick(now, create, attempts) =>
      var u := Created(c, v, now, create);
      CreatedFrame(c, v, now, create);
      if i :| 0 <= i < |v.tracked| && v.tracked[i].pda == pda { assert u.tracked[i] == v.tracked[i]; }
      HandleAllAccounts(c.setup, u, u.tracked, now, attempts, 0, pda);
    case Outside(m, tx, clock) => ApplyGrows(v.chain, m, tx, clock);
  }

  lemma StepKeepsDistinct(c: Config, v: View, e: Event)
    requires c.interval > 0 && Distinct(v.tracked)
    ensures Distinct(Step(c, v, e).tracked)
  {
    if e.Tick? {
      CreatedFrame(c, v, e.now, e.create);
      var u := Created(c, v, e.now, e.create);
      HandleAllFrame(c.setup, u, u.tracked, e.now, e.attempts, 0);
    }
  }

  /**
   Over every run, whatever others do on the chain, a market once tracked is tracked, or final on chain,
   or a void was sent for it that did not take effect.
  */
  lemma {:induction false} RunAccounts(c: Config, v: View, events: seq<Event>, pda: Pda)
    requires c.interval > 0 && Distinct(v.tracked) && !c.setup.dryRun && Accounted(v, pda)
    ensures Accounted(Run(c, v, events), pda)
    decreases |events|
  {
    if events != [] {
      StepAccounts(c, v, events[0], pda);
      StepKeepsDistinct(c, v, events[0]);
      RunAccounts(c, Step(c, v, events[0]), events[1..], pda);
    }
  }

  // -------------------------------------------------------- stranded markets

  /** Open on chain and tracked by nobody. */
  predicate Stranded(v: View, pda: Pda) { !Has(v.tracked, pda) && AccountAt(v.chain, pda).phase == Open }

  /**
   A tick strands a tracked open market exactly when it gives the market up and the void is lost or arrives
   before the program's own grace period is over.
  */
  lemma TickStrandsIff(c: Config, v: View, now: int, create: CreateEnv, attempts: nat -> Attempt, j: nat)
    requires c.interval > 0 && Distinct(v.tracked) && !c.setup.dryRun
    requires j < |v.tracked| && now >= v.tracked[j].referenceTs
    requires AccountAt(v.chain, v.tracked[j].pda).phase == Open
    ensures var m, a := v.tracked[j], attempts(j);
      Stranded(Step(c, v, Tick(now, create, attempts)), m.pda) <==>
        && GivesUp(c.setup, m, now, a)
        && (a.void == Lost || a.clock <= At(v.chain, m.pda).closesAt + PROGRAM_GRACE)
  {
    var m := v.tracked[j];
    var u := Created(c, v, now, create);
    CreatedFrame(c, v, now, create);
    assert u.tracked[j] == m && m in u.tracked;
    PassIsLocal(c.setup, u, now, attempts, j);
    StrandsIff(c.setup, u, m, now, attempts(j));
    var t := HandleAll(c.setup, u, u.tracked, now, attempts, 0);
    HandleAllFrame(c.setup, u, u.tracked, now, attempts, 0);
    if i :| 0 <= i < |t.tracked| && t.tracked[i].pda == m.pda {
      assert t.tracked[i] in t.tracked && t.tracked[i] in u.tracked;
      TrackedIsUnique(u.tracked, t.tracked[i], m);
    }
    if m in t.tracked { var i :| 0 <= i < |t.tracked| && t.tracked[i] == m; }
  }

  /** Somebody else touches this address. */
  predicate Touches(e: Event, pda: Pda) { e.Outside? && e.m.pda == pda }

  lemma StrandedStep(c: Config, v: View, e: Event, pda: Pda)
    requires c.interval > 0 && Distinct(v.tracked) && Stranded(v, pda) && !Touches(e, pda)
    requires e.Tick? ==> pda.matchId != NextId(c, e.now)
    ensures Stranded(Step(c, v, e), pda)
  {
    match e
    case Tick(now, create, attempts) =>
      var u := Created(c, v, now, create);
      CreatedFrame(c, v, now, create);
      forall x | x in u.tracked ensures x.pda != pda {
        if x in v.tracked { var i :| 0 <= i < |v.tracked| && v.tracked[i] == x; }
      }
      HandleAllFrame(c.setup, u, u.tracked, now, attempts, 0);
      var t := HandleAll(c.setup, u, u.tracked, now, attempts, 0);
      forall i | 0 <= i < |t.tracked| ensures t.tracked[i].pda != pda { assert t.tracked[i] in t.tracked; }
    case Outside(m, tx, clock) => ApplyGrows(v.chain, m, tx, clock);
  }

  /** A round that is over is not the next one, at any later time. */
  lemma LaterRoundsDiffer(c: Config, ref: int, now: int)
    requires c.interval > 0 && ref <= now
    ensures IdOf(c, ref) != NextId(c, now)
  {
    BoundaryIsNext(now, c.interval);
    if IdOf(c, ref) == NextId(c, now) { RoundsHaveOwnIds(c, ref, NextBoundary(now, c.interval)); }
  }

  /** Left to itself the keeper never comes back to a stranded market whose round is over. */
  lemma {:induction false} StrandedStays(c: Config, v: View, events: seq<Event>, ref: int, threshold: int)
    requires c.interval > 0 && Distinct(v.tracked) && Stranded(v, Pda(IdOf(c, ref), threshold))
    requires forall i :: 0 <= i < |events| ==>
      !Touches(events[i], Pda(IdOf(c, ref), threshold)) && (events[i].Tick? ==> events[i].now >= ref)
    ensures Stranded(Run(c, v, events), Pda(IdOf(c, ref), threshold))
    decreases |events|
  {
    if events != [] {
      var e := events[0];
      if e.Tick? { LaterRoundsDiffer(c, ref, e.now); }
      StrandedStep(c, v, e, Pda(IdOf(c, ref), threshold));
      StepKeepsDistinct(c, v, e);
      StrandedStays(c, Step(c, v, e), events[1..], ref, threshold);
    }
  }

  /** The keeper's own story of one market: stranded exactly if a void for it met an open account and was lost. */
  ghost predicate Told(v: View, m: Market) {
    && Distinct(v.tracked) && AccountAt(v.chain, m.pda).phase != Absent
    && (forall x :: x in v.tracked && x.pda == m.pda ==> x == m)
    && (Stranded(v, m.pda) <==> VoidLost(v.sent, m.pda))
  }

  lemma {:induction false} QuietPass(c: Setup, v: View, ms: seq<Market>, now: int, attempts: nat -> Attempt, i: nat,
                                     pda: Pda)
    requires i <= |ms| && forall j :: i <= j < |ms| ==> ms[j].pda != pda
    ensures VoidLost(HandleAll(c, v, ms, now, attempts, i).sent, pda) <==> VoidLost(v.sent, pda)
    decreases |ms| - i
  {
    if i < |ms| {
      HandleLoses(c, v, ms[i], now, attempts(i), pda);
      QuietPass(c, Handle(c, v, ms[i], now, attempts(i)).0, ms, now, attempts, i + 1, pda);
    }
  }

  lemma TickTells(c: Config, v: View, now: int, create: CreateEnv, attempts: nat -> Attempt, m: Market)
    requires c.interval > 0 && !c.setup.dryRun && Told(v, m)
    requires now >= m.referenceTs && m.pda.matchId != NextId(c, now)
    ensures Told(Step(c, v, Tick(now, create, attempts)), m)
  {
    var u := Created(c, v, now, create);
    var t := Step(c, v, Tick(now, create, attempts));
    CreatedFrame(c, v, now, create);
    HandleAllFrame(c.setup, u, u.tracked, now, attempts, 0);
    if Has(v.tracked, m.pda) {
      var j :| 0 <= j < |v.tracked| && v.tracked[j].pda == m.pda;
      assert v.tracked[j] in v.tracked && u.tracked[j] == m && m in u.tracked;
      PassIsLocal(c.setup, u, now, attempts, j);
      StrandsIff(c.setup, u, m, now, attempts(j));
      HandleLoses(c.setup, u, m, now, attempts(j), m.pda);
      StrandedMeansGone(t, m);
    } else {
      forall j | 0 <= j < |u.tracked| ensures u.tracked[j].pda != m.pda {
        assert u.tracked[j] in u.tracked;
        if u.tracked[j] in v.tracked { var k :| 0 <= k < |v.tracked| && v.tracked[k] == u.tracked[j]; }
      }
      QuietPass(c.setup, u, u.tracked, now, attempts, 0, m.pda);
      forall j | 0 <= j < |t.tracked| ensures t.tracked[j].pda != m.pda { assert t.tracked[j] in t.tracked; }
    }
  }

  lemma StrandedMeansGone(v: View, m: Market)
    requires forall x :: x in v.tracked && x.pda == m.pda ==> x == m
    ensures Stranded(v, m.pda) <==> m !in v.tracked && AccountAt(v.chain, m.pda).phase == Open
  {
    if i :| 0 <= i < |v.tracked| && v.tracked[i].pda == m.pda { assert v.tracked[i] in v.tracked; }
    if m in v.tracked { var i :| 0 <= i < |v.tracked| && v.tracked[i] == m; }
  }

  /**
   Over every run after the market's round in which nobody else touches it, the market ends up stranded exactly
   if a void for it was sent while it was open and did not take effect.
  */
  lemma {:induction false} RunStrandsIff(c: Config, v: View, events: seq<Event>, m: Market)
    requires c.interval > 0 && !c.setup.dryRun && Told(v, m) && m.pda.matchId == IdOf(c, m.referenceTs)
    requires forall i :: 0 <= i < |events| ==>
      !Touches(events[i], m.pda) && (events[i].Tick? ==> events[i].now >= m.referenceTs)
    ensures Stranded(Run(c, v, events), m.pda) <==> VoidLost(Run(c, v, events).sent, m.pda)
    decreases |events|
  {
    if events != [] {
      var e := events[0];
      match e {
        case Tick(now, create, attempts) =>
          LaterRoundsDiffer(c, m.referenceTs, now);
          TickTells(c, v, now, create, attempts, m);
        case Outside(x, tx, clock) => ApplyGrows(v.chain, x, tx, clock);
      }
      RunStrandsIff(c, Step(c, v, e), events[1..], m);
    }
  }

  const GAP_FEED: seq<int> := [0]
  const LOST_MARKET := Market(Pda([1], 5), 1000, Pyth)

  /** A market of a feed gap, past its grace period, whose void gets lost: nobody tracks it and it stays open. */
  lemma LostVoidStrands(c: Config, a: Attempt, create: CreateEnv)
    requires c.interval > 0 && c.setup == Setup(GAP_FEED, false, false)
    requires (forall k: nat :: a.online(k)) && a.void == Lost && create.spot.None?
    ensures var v := View([LOST_MARKET], map[LOST_MARKET.pda := OnChain(1000, Account(Open, None, Pyth))], []);
      Stranded(Step(c, v, Tick(6000, create, _ => a)), LOST_MARKET.pda)
  {
    var v := View([LOST_MARKET], map[LOST_MARKET.pda := OnChain(1000, Account(Open, None, Pyth))], []);
    assert 0 in GAP_FEED;
    assert Begun(GAP_FEED, 1000, 6000);
    VerdictIff(c.setup, LOST_MARKET, 6000, a);
    TickStrandsIff(c, v, 6000, create, _ => a, 0);
  }

  // ---------------------------------------------------------------- progress

  /** A tick with a spot price and a create that works ends with the next round's market tracked. */
  lemma TickTracksTheNextRound(c: Config, v: View, now: int, create: CreateEnv, attempts: nat -> Attempt)
    requires c.interval > 0 && Distinct(v.tracked)
    requires create.spot.Some? && create.lookupOk && create.fate == Lands
    requires forall x :: x in v.tracked && x.pda.matchId == NextId(c, now) ==> now < x.referenceTs
    ensures Has(Step(c, v, Tick(now, create, attempts)).tracked, Pda(NextId(c, now), create.spot.value))
  {
    var pda := Pda(NextId(c, now), create.spot.value);
    var u := Created(c, v, now, create);
    BoundaryIsNext(now, c.interval);
    CreatedFrame(c, v, now, create);
    EnsureHas(c.setup, v, NextId(c, now), NextBoundary(now, c.interval), create);
    var j :| 0 <= j < |u.tracked| && u.tracked[j].pda == pda
             && (j < |v.tracked| || u.tracked[j].referenceTs == NextBoundary(now, c.interval));
    var m := u.tracked[j];
    assert now < m.referenceTs by {
      if j < |v.tracked| { assert u.tracked[j] == v.tracked[j] && m in v.tracked; }
    }
    FutureMarketStays(c.setup, u, now, attempts, j);
  }

  lemma FutureMarketStays(c: Setup, u: View, now: int, attempts: nat -> Attempt, j: nat)
    requires Distinct(u.tracked) && j < |u.tracked| && now < u.tracked[j].referenceTs
    ensures Has(HandleAll(c, u, u.tracked, now, attempts, 0).tracked, u.tracked[j].pda)
  {
    PassIsLocal(c, u, now, attempts, j);
    var t := HandleAll(c, u, u.tracked, now, attempts, 0);
    assert u.tracked[j] in u.tracked;
    var k :| 0 <= k < |t.tracked| && t.tracked[k] == u.tracked[j];
  }

  /**
   Past its grace period, with feed and chain reachable, a tick lets go of a Pyth market exactly when the feed
   had begun and either has no observation for it or the account is still open and without a receipt.
  */
  lemma TickReleasesIff(c: Config, v: View, now: int, create: CreateEnv, attempts: nat -> Attempt, j: nat)
    requires c.interval > 0 && Distinct(v.tracked) && !c.setup.dryRun && Increasing(c.setup.feed) && j < |v.tracked|
    requires v.tracked[j].oracle == Pyth && !c.setup.attestationMode && now > v.tracked[j].referenceTs + VOID_GRACE
    requires AccountAt(v.chain, v.tracked[j].pda).phase != Absent
    requires (forall k: nat :: attempts(j).online(k)) && attempts(j).posted && attempts(j).settle == Lands
    ensures var m := v.tracked[j];
      m !in Step(c, v, Tick(now, create, attempts)).tracked <==>
        Begun(c.setup.feed, m.referenceTs, now) && (InWindowAny(c.setup, m) ==> Takes(AccountAt(v.chain, m.pda), m))
  {
    var u := Created(c, v, now, create);
    CreatedFrame(c, v, now, create);
    assert u.tracked[j] == v.tracked[j];
    PassIsLocal(c.setup, u, now, attempts, j);
    GraceReleasesIff(c.setup, u, v.tracked[j], now, attempts(j));
  }

  lemma SpentStep(c: Config, v: View, e: Event, m: Market)
    requires c.interval > 0 && Distinct(v.tracked) && !c.setup.dryRun && Increasing(c.setup.feed) && m in v.tracked
    requires m.oracle == Pyth && !c.setup.attestationMode && InWindowAny(c.setup, m)
    requires AccountAt(v.chain, m.pda).phase != Absent && Spent(AccountAt(v.chain, m.pda))
    ensures var t := Step(c, v, e);
      m in t.tracked && AccountAt(t.chain, m.pda).phase != Absent && Spent(AccountAt(t.chain, m.pda))
  {
    match e
    case Tick(now, create, attempts) =>
      var u := Created(c, v, now, create);
      CreatedFrame(c, v, now, create);
      var i :| 0 <= i < |v.tracked| && v.tracked[i] == m;
      assert u.tracked[i] == m && m in u.tracked;
      PassIsLocal(c.setup, u, now, attempts, i);
      SpentMarketStays(c.setup, u, m, now, attempts(i));
    case Outside(x, tx, clock) => ApplyGrows(v.chain, x, tx, clock);
  }

  /**
   A Pyth market with an observation that is settled, void or resolved behind the keeper's back is carried for
   ever: it is tracked over every later run, though no transaction of the keeper can do anything about it.
  */
  lemma {:induction false} SpentMarketIsCarriedForEver(c: Config, v: View, events: seq<Event>, m: Market)
    requires c.interval > 0 && Distinct(v.tracked) && !c.setup.dryRun && Increasing(c.setup.feed) && m in v.tracked
    requires m.oracle == Pyth && !c.setup.attestationMode && InWindowAny(c.setup, m)
    requires AccountAt(v.chain, m.pda).phase != Absent && Spent(AccountAt(v.chain, m.pda))
    ensures m in Run(c, v, events).tracked
    decreases |events|
  {
    if events != [] {
      SpentStep(c, v, events[0], m);
      StepKeepsDistinct(c, v, events[0]);
      SpentMarketIsCarriedForEver(c, Step(c, v, events[0]), events[1..], m);
    }
  }

  // --------------------------------------------------- right transactions

  /** Why a transaction was sent. */
  predicate Justified(c: Setup, x: Sent) {
    && (x.tx == VoidTx ==> Unprovable(c, x.m, x.candle) && x.at > x.m.referenceTs + VOID_GRACE)
    && (x.tx.ResolveAndSettleTx? && x.m.oracle == Pyth ==>
          x.at >= x.m.referenceTs && !c.attestationMode && Observable(c.feed, x.m.referenceTs, x.at))
  }

  predicate AllJustified(c: Setup, sent: seq<Sent>) { forall x :: x in sent ==> Justified(c, x) }

  lemma {:induction false} HandleAllJustified(c: Setup, v: View, ms: seq<Market>, now: int, attempts: nat -> Attempt,
                                              i: nat)
    requires i <= |ms| && Increasing(c.feed) && AllJustified(c, v.sent)
    ensures AllJustified(c, HandleAll(c, v, ms, now, attempts, i).sent)
    decreases |ms| - i
  {
    if i < |ms| {
      HandleTrace(c, v, ms[i], now, attempts(i));
      GivesUpOnlyUnprovable(c, ms[i], now, attempts(i));
      HandleAllJustified(c, Handle(c, v, ms[i], now, attempts(i)).0, ms, now, attempts, i + 1);
    }
  }

  /**
   Over every run each void was sent late enough and for a market that cannot be proved, each bundle with an
   observation.
  */
  lemma {:induction false} RunIsJustified(c: Config, v: View, events: seq<Event>)
    requires c.interval > 0 && Increasing(c.setup.feed) && AllJustified(c.setup, v.sent)
    ensures AllJustified(c.setup, Run(c, v, events).sent)
    decreases |events|
  {
    if events != [] {
      var e := events[0];
      if e.Tick? {
        var u := Created(c, v, e.now, e.create);
        HandleAllJustified(c.setup, u, u.tracked, e.now, e.attempts, 0);
      }
      RunIsJustified(c, Step(c, v, e), events[1..]);
    }
  }

  /**
   With the Pyth oracle selected, over every run from whatever markets the boot recovered, a Pyth-bound market
   is voided only if its window holds no publish time at all and more than 4500 seconds have passed.
  */
  lemma PythVoidsAreRight(c: Config, recovered: seq<Market>, chain: Chain, events: seq<Event>, x: Sent)
    requires c.interval > 0 && Increasing(c.setup.feed) && !c.setup.attestationMode
    requires x in Run(c, View(recovered, chain, []), events).sent && x.tx == VoidTx && x.m.oracle == Pyth
    ensures x.at > x.m.referenceTs + 4500
    ensures forall t :: t in c.setup.feed ==> !(x.m.referenceTs <= t <= x.m.referenceTs + 120)
  {
    RunIsJustified(c, View(recovered, chain, []), events);
    assert Justified(c.setup, x);
    forall t | t in c.setup.feed ensures !(x.m.referenceTs <= t <= x.m.referenceTs + 120) {
      assert !InWindow(t, x.m.referenceTs);
    }
  }

  // --------------------------------------------------------------- the loop

  class PriceKeeper {
    const config: Config
    const ctx: Context

    constructor (config: Config, recovered: seq<Market>, chain: Chain)
      ensures this.config == config && fresh(ctx) && ctx.setup == config.setup
      ensures ctx.Abs() == View(recovered, chain, [])
    {
      this.config := config;
      ctx := new Context(config.setup, recovered, chain);
    }

    method SettleOrVoid(m: Market, now: int, a: Attempt)
      requires ctx.setup == config.setup
      modifies ctx
      ensures ctx.Abs() == Handle(config.setup, old(ctx.Abs()), m, now, a).0
    {
      if now < m.referenceTs { return; }
      var result := ctx.SettlePriceMarket(m, now, a);
      if (result == Unresolvable || result == NotSupported) && now > m.referenceTs + VOID_GRACE {
        ctx.VoidPriceMarket(m, now, a);
      }
    }

    method RunTick(now: int, create: CreateEnv, attempts: nat -> Attempt)
      requires config.interval > 0 && ctx.setup == config.setup
      modifies ctx
      ensures ctx.Abs() == Step(config, old(ctx.Abs()), Tick(now, create, attempts))
    {
      var ref := NextBoundary(now, config.interval);
      var _, _ := ctx.EnsurePriceMarket(IdOf(config, ref), ref, create);
      var ms := ctx.tracked;
      for i := 0 to |ms|
        invariant HandleAll(config.setup, ctx.Abs(), ms, now, attempts, i)
          == Step(config, old(ctx.Abs()), Tick(now, create, attempts))
      {
        SettleOrVoid(ms[i], now, attempts(i));
      }
    }
  }
}
