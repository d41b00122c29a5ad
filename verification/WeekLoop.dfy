/** The weekly keeper's loop over time: which markets a weekly window gets, and when a window ends. */
module WeekLoop {
  import opened Basics
  import opened Programs
  import opened PriceFeed
  import opened PriceMarkets
  import opened WeekKeeper

  datatype Config = Config(setup: Setup, symbol: seq<int>)

  const HOUR := 23

  /** A market this run put on chain, whether or not the keeper saw it land. */
  datatype Creation = Creation(pda: Pda, closeTs: int, at: int, seen: bool)

  datatype State = State(settledWindow: Option<seq<int>>, view: View, created: seq<Creation>)

  /** `tick error` abandons the rest of the tick. */
  datatype Next = Next(s: State, aborted: bool)

  /** A market that turns out to be final already marks its window; a second read releases it. */
  function Adopt(s: State, m: Market, e: CreateEnv): State {
    if !e.statusOk || !Over(AccountAt(s.view.chain, m.pda)) then s
    else
      var t := s.(settledWindow := Some(m.pda.matchId));
      if e.claimOk then t.(view := t.view.(tracked := Drop(t.view.tracked, m.pda))) else t
  }

  function OpenWeek(c: Config, s: State, win: Window, now: int, e: CreateEnv): Next {
    var r := Ensure(c.setup, s.view, win.matchId, win.closeTs, e);
    var made := if r.v.chain == s.view.chain then []
                else [Creation(Pda(win.matchId, e.spot.value), win.closeTs, now, e.fate == Lands)];
    var t := State(s.settledWindow, r.v, s.created + made);
    if r.threw then Next(t, true) else Next(if r.market.Some? then Adopt(t, r.market.value, e) else t, false)
  }

  function HandleOne(c: Config, s: State, m: Market, now: int, a: Attempt): Next {
    if now < m.referenceTs then Next(s, false)
    else
      var (u, r) := Settle(c.setup, s.view, m, now, a);
      if r == Threw then Next(s.(view := u), true)
      else if r == Result.Settled then
        Next(s.(view := u, settledWindow := if c.setup.dryRun then s.settledWindow else Some(m.pda.matchId)), false)
      else if GivesUp(c.setup, m, now, a) then
        Next(s.(view := GiveUp(c.setup, u, m, now, a), settledWindow := Some(m.pda.matchId)), false)
      else Next(s, false)
  }

  function HandleAll(c: Config, s: State, ms: seq<Market>, now: int, attempts: nat -> Attempt, i: nat): State
    requires i <= |ms|
    decreases |ms| - i
  {
    if i == |ms| then s
    else
      var n := HandleOne(c, s, ms[i], now, attempts(i));
      if n.aborted then n.s else HandleAll(c, n.s, ms, now, attempts, i + 1)
  }

  /** Nothing is tracked, and the active window is not marked as done. */
  predicate Idle(c: Config, s: State, now: int) {
    s.view.tracked == [] && s.settledWindow != Some(WindowFor(c.symbol, now, HOUR).matchId)
  }

  function Opened(c: Config, s: State, now: int, e: CreateEnv): Next {
    if Idle(c, s, now) then OpenWeek(c, s, WindowFor(c.symbol, now, HOUR), now, e) else Next(s, false)
  }

  function Step(c: Config, s: State, e: Event): State {
    match e
    case Tick(now, create, attempts) =>
      var n := Opened(c, s, now, create);
      if n.aborted then n.s else HandleAll(c, n.s, n.s.view.tracked, now, attempts, 0)
    case Outside(m, tx, clock) =>
      var after := Apply(s.view.chain, m, tx, clock);
      if after.Some? then s.(view := s.view.(chain := after.value)) else s
  }

  function Run(c: Config, s: State, events: seq<Event>): State
    decreases |events|
  {
    if events == [] then s else Run(c, Step(c, s, events[0]), events[1..])
  }

  /** A keeper that has just recovered its open markets. */
  function Boot(recovered: seq<Market>, chain: Chain): State { State(None, View(recovered, chain, []), []) }

  // --------------------------------------------------------- once per window

  predicate Holds(tracked: seq<Market>, k: Creation) {
    exists i :: 0 <= i < |tracked| && tracked[i].pda.matchId == k.pda.matchId && tracked[i].referenceTs == k.closeTs
  }

  /** A window with a market of this run is over, or held by the one tracked market, or marked as done. */
  predicate Guarded(s: State, k: Creation, clock: int) {
    || clock >= k.closeTs
    || (|s.view.tracked| == 1 && Holds(s.view.tracked, k))
    || (s.view.tracked == [] && s.settledWindow == Some(k.pda.matchId))
  }

  /** A creation is for the window that was active when it was made. */
  predicate OfWindow(c: Config, k: Creation) {
    k.pda.matchId == WindowFor(c.symbol, k.at, HOUR).matchId && k.closeTs == CloseAfter(k.at, HOUR)
  }

  /** Of two markets of one window the earlier landed unseen, and they have different lines. */
  predicate Lined(created: seq<Creation>) {
    forall i, j :: 0 <= i < j < |created| && created[i].pda.matchId == created[j].pda.matchId ==>
      !created[i].seen && created[i].pda.threshold != created[j].pda.threshold
  }

  /** The creation is on record and on chain. */
  predicate OnRecord(c: Config, s: State, k: Creation, clock: int) {
    OfWindow(c, k) && k.at <= clock && AccountAt(s.view.chain, k.pda).phase != Absent
  }

  predicate Once(c: Config, s: State, clock: int) {
    && (forall i :: 0 <= i < |s.created| ==> OnRecord(c, s, s.created[i], clock))
    && (forall i :: 0 <= i < |s.created| && s.created[i].seen ==> Guarded(s, s.created[i], clock))
    && Lined(s.created)
  }

  lemma HandleOneFrame(c: Config, s: State, m: Market, now: int, a: Attempt)
    ensures var n := HandleOne(c, s, m, now, a);
      && n.s.created == s.created && Grows(s.view.chain, n.s.view.chain)
      && (n.s.view.tracked == s.view.tracked
          || (n.s.view.tracked == Drop(s.view.tracked, m.pda)
              && (c.setup.dryRun || n.s.settledWindow == Some(m.pda.matchId))))
      && (n.s.view.tracked != s.view.tracked || n.s.settledWindow in {s.settledWindow, Some(m.pda.matchId)})
  {
    var n := HandleOne(c, s, m, now, a);
    HandleOneChain(c, s, m, now, a);
    if n.s.view.chain != s.view.chain {
      ApplyGrows(s.view.chain, m, if GivesUp(c.setup, m, now, a) then VoidTx else Bundle(m, a), a.clock);
    }
  }

  lemma HandleOneChain(c: Config, s: State, m: Market, now: int, a: Attempt)
    ensures var t := HandleOne(c, s, m, now, a).s;
      t.view == Handle(c.setup, s.view, m, now, a).0 && t.created == s.created
    ensures var chain := HandleOne(c, s, m, now, a).s.view.chain;
      var after := Apply(s.view.chain, m, if GivesUp(c.setup, m, now, a) then VoidTx else Bundle(m, a), a.clock);
      chain == s.view.chain || (after.Some? && chain == after.value)
  {
    HandleChain(c.setup, s.view, m, now, a);
  }

  lemma HandleOnlyOne(c: Config, s: State, now: int, a: Attempt, clock: int)
    requires Once(c, s, clock) && clock <= now && |s.view.tracked| == 1 && (c.setup.dryRun ==> s.created == [])
    ensures var t := HandleOne(c, s, s.view.tracked[0], now, a).s;
      Once(c, t, now) && t.created == s.created && |t.view.tracked| <= 1
  {
    var m := s.view.tracked[0];
    var t := HandleOne(c, s, m, now, a).s;
    HandleOneFrame(c, s, m, now, a);
    DropOnly(s.view.tracked, m.pda);
    forall i | 0 <= i < |t.created| && t.created[i].seen ensures Guarded(t, t.created[i], now) {
      assert Guarded(s, s.created[i], clock);
    }
    forall i | 0 <= i < |t.created| ensures OnRecord(c, t, t.created[i], now) {
      assert OnRecord(c, s, s.created[i], clock);
    }
  }

  lemma {:induction false} HandleAllFrame(c: Config, s: State, ms: seq<Market>, now: int, attempts: nat -> Attempt,
                                          i: nat)
    requires i <= |ms|
    ensures var t := HandleAll(c, s, ms, now, attempts, i);
      t.created == s.created && |t.view.tracked| <= |s.view.tracked| && Grows(s.view.chain, t.view.chain)
    decreases |ms| - i
  {
    if i < |ms| {
      var n := HandleOne(c, s, ms[i], now, attempts(i));
      HandleOneFrame(c, s, ms[i], now, attempts(i));
      DropOnly(s.view.tracked, ms[i].pda);
      HandleAllFrame(c, n.s, ms, now, attempts, i + 1);
      GrowsTrans(s.view.chain, n.s.view.chain, HandleAll(c, n.s, ms, now, attempts, i + 1).view.chain);
    }
  }

  lemma HandleAllOfOne(c: Config, s: State, now: int, attempts: nat -> Attempt)
    requires |s.view.tracked| == 1
    ensures var ms := s.view.tracked;
      HandleAll(c, s, ms, now, attempts, 0) == HandleOne(c, s, ms[0], now, attempts(0)).s
  {
    var n := HandleOne(c, s, s.view.tracked[0], now, attempts(0));
    if !n.aborted { assert HandleAll(c, n.s, s.view.tracked, now, attempts, 1) == n.s; }
  }

  lemma HandleAllKeepsOnce(c: Config, s: State, now: int, attempts: nat -> Attempt, clock: int)
    requires Once(c, s, clock) && clock <= now && (c.setup.dryRun ==> s.created == [])
    ensures Once(c, HandleAll(c, s, s.view.tracked, now, attempts, 0), now)
  {
    var ms := s.view.tracked;
    var t := HandleAll(c, s, ms, now, attempts, 0);
    HandleAllFrame(c, s, ms, now, attempts, 0);
    if |ms| == 1 {
      HandleOnlyOne(c, s, now, attempts(0), clock);
      HandleAllOfOne(c, s, now, attempts);
    } else {
      forall i | 0 <= i < |t.created| && t.created[i].seen ensures Guarded(t, t.created[i], now) {
        assert Guarded(s, s.created[i], clock);
      }
      forall i | 0 <= i < |t.created| ensures OnRecord(c, t, t.created[i], now) {
        assert OnRecord(c, s, s.created[i], clock);
      }
    }
  }

  /** A window whose close is still ahead is the active window, from its creation on. */
  lemma StillActive(c: Config, k: Creation, now: int)
    requires OfWindow(c, k) && k.at <= now
    ensures k.closeTs <= now || k.pda.matchId == WindowFor(c.symbol, now, HOUR).matchId
    ensures k.pda.matchId == WindowFor(c.symbol, now, HOUR).matchId ==> k.closeTs > now
  {
    CloseIsNext(k.at, HOUR);
    CloseIsNext(now, HOUR);
    SameMatchIdIff(c.symbol, k.at, now, HOUR);
  }

  /** In an idle keeper no market of the active window was seen to land, and the windows of all that were are over. */
  lemma IdleMeansUnseen(c: Config, s: State, now: int, clock: int, i: nat)
    requires Once(c, s, clock) && clock <= now && Idle(c, s, now) && i < |s.created| && s.created[i].seen
    ensures s.created[i].closeTs <= now && s.created[i].pda.matchId != WindowFor(c.symbol, now, HOUR).matchId
  {
    assert Guarded(s, s.created[i], clock) && OnRecord(c, s, s.created[i], clock);
    StillActive(c, s.created[i], now);
  }

  /** What opening a window does to the chain and the record. */
  lemma OpenEffect(c: Config, s: State, win: Window, now: int, e: CreateEnv)
    requires s.view.tracked == []
    ensures var t := OpenWeek(c, s, win, now, e).s;
      && |t.view.tracked| <= 1 && Grows(s.view.chain, t.view.chain) && t.view.sent == s.view.sent
      && (if !c.setup.dryRun && e.spot.Some? && e.lookupOk && e.fate != Lost
             && AccountAt(s.view.chain, Pda(win.matchId, e.spot.value)).phase == Absent
          then && t.created == s.created + [Creation(Pda(win.matchId, e.spot.value), win.closeTs, now, e.fate == Lands)]
               && AccountAt(t.view.chain, Pda(win.matchId, e.spot.value)).phase == Phase.Open
               && (e.fate == Lands ==>
                     && t.settledWindow == s.settledWindow && |t.view.tracked| == 1
                     && t.view.tracked[0].pda == Pda(win.matchId, e.spot.value)
                     && t.view.tracked[0].referenceTs == win.closeTs)
          else t.created == s.created && t.view.chain == s.view.chain)
  {
  }

  /** Earlier creations stay on record, and those seen to land are over. */
  lemma OpenKeepsRecord(c: Config, s: State, now: int, e: CreateEnv, clock: int)
    requires Once(c, s, clock) && clock <= now && Idle(c, s, now)
    ensures var t := OpenWeek(c, s, WindowFor(c.symbol, now, HOUR), now, e).s;
      forall i :: 0 <= i < |s.created| ==>
        OnRecord(c, t, s.created[i], now) && (s.created[i].seen ==> Guarded(t, s.created[i], now))
  {
    OpenEffect(c, s, WindowFor(c.symbol, now, HOUR), now, e);
    var t := OpenWeek(c, s, WindowFor(c.symbol, now, HOUR), now, e).s;
    forall i | 0 <= i < |s.created|
      ensures OnRecord(c, t, s.created[i], now) && (s.created[i].seen ==> Guarded(t, s.created[i], now))
    {
      assert OnRecord(c, s, s.created[i], clock);
      if s.created[i].seen { IdleMeansUnseen(c, s, now, clock, i); }
    }
  }

  /** A new market of the window joins only markets of other lines that landed unseen. */
  lemma NewMarketIsLined(c: Config, s: State, now: int, pda: Pda, clock: int)
    requires Once(c, s, clock) && clock <= now && Idle(c, s, now)
    requires AccountAt(s.view.chain, pda).phase == Absent && pda.matchId == WindowFor(c.symbol, now, HOUR).matchId
    ensures forall i :: 0 <= i < |s.created| && s.created[i].pda.matchId == pda.matchId ==>
      !s.created[i].seen && s.created[i].pda.threshold != pda.threshold
  {
    forall i | 0 <= i < |s.created| && s.created[i].pda.matchId == pda.matchId
      ensures !s.created[i].seen && s.created[i].pda.threshold != pda.threshold
    {
      assert OnRecord(c, s, s.created[i], clock);
      if s.created[i].seen { IdleMeansUnseen(c, s, now, clock, i); }
      assert s.created[i].pda != pda;
    }
  }

  lemma NewMarketIsGuarded(c: Config, s: State, now: int, e: CreateEnv, k: Creation)
    requires Idle(c, s, now) && e.spot.Some?
    requires var win := WindowFor(c.symbol, now, HOUR);
      k == Creation(Pda(win.matchId, e.spot.value), win.closeTs, now, e.fate == Lands)
    ensures var t := OpenWeek(c, s, WindowFor(c.symbol, now, HOUR), now, e).s;
      t.created != s.created ==>
        && t.created == s.created + [k] && OnRecord(c, t, k, now) && (k.seen ==> Guarded(t, k, now))
        && AccountAt(s.view.chain, k.pda).phase == Absent
  {
    var win := WindowFor(c.symbol, now, HOUR);
    OpenEffect(c, s, win, now, e);
    var t := OpenWeek(c, s, win, now, e).s;
    if t.created != s.created && e.fate == Lands { assert t.view.tracked[0].pda == k.pda; }
  }

  lemma OneMoreKeepsOnce(c: Config, t: State, created: seq<Creation>, k: Creation, clock: int)
    requires t.created == created + [k] && Lined(t.created)
    requires forall i :: 0 <= i < |created| ==>
      OnRecord(c, t, created[i], clock) && (created[i].seen ==> Guarded(t, created[i], clock))
    requires OnRecord(c, t, k, clock) && (k.seen ==> Guarded(t, k, clock))
    ensures Once(c, t, clock)
  {
  }

  lemma OpenKeepsOnce(c: Config, s: State, now: int, e: CreateEnv, clock: int)
    requires Once(c, s, clock) && clock <= now && Idle(c, s, now)
    ensures Once(c, OpenWeek(c, s, WindowFor(c.symbol, now, HOUR), now, e).s, now)
  {
    var win := WindowFor(c.symbol, now, HOUR);
    var t := OpenWeek(c, s, win, now, e).s;
    OpenKeepsRecord(c, s, now, e, clock);
    if e.spot.Some? && t.created != s.created {
      var k := Creation(Pda(win.matchId, e.spot.value), win.closeTs, now, e.fate == Lands);
      NewMarketIsGuarded(c, s, now, e, k);
      NewMarketIsLined(c, s, now, k.pda, clock);
      LinedAppend(s.created, k);
      OneMoreKeepsOnce(c, t, s.created, k, now);
    }
  }

  lemma LinedAppend(created: seq<Creation>, k: Creation)
    requires Lined(created)
    requires forall i :: 0 <= i < |created| && created[i].pda.matchId == k.pda.matchId ==>
      !created[i].seen && created[i].pda.threshold != k.pda.threshold
    ensures Lined(created + [k])
  {
  }

  /** A dry run never puts anything on chain. */
  predicate DryOrLive(c: Config, s: State) { c.setup.dryRun ==> s.created == [] }

  lemma StepKeepsOnce(c: Config, s: State, e: Event, clock: int)
    requires Once(c, s, clock) && DryOrLive(c, s) && (e.Tick? ==> clock <= e.now)
    ensures var t := Step(c, s, e);
      && Once(c, t, if e.Tick? then e.now else clock) && DryOrLive(c, t)
      && |t.view.tracked| <= if |s.view.tracked| > 1 then |s.view.tracked| else 1
  {
    match e
    case Tick(now, create, attempts) =>
      if Idle(c, s, now) {
        OpenKeepsOnce(c, s, now, create, clock);
        OpenEffect(c, s, WindowFor(c.symbol, now, HOUR), now, create);
      }
      var n := Opened(c, s, now, create);
      assert Once(c, n.s, if Idle(c, s, now) then now else clock);
      HandleAllKeepsOnce(c, n.s, now, attempts, if Idle(c, s, now) then now else clock);
      HandleAllFrame(c, n.s, n.s.view.tracked, now, attempts, 0);
      if !Idle(c, s, now) { assert n.s == s; }
    case Outside(m, tx, clock2) =>
      ApplyGrows(s.view.chain, m, tx, clock2);
      var t := Step(c, s, e);
      forall i | 0 <= i < |t.created| ensures OnRecord(c, t, t.created[i], clock) {
        assert OnRecord(c, s, s.created[i], clock);
      }
      forall i | 0 <= i < |t.created| && t.created[i].seen ensures Guarded(t, t.created[i], clock) {
        assert Guarded(s, s.created[i], clock);
      }
  }

  /** The keeper's clock never runs backwards. */
  predicate Forward(events: seq<Event>, clock: int)
    decreases |events|
  {
    events == [] ||
    if events[0].Tick? then clock <= events[0].now && Forward(events[1..], events[0].now)
    else Forward(events[1..], clock)
  }

  lemma {:induction false} RunKeepsOnce(c: Config, s: State, events: seq<Event>, clock: int)
    requires Once(c, s, clock) && DryOrLive(c, s) && Forward(events, clock)
    ensures Lined(Run(c, s, events).created)
    ensures |Run(c, s, events).view.tracked| <= if |s.view.tracked| > 1 then |s.view.tracked| else 1
    decreases |events|
  {
    if events != [] {
      var e := events[0];
      StepKeepsOnce(c, s, e, clock);
      RunKeepsOnce(c, Step(c, s, e), events[1..], if e.Tick? then e.now else clock);
    }
  }

  /**
   Over every run with a forward clock, from whatever markets a boot recovered and whatever others do on chain:
   at most one confirmed creation per weekly window, nothing after it, and no more markets tracked than
   recovered or one.
  */
  lemma RunCreatesOncePerWindow(c: Config, recovered: seq<Market>, chain: Chain, events: seq<Event>, clock: int)
    requires Forward(events, clock)
    ensures var made := Run(c, Boot(recovered, chain), events).created;
      forall i, j :: 0 <= i < j < |made| && made[i].seen ==> made[i].pda.matchId != made[j].pda.matchId
    ensures |Run(c, Boot(recovered, chain), events).view.tracked| <= if |recovered| > 1 then |recovered| else 1
  {
    RunKeepsOnce(c, Boot(recovered, chain), events, clock);
  }

  /** Of two markets of one window the earlier landed unseen, and the later has another line. */
  lemma LaterMarketsHaveNewLines(c: Config, recovered: seq<Market>, chain: Chain, events: seq<Event>, clock: int)
    requires Forward(events, clock)
    ensures var made := Run(c, Boot(recovered, chain), events).created;
      forall i, j :: 0 <= i < j < |made| && made[i].pda.matchId == made[j].pda.matchId ==>
        !made[i].seen && made[i].pda.threshold != made[j].pda.threshold
  {
    RunKeepsOnce(c, Boot(recovered, chain), events, clock);
  }

  /**
   An idle tick puts a market on chain exactly when spot and lookup answer, its id and line are new, and the create
   takes effect.
  */
  lemma TickCreatesIff(c: Config, s: State, now: int, create: CreateEnv, attempts: nat -> Attempt)
    requires Idle(c, s, now) && !c.setup.dryRun
    ensures var id, t := WindowFor(c.symbol, now, HOUR).matchId, Step(c, s, Tick(now, create, attempts));
      |t.created| > |s.created| <==>
        && create.spot.Some? && create.lookupOk && create.fate != Lost
        && AccountAt(s.view.chain, Pda(id, create.spot.value)).phase == Absent
  {
    var win := WindowFor(c.symbol, now, HOUR);
    OpenEffect(c, s, win, now, create);
    var n := OpenWeek(c, s, win, now, create);
    HandleAllFrame(c, n.s, n.s.view.tracked, now, attempts, 0);
  }

  /** A keeper that is not idle creates nothing. */
  lemma BusyTickCreatesNothing(c: Config, s: State, now: int, create: CreateEnv, attempts: nat -> Attempt)
    requires !Idle(c, s, now)
    ensures Step(c, s, Tick(now, create, attempts)).created == s.created
  {
    HandleAllFrame(c, s, s.view.tracked, now, attempts, 0);
  }

  /** Two ticks of one moment: the first create lands unseen, the second meets a moved price. */
  lemma UnseenLandingDuplicates(c: Config, now: int, calm: nat -> Attempt)
    requires !c.setup.dryRun
    ensures var first := Tick(now, CreateEnv(Some(100), true, LandsUnseen, true, true), calm);
      var second := Tick(now, CreateEnv(Some(101), true, Lands, true, true), calm);
      var made := Run(c, Boot([], map[]), [first, second]).created;
      |made| == 2 && made[0].pda.matchId == made[1].pda.matchId && !made[0].seen && made[1].seen
  {
    var e1, e2 := CreateEnv(Some(100), true, LandsUnseen, true, true), CreateEnv(Some(101), true, Lands, true, true);
    var first, second := Tick(now, e1, calm), Tick(now, e2, calm);
    var s0 := Boot([], map[]);
    var win := WindowFor(c.symbol, now, HOUR);
    var s1 := Step(c, s0, first);
    OpenEffect(c, s0, win, now, e1);
    assert s1 == OpenWeek(c, s0, win, now, e1).s && s1.view.tracked == [] && Idle(c, s1, now);
    assert s1.view.chain.Keys == {Pda(win.matchId, 100)};
    OpenEffect(c, s1, win, now, e2);
    var n := OpenWeek(c, s1, win, now, e2);
    HandleAllFrame(c, n.s, n.s.view.tracked, now, calm, 0);
    assert [first, second][1..] == [second] && [second][1..] == [];
    assert Run(c, s0, [first, second]) == Run(c, s1, [second]) == Step(c, s1, second);
  }

  // ---------------------------------------------------------------- progress

  /** An idle keeper whose window is new on chain opens it, if its create works. */
  lemma TickOpensTheWindow(c: Config, s: State, now: int, create: CreateEnv, attempts: nat -> Attempt)
    requires Idle(c, s, now) && !c.setup.dryRun && create.spot.Some? && create.lookupOk && create.fate == Lands
    requires AccountAt(s.view.chain, Pda(WindowFor(c.symbol, now, HOUR).matchId, create.spot.value)).phase == Absent
    ensures var win, u := WindowFor(c.symbol, now, HOUR), Step(c, s, Tick(now, create, attempts));
      && |u.view.tracked| == 1 && u.view.tracked[0].pda == Pda(win.matchId, create.spot.value)
      && u.view.tracked[0].referenceTs == CloseAfter(now, HOUR) && u.settledWindow == s.settledWindow
      && AccountAt(u.view.chain, Pda(win.matchId, create.spot.value)).phase == Phase.Open
  {
    CloseIsNext(now, HOUR);
    var n := OpenWeek(c, s, WindowFor(c.symbol, now, HOUR), now, create);
    OpenEffect(c, s, WindowFor(c.symbol, now, HOUR), now, create);
    HandleAllOfOne(c, n.s, now, attempts);
    assert Step(c, s, Tick(now, create, attempts)) == n.s;
  }

  /**
   An idle keeper that finds its window's market on chain takes it over and creates nothing.  If that one reads as
   final the window is marked as done, and a second good read releases the market; if not it stays tracked.
  */
  lemma TickAdopts(c: Config, s: State, now: int, create: CreateEnv, attempts: nat -> Attempt)
    requires Idle(c, s, now) && !c.setup.dryRun && create.spot.Some? && create.lookupOk
    requires AccountAt(s.view.chain, Pda(WindowFor(c.symbol, now, HOUR).matchId, create.spot.value)).phase != Absent
    ensures var win, u := WindowFor(c.symbol, now, HOUR), Step(c, s, Tick(now, create, attempts));
      var x := AccountAt(s.view.chain, Pda(win.matchId, create.spot.value));
      var final := create.statusOk && (x.phase.Settled? || x.phase == Void);
      && u.created == s.created && u.view.chain == s.view.chain
      && u.settledWindow == (if final then Some(win.matchId) else s.settledWindow)
      && u.view.tracked == (if final && create.claimOk then []
                            else [Market(Pda(win.matchId, create.spot.value), win.closeTs, x.oracle)])
  {
    CloseIsNext(now, HOUR);
    var n := OpenWeek(c, s, WindowFor(c.symbol, now, HOUR), now, create);
    if |n.s.view.tracked| == 1 { HandleAllOfOne(c, n.s, now, attempts); }
    assert Step(c, s, Tick(now, create, attempts)) == n.s;
  }

  /**
   A tick after the close lets go of the window's market exactly when the market's own step does, and then marks the
   window.
  */
  lemma TickEndsTheWindowIff(c: Config, s: State, now: int, create: CreateEnv, attempts: nat -> Attempt)
    requires |s.view.tracked| == 1 && now >= s.view.tracked[0].referenceTs && !c.setup.dryRun
    ensures var m, u := s.view.tracked[0], Step(c, s, Tick(now, create, attempts));
      && (u.view.tracked == [] <==> Leaves(c.setup, At(s.view.chain, m.pda), m, now, attempts(0)))
      && (u.view.tracked == [] || u.view.tracked == [m])
      && (u.settledWindow == if u.view.tracked == [] then Some(m.pda.matchId) else s.settledWindow)
      && u.created == s.created
  {
    var m := s.view.tracked[0];
    DropOnly(s.view.tracked, m.pda);
    assert s.view.tracked == [m] && Drop([m], m.pda) == [];
    HandleAllOfOne(c, s, now, attempts);
    assert Step(c, s, Tick(now, create, attempts)) == HandleOne(c, s, m, now, attempts(0)).s;
  }

  /**
   Past its grace period, with feed and chain reachable, a Pyth window ends exactly when the feed had begun and
   either has no observation for it or the account is still open and without a receipt.
  */
  lemma GraceEndsTheWindowIff(c: Config, s: State, now: int, create: CreateEnv, attempts: nat -> Attempt)
    requires |s.view.tracked| == 1 && !c.setup.dryRun && Increasing(c.setup.feed)
    requires s.view.tracked[0].oracle == Pyth && !c.setup.attestationMode
    requires now > s.view.tracked[0].referenceTs + VOID_GRACE
    requires (forall k: nat :: attempts(0).online(k)) && attempts(0).posted && attempts(0).settle == Lands
    ensures var m := s.view.tracked[0];
      Step(c, s, Tick(now, create, attempts)).view.tracked == [] <==>
        && Begun(c.setup.feed, m.referenceTs, now)
        && (InWindowAny(c.setup, m) ==>
              Takes(AccountAt(s.view.chain, m.pda), m))
  {
    VerdictIff(c.setup, s.view.tracked[0], now, attempts(0));
    TickEndsTheWindowIff(c, s, now, create, attempts);
  }

  /**
   A tick leaves the open market of a closed window to nobody exactly when it gives it up and the void is lost or
   early.
  */
  lemma TickStrandsIff(c: Config, s: State, now: int, create: CreateEnv, attempts: nat -> Attempt)
    requires |s.view.tracked| == 1 && now >= s.view.tracked[0].referenceTs && !c.setup.dryRun
    requires AccountAt(s.view.chain, s.view.tracked[0].pda).phase == Phase.Open
    ensures var m, a, u := s.view.tracked[0], attempts(0), Step(c, s, Tick(now, create, attempts)).view;
      u.tracked == [] && AccountAt(u.chain, m.pda).phase == Phase.Open <==>
        && GivesUp(c.setup, m, now, a)
        && (a.void == Lost || a.clock <= At(s.view.chain, m.pda).closesAt + PROGRAM_GRACE)
  {
    var m := s.view.tracked[0];
    TickEndsTheWindowIff(c, s, now, create, attempts);
    HandleAllOfOne(c, s, now, attempts);
    HandleOneChain(c, s, m, now, attempts(0));
    StrandsIff(c.setup, s.view, m, now, attempts(0));
  }

  /** An error with the first market ends the tick: nothing has changed, and no other market is looked at. */
  lemma ErrorEndsTheTick(c: Config, s: State, now: int, create: CreateEnv, attempts: nat -> Attempt)
    requires s.view.tracked != [] && now >= s.view.tracked[0].referenceTs
    requires Observe(c.setup, s.view.tracked[0], now, attempts(0)) == Unreachable
    ensures Step(c, s, Tick(now, create, attempts)) == s
  {
  }

  /** A dry run lets go of an observed market without a transaction and leaves its window unmarked. */
  lemma DryTickMarksNothing(c: Config, s: State, now: int, create: CreateEnv, attempts: nat -> Attempt)
    requires |s.view.tracked| == 1 && now >= s.view.tracked[0].referenceTs && c.setup.dryRun
    requires Observe(c.setup, s.view.tracked[0], now, attempts(0)) == Observed
    ensures Step(c, s, Tick(now, create, attempts)) == s.(view := s.view.(tracked := []))
  {
    DropOnly(s.view.tracked, s.view.tracked[0].pda);
    HandleAllOfOne(c, s, now, attempts);
  }

  lemma SpentWindowStep(c: Config, s: State, e: Event, m: Market)
    requires s.view.tracked == [m] && !c.setup.dryRun && Increasing(c.setup.feed)
    requires m.oracle == Pyth && !c.setup.attestationMode && InWindowAny(c.setup, m)
    requires AccountAt(s.view.chain, m.pda).phase != Absent && Spent(AccountAt(s.view.chain, m.pda))
    ensures var t := Step(c, s, e);
      && t.view.tracked == [m] && t.created == s.created
      && AccountAt(t.view.chain, m.pda).phase != Absent && Spent(AccountAt(t.view.chain, m.pda))
  {
    match e
    case Tick(now, create, attempts) =>
      ObservableIsNeverGivenUp(c.setup, m, now, attempts(0));
      HandleAllOfOne(c, s, now, attempts);
      HandleAllFrame(c, s, s.view.tracked, now, attempts, 0);
      var t := HandleOne(c, s, m, now, attempts(0)).s;
      assert Step(c, s, e) == t && t.view.tracked == [m];
    case Outside(x, tx, clock) => ApplyGrows(s.view.chain, x, tx, clock);
  }

  /**
   A tracked Pyth market with an observation that is settled, void or resolved behind the keeper's back blocks it
   for ever: over every later run it stays the one tracked market, and no other week is opened.
  */
  lemma {:induction false} SpentMarketBlocksForEver(c: Config, s: State, events: seq<Event>, m: Market)
    requires s.view.tracked == [m] && !c.setup.dryRun && Increasing(c.setup.feed)
    requires m.oracle == Pyth && !c.setup.attestationMode && InWindowAny(c.setup, m)
    requires AccountAt(s.view.chain, m.pda).phase != Absent && Spent(AccountAt(s.view.chain, m.pda))
    ensures Run(c, s, events).view.tracked == [m] && Run(c, s, events).created == s.created
    decreases |events|
  {
    if events != [] {
      SpentWindowStep(c, s, events[0], m);
      SpentMarketBlocksForEver(c, Step(c, s, events[0]), events[1..], m);
    }
  }

  // --------------------------------------------------------------- the loop

  class Keeper {
    const config: Config
    const ctx: Context
    var settledWindow: Option<seq<int>>
    ghost var created: seq<Creation>

    ghost function Abs(): State
      reads this, ctx
    {
      State(settledWindow, ctx.Abs(), created)
    }

    /** A process that has recovered `recovered` from the chain. */
    constructor (config: Config, recovered: seq<Market>, chain: Chain)
      ensures this.config == config && fresh(ctx) && ctx.setup == config.setup
      ensures Abs() == Boot(recovered, chain)
    {
      this.config, settledWindow, created := config, None, [];
      ctx := new Context(config.setup, recovered, chain);
    }

    method AdoptMarket(m: Market, e: CreateEnv)
      modifies this, ctx
      ensures Abs() == Adopt(old(Abs()), m, e)
    {
      if e.statusOk && Over(AccountAt(ctx.chain, m.pda)) {
        settledWindow := Some(m.pda.matchId);
        if e.claimOk { ctx.tracked := Drop(ctx.tracked, m.pda); }
      }
    }

    method OpenWindow(win: Window, now: int, e: CreateEnv) returns (aborted: bool)
      requires ctx.setup == config.setup
      modifies this, ctx
      ensures Next(Abs(), aborted) == OpenWeek(config, old(Abs()), win, now, e)
    {
      var before := ctx.chain;
      var market, threw := ctx.EnsurePriceMarket(win.matchId, win.closeTs, e);
      if ctx.chain != before {
        created := created + [Creation(Pda(win.matchId, e.spot.value), win.closeTs, now, e.fate == Lands)];
      }
      if threw { return true; }
      if market.Some? { AdoptMarket(market.value, e); }
      aborted := false;
    }

    method SettleOrVoid(m: Market, now: int, a: Attempt) returns (aborted: bool)
      requires ctx.setup == config.setup
      modifies this, ctx
      ensures Next(Abs(), aborted) == HandleOne(config, old(Abs()), m, now, a)
    {
      if now < m.referenceTs { return false; }
      var result := ctx.SettlePriceMarket(m, now, a);
      if result == Threw { return true; }
      if result == Result.Settled {
        if !config.setup.dryRun { settledWindow := Some(m.pda.matchId); }
      } else if (result == Unresolvable || result == NotSupported) && now > m.referenceTs + VOID_GRACE {
        settledWindow := Some(m.pda.matchId);
        ctx.VoidPriceMarket(m, now, a);
      }
      aborted := false;
    }

    method RunTick(now: int, create: CreateEnv, attempts: nat -> Attempt)
      requires ctx.setup == config.setup && now >= 0
      modifies this, ctx
      ensures Abs() == Step(config, old(Abs()), Tick(now, create, attempts))
    {
      var win := WeekWindowFor(config.symbol, now, HOUR);
      if settledWindow != Some(win.matchId) && ctx.tracked == [] {
        var failed := OpenWindow(win, now, create);
        if failed { return; }
      }
      var ms := ctx.tracked;
      for i := 0 to |ms|
        invariant HandleAll(config, Abs(), ms, now, attempts, i)
          == Step(config, old(Abs()), Tick(now, create, attempts))
      {
        var failed := SettleOrVoid(ms[i], now, attempts(i));
        if failed { return; }
      }
    }
  }
}
