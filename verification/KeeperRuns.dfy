/** Invariants of every run of the keeper, through retries, housekeeping, crashes and reloads. */
module KeeperRuns {
  import opened Basics
  import opened Programs
  import opened Keeper
  import opened KeeperProofs

  // ------------------------------------------------ what one action can do

  /** The address of the first market in the slot of `p`; empty when there is none. */
  function First(open: seq<OpenMarket>, p: Predicate): string {
    var i := Find(open, p);
    if i == |open| then "" else open[i].marketPda
  }

  /** The address a settlement or void of slot `p` would act on. */
  function Target(s: State, p: Predicate): string { First(s.open, p) }

  lemma SettlementFrame(s: State, pda: string, a: Settlement, e: Env)
    ensures var (t, ok) := SendSettlement(s, pda, a, e);
      && t.open == s.open && t.pending == s.pending && t.file == s.file
      && (ok ==> AccountAt(t.chain, pda).phase == Settled(a.yes))
      && forall k :: k != pda ==> AccountAt(t.chain, k) == AccountAt(s.chain, k)
  {
  }

  /** What a settlement does before its result is booked. */
  lemma DoSettleCases(c: Config, s: State, a: Settlement, e: Env)
    ensures var (t, r) := DoSettle(c, s, a, e);
      var k := Target(s, a.pred);
      && t.pending == s.pending && t.file == s.file
      && (r.Returned? ==> r.marketPda == k)
      && (if r.Returned? && r.success
          then && k != "" && t.open == RemoveAt(s.open, Find(s.open, a.pred))
               && (c.dryRun || AccountAt(t.chain, k).phase == Settled(a.yes))
          else t.open == s.open && (r.Returned? ==> t == s))
  {
    SettlementFrame(s, Target(s, a.pred), a, e);
  }

  // What one action does to the chain: nothing, or what its transactions do.

  lemma CreateChain(c: Config, s: State, p: Predicate, closesIn: int, title: string, e: Env)
    ensures var chain := DoCreate(c, s, p, closesIn, title, e).0.chain;
      chain == s.chain || chain == Send(s, c.pdaOf(p), CreateTx(Txline), e.first, e.graceOver).0.chain
  {
  }

  lemma VoidChain(c: Config, s: State, p: Predicate, e: Env)
    ensures var chain := DoVoid(c, s, p, e).0.chain;
      chain == s.chain || chain == Send(s, Target(s, p), VoidTx, e.first, e.graceOver).0.chain
  {
  }

  lemma SettleChain(c: Config, s: State, a: Settlement, e: Env)
    ensures var chain := Perform(c, s, SettleMarket(a), e).0.chain;
      chain == s.chain || chain == SendSettlement(s, Target(s, a.pred), a, e).0.chain
  {
  }

  /** The three ways a settlement can end: nothing booked, booked as settled, booked for retry. */
  lemma SettleCases(c: Config, s: State, a: Settlement, e: Env)
    ensures var (t, r) := Perform(c, s, SettleMarket(a), e);
      var k := Target(s, a.pred);
      || (!(r.Returned? && r.success) && t.pending == s.pending && t.file == s.file && t.open == s.open)
      || (k != "" && r == Returned(true, k) && t.pending == Delete(s.pending, k)
          && t.file == Some(ToRows(t.pending)) && t.open == RemoveAt(s.open, Find(s.open, a.pred))
          && (c.dryRun || AccountAt(t.chain, k).phase == Settled(a.yes)))
      || (k != "" && r == Returned(false, k) && t == Enqueue(s, a, k, e.now))
  {
    DoSettleCases(c, s, a, e);
  }

  lemma VoidCases(c: Config, s: State, p: Predicate, title: string, e: Env)
    ensures var t := Perform(c, s, VoidMarket(p, title), e).0;
      && t.pending == s.pending && t.file == s.file
      && t.open == if Target(s, p) == "" then s.open else RemoveAt(s.open, Find(s.open, p))
  {
  }

  /** The entry an `Enqueue` leaves under its key, if it does not give up. */
  function Requeued(s: State, a: Settlement, key: string, now: int): Pending {
    var x := Lookup(s.pending, key);
    var n := (if x.Some? then x.value.attempts else 0) + 1;
    Pending(key, a, n, now + Delay(n), if x.Some? then x.value.enqueuedAt else now)
  }

  lemma EnqueueEffect(s: State, a: Settlement, key: string, now: int)
    requires Distinct(s.pending)
    ensures var t := Enqueue(s, a, key, now);
      && Distinct(t.pending) && t.file == Some(ToRows(t.pending))
      && t.open == s.open && t.chain == s.chain && t.sent == s.sent
      && (forall q: Pending :: q.key != key ==> (q in t.pending <==> q in s.pending))
      && (forall q :: q in t.pending && q.key == key ==>
            q == Requeued(s, a, key, now) && now - q.enqueuedAt <= SETTLE_RETRY_GIVE_UP_MS)
      && (now - Requeued(s, a, key, now).enqueuedAt <= SETTLE_RETRY_GIVE_UP_MS ==>
            Requeued(s, a, key, now) in t.pending)
  {
    PutIsUpdate(s.pending, Requeued(s, a, key, now));
    DeleteIsRemoval(s.pending, key);
  }

  // -------------------------------------------- memory and disk stay in step

  lemma PerformKeepsBooks(c: Config, s: State, action: Action, e: Env)
    requires Books(s)
    requires action.SettleMarket? ==> action.s.pred.matchId != ""
    ensures Books(Perform(c, s, action, e).0)
  {
    match action
    case CreateMarket(_, _, _) =>
    case VoidMarket(p, title) => VoidCases(c, s, p, title, e);
    case SettleMarket(a) =>
      var k := Target(s, a.pred);
      SettleCases(c, s, a, e);
      DeleteIsRemoval(s.pending, k);
      EnqueueEffect(s, a, k, e.now);
  }

  lemma RetryRowKeepsBooks(c: Config, s: State, p: Pending, now: int, e: Env)
    requires Books(s) && Restorable(p)
    ensures Books(RetryRow(c, s, p, now, e))
  {
    if p.nextAttemptAt <= now {
      assert Books(Track(s, p));
      PerformKeepsBooks(c, Track(s, p), SettleMarket(p.action), e);
    }
  }

  lemma HousekeepRowKeepsBooks(c: Config, s: State, p: Pending, now: int, e: Env, v: Env)
    requires Books(s) && Restorable(p)
    ensures Books(HousekeepRow(c, s, p, now, e, v))
    ensures now - p.enqueuedAt > SETTLE_RETRY_GIVE_UP_MS ==>
      forall q :: q in HousekeepRow(c, s, p, now, e, v).pending ==> q.key != p.key
  {
    if now - p.enqueuedAt > SETTLE_RETRY_GIVE_UP_MS {
      var (s1, r) := Perform(c, s, SettleMarket(p.action), e);
      PerformKeepsBooks(c, s, SettleMarket(p.action), e);
      var act := VoidMarket(p.action.pred, p.action.title);
      PerformKeepsBooks(c, s1, act, v);
      var s2 := if r.Returned? && r.success && r.marketPda != "" then s1 else Perform(c, s1, act, v).0;
      DeleteIsRemoval(s2.pending, p.key);
    }
  }

  lemma RetryKeepsBooks(c: Config, s: State, rows: seq<Pending>, now: int, envs: nat -> Env, n: nat)
    requires n <= |rows| && Books(s) && forall q :: q in rows ==> Restorable(q)
    ensures Books(Pass(RetryOf(c, rows, now, envs), s, 0, n))
  {
    var inv := (t: State, j: nat) => Books(t);
    var row := RetryOf(c, rows, now, envs);
    forall t, j: nat | j < n && inv(t, j) ensures inv(row(t, j), j + 1) {
      RetryOfRow(c, rows, now, envs, t, j);
      RetryRowKeepsBooks(c, t, rows[j], now, envs(j));
    }
    PassKeeps(row, s, 0, n, inv);
  }

  lemma HousekeepKeepsBooks(c: Config, s: State, rows: seq<Pending>, now: int, envs: nat -> Env, n: nat)
    requires n <= |rows| && Books(s) && forall q :: q in rows ==> Restorable(q)
    ensures Books(Pass(HousekeepOf(c, rows, now, envs), s, 0, n))
  {
    var inv := (t: State, j: nat) => Books(t);
    var row := HousekeepOf(c, rows, now, envs);
    forall t, j: nat | j < n && inv(t, j) ensures inv(row(t, j), j + 1) {
      HousekeepOfRow(c, rows, now, envs, t, j);
      HousekeepRowKeepsBooks(c, t, rows[j], now, envs(2 * j), envs(2 * j + 1));
    }
    PassKeeps(row, s, 0, n, inv);
  }

  /** Settlements name a match; this is all the books need of the outside world. */
  predicate NamesMatch(step: Step) {
    match step
    case Act(SettleMarket(a), _) => a.pred.matchId != ""
    case _ => true
  }

  lemma StepKeepsBooks(c: Config, s: State, step: Step)
    requires Books(s) && NamesMatch(step)
    ensures Books(Next(c, s, step))
  {
    match step
    case Act(action, e) => PerformKeepsBooks(c, s, action, e);
    case Retry(now, envs, count) => RetryKeepsBooks(c, s, s.pending, now, envs, Clip(count, |s.pending|));
    case Housekeep(now, envs, count) => HousekeepKeepsBooks(c, s, s.pending, now, envs, Clip(count, |s.pending|));
    case Reboot(now) => RestartKeepsBooks(s, now);
    case CrashIn(action, e, now) =>
      var s1 := Perform(c, s, action, e).0;
      RestartKeepsBooks(s.(chain := s1.chain, sent := s1.sent), now);
    case Outside(_, _, _) =>
  }

  /** In every reachable state the file holds exactly the pending map, so a reload changes nothing in it. */
  lemma {:induction false} RunKeepsBooks(c: Config, s: State, steps: seq<Step>, now: int)
    requires Books(s)
    requires forall i :: 0 <= i < |steps| ==> NamesMatch(steps[i])
    ensures Books(Run(c, s, steps))
    ensures Restart(Run(c, s, steps), now).pending == Run(c, s, steps).pending
    decreases |steps|
  {
    if steps == [] {
      RestartKeepsBooks(s, now);
    } else {
      StepKeepsBooks(c, s, steps[0]);
      RunKeepsBooks(c, Next(c, s, steps[0]), steps[1..], now);
    }
  }

  // ------------------------------- every pending settlement stays tracked

  type Slot = (string, string)

  function SlotOf(p: Predicate): Slot { (p.kind, p.matchId) }

  /** The slot an address belongs to; a slot may own many addresses, one for each line. */
  type Owner = string -> Slot

  predicate Placed(s: State, back: Owner) {
    && (forall m :: m in s.open ==> back(m.marketPda) == SlotOf(m.p))
    && (forall q :: q in s.pending ==> back(q.key) == SlotOf(q.action.pred))
  }

  /** Every pending settlement is owed to the first market of its slot. */
  predicate Aimed(s: State) {
    forall q :: q in s.pending ==> Target(s, q.action.pred) == q.key
  }

  predicate AllTracked(s: State) {
    forall q :: q in s.pending ==> Tracked(s.open, q.key)
  }

  predicate Sound(s: State, back: Owner) { Books(s) && Placed(s, back) && Aimed(s) }

  lemma SoundTracks(s: State, back: Owner)
    requires Sound(s, back)
    ensures AllTracked(s)
  {
    forall q | q in s.pending ensures Tracked(s.open, q.key) {
      var i := Find(s.open, q.action.pred);
      assert s.open[i] in s.open;
    }
  }

  lemma FirstAfterAppend(open: seq<OpenMarket>, m: OpenMarket, p: Predicate)
    requires First(open, p) != ""
    ensures First(open + [m], p) == First(open, p)
  {
    var i, j := Find(open, p), Find(open + [m], p);
    assert (open + [m])[i] == open[i];
    assert j < |open| ==> (open + [m])[j] == open[j];
  }

  lemma FirstAfterRemove(open: seq<OpenMarket>, i: nat, p: Predicate)
    requires i < |open| && !SameSlot(open[i].p, p)
    ensures First(RemoveAt(open, i), p) == First(open, p)
  {
    var cut := RemoveAt(open, i);
    var f, g := Find(open, p), Find(cut, p);
    if f < |open| { assert cut[if f < i then f else f - 1] == open[f]; }
    if g < |cut| { assert open[if g < i then g else g + 1] == cut[g]; }
  }

  /** Slots are all that matters for the target. */
  lemma FirstOfSlot(open: seq<OpenMarket>, p: Predicate, q: Predicate)
    requires SameSlot(p, q)
    ensures First(open, p) == First(open, q)
  {
  }

  lemma TrackedElsewhere(open: seq<OpenMarket>, i: nat, key: string)
    requires i < |open| && Tracked(open, key) && open[i].marketPda != key
    ensures Tracked(RemoveAt(open, i), key)
  {
    var m :| m in open && m.marketPda == key;
    var j :| 0 <= j < |open| && open[j] == m;
    assert m in open[..i] || m in open[i + 1..];
    assert m in RemoveAt(open, i);
  }

  /** Creates use addresses of their slot, settlements name a match, and the strategy never voids on its own. */
  predicate Permitted(c: Config, action: Action, back: Owner) {
    match action
    case CreateMarket(p, _, _) => back(c.pdaOf(p)) == SlotOf(p)
    case SettleMarket(a) => a.pred.matchId != ""
    case VoidMarket(_, _) => false
  }

  lemma PerformKeepsSound(c: Config, s: State, action: Action, e: Env, back: Owner)
    requires Sound(s, back) && Permitted(c, action, back)
    ensures Sound(Perform(c, s, action, e).0, back)
  {
    PerformKeepsBooks(c, s, action, e);
    match action
    case VoidMarket(_, _) =>
    case CreateMarket(p, closesIn, title) =>
      var m := OpenMarket(p, title, e.now, closesIn, c.pdaOf(p));
      AppendKeepsAim(s, Perform(c, s, action, e).0, m, back);
    case SettleMarket(a) => SettleKeepsAim(c, s, a, e, back);
  }

  lemma AppendKeepsAim(s: State, t: State, m: OpenMarket, back: Owner)
    requires Sound(s, back) && back(m.marketPda) == SlotOf(m.p)
    requires t.open == s.open + [m] && t.pending == s.pending
    ensures Placed(t, back) && Aimed(t)
  {
    forall q | q in t.pending ensures Target(t, q.action.pred) == q.key {
      FirstAfterAppend(s.open, m, q.action.pred);
    }
  }

  /** Pending entries of one key belong to one slot, so two slots never share an entry. */
  lemma KeysTellSlots(s: State, q: Pending, p: Predicate, back: Owner)
    requires Sound(s, back) && q in s.pending
    ensures q.key == Target(s, p) <==> SameSlot(q.action.pred, p)
  {
    if SameSlot(q.action.pred, p) { FirstOfSlot(s.open, q.action.pred, p); }
    if q.key == Target(s, p) { assert s.open[Find(s.open, p)] in s.open; }
  }

  lemma SettleKeepsAim(c: Config, s: State, a: Settlement, e: Env, back: Owner)
    requires Sound(s, back)
    ensures var t := Perform(c, s, SettleMarket(a), e).0; Placed(t, back) && Aimed(t)
  {
    var t := Perform(c, s, SettleMarket(a), e).0;
    var k := Target(s, a.pred);
    SettleCases(c, s, a, e);
    DeleteIsRemoval(s.pending, k);
    EnqueueEffect(s, a, k, e.now);
    if k != "" { assert s.open[Find(s.open, a.pred)] in s.open; }
    forall q | q in t.pending ensures Target(t, q.action.pred) == q.key {
      if q in s.pending {
        KeysTellSlots(s, q, a.pred, back);
        SettleAimsOthers(c, s, a, e, q.action.pred);
      }
    }
  }

  /** A settlement changes no other slot's target. */
  lemma SettleAimsOthers(c: Config, s: State, a: Settlement, e: Env, p: Predicate)
    ensures var t := Perform(c, s, SettleMarket(a), e).0;
      !SameSlot(a.pred, p) || t.open == s.open ==> Target(t, p) == Target(s, p)
  {
    SettleCases(c, s, a, e);
    var i := Find(s.open, a.pred);
    if i < |s.open| && !SameSlot(a.pred, p) { FirstAfterRemove(s.open, i, p); }
  }

  /** A settlement touches no entry but the one of its target. */
  lemma SettleTouchesOwnKey(c: Config, s: State, a: Settlement, e: Env)
    requires Distinct(s.pending)
    ensures forall q: Pending :: q.key != Target(s, a.pred) ==>
      (q in Perform(c, s, SettleMarket(a), e).0.pending <==> q in s.pending)
  {
    var k := Target(s, a.pred);
    SettleCases(c, s, a, e);
    DeleteIsRemoval(s.pending, k);
    EnqueueEffect(s, a, k, e.now);
  }

  // ------------------------------------------------------------- the passes

  /** The rows of a pass from `i` on still aim at their own markets. */
  predicate RowsAimed(s: State, rows: seq<Pending>, i: nat) {
    forall j :: i <= j < |rows| ==> Target(s, rows[j].action.pred) == rows[j].key
  }

  /** Sound, with the rest of a pass still aimed. */
  predicate Steady(s: State, rows: seq<Pending>, i: nat, back: Owner) { Sound(s, back) && RowsAimed(s, rows, i) }

  predicate GoodRows(rows: seq<Pending>, back: Owner) {
    Distinct(rows) && forall r :: r in rows ==> Restorable(r) && back(r.key) == SlotOf(r.action.pred)
  }

  lemma RowsTellSlots(s: State, rows: seq<Pending>, i: nat, j: nat)
    requires i < j < |rows| && Distinct(rows) && RowsAimed(s, rows, i)
    ensures !SameSlot(rows[i].action.pred, rows[j].action.pred)
  {
    if SameSlot(rows[i].action.pred, rows[j].action.pred) {
      FirstOfSlot(s.open, rows[i].action.pred, rows[j].action.pred);
    }
  }

  lemma AimedRowIsTracked(s: State, p: Pending)
    requires Target(s, p.action.pred) == p.key != ""
    ensures Track(s, p) == s
  {
    assert s.open[Find(s.open, p.action.pred)] in s.open;
  }

  lemma RetryRowKeepsSound(c: Config, s: State, rows: seq<Pending>, i: nat, now: int, e: Env, back: Owner)
    requires i < |rows| && GoodRows(rows, back) && Steady(s, rows, i, back)
    ensures Steady(RetryRow(c, s, rows[i], now, e), rows, i + 1, back)
  {
    var p := rows[i];
    AimedRowIsTracked(s, p);
    PerformKeepsSound(c, s, SettleMarket(p.action), e, back);
    var t := RetryRow(c, s, p, now, e);
    forall j | i < j < |rows| ensures Target(t, rows[j].action.pred) == rows[j].key {
      RowsTellSlots(s, rows, i, j);
      SettleAimsOthers(c, s, p.action, e, rows[j].action.pred);
    }
  }

  lemma HousekeepRowKeepsSound(c: Config, s: State, rows: seq<Pending>, i: nat, now: int, e: Env, v: Env, back: Owner)
    requires i < |rows| && GoodRows(rows, back) && Steady(s, rows, i, back)
    ensures Steady(HousekeepRow(c, s, rows[i], now, e, v), rows, i + 1, back)
  {
    var p := rows[i];
    var t := HousekeepRow(c, s, p, now, e, v);
    HousekeepRowKeepsBooks(c, s, p, now, e, v);
    if now - p.enqueuedAt > SETTLE_RETRY_GIVE_UP_MS {
      PerformKeepsSound(c, s, SettleMarket(p.action), e, back);
      HousekeepRowOpen(c, s, p, now, e, v);
      forall q | q in t.pending ensures Target(t, q.action.pred) == q.key && back(q.key) == SlotOf(q.action.pred) {
        HousekeepRowLeavesOthers(c, s, p, now, e, v, q, back);
      }
    }
    forall j | i < j < |rows| ensures Target(t, rows[j].action.pred) == rows[j].key {
      RowsTellSlots(s, rows, i, j);
      HousekeepRowAimsOthers(c, s, p, now, e, v, rows[j].action.pred);
    }
  }

  /** What a given-up row does to the tracked markets: at most the first of its slot goes. */
  lemma HousekeepRowOpen(c: Config, s: State, p: Pending, now: int, e: Env, v: Env)
    ensures var t := HousekeepRow(c, s, p, now, e, v);
      var i := Find(s.open, p.action.pred);
      t.open == s.open || (i < |s.open| && t.open == RemoveAt(s.open, i))
  {
    var s1 := Perform(c, s, SettleMarket(p.action), e).0;
    SettleCases(c, s, p.action, e);
    VoidCases(c, s1, p.action.pred, p.action.title, v);
  }

  lemma HousekeepRowAimsOthers(c: Config, s: State, p: Pending, now: int, e: Env, v: Env, q: Predicate)
    requires !SameSlot(p.action.pred, q)
    ensures Target(HousekeepRow(c, s, p, now, e, v), q) == Target(s, q)
  {
    HousekeepRowOpen(c, s, p, now, e, v);
    var i := Find(s.open, p.action.pred);
    if i < |s.open| { FirstAfterRemove(s.open, i, q); }
  }

  /** Entries that outlive a given-up row were there before, in other slots. */
  lemma HousekeepRowLeavesOthers(c: Config, s: State, p: Pending, now: int, e: Env, v: Env, q: Pending, back: Owner)
    requires Sound(s, back) && Restorable(p) && Target(s, p.action.pred) == p.key
    requires now - p.enqueuedAt > SETTLE_RETRY_GIVE_UP_MS && q in HousekeepRow(c, s, p, now, e, v).pending
    ensures q in s.pending && q.key != p.key
    ensures Target(HousekeepRow(c, s, p, now, e, v), q.action.pred) == q.key && back(q.key) == SlotOf(q.action.pred)
  {
    var s1 := Perform(c, s, SettleMarket(p.action), e).0;
    PerformKeepsBooks(c, s, SettleMarket(p.action), e);
    VoidCases(c, s1, p.action.pred, p.action.title, v);
    DeleteIsRemoval(s1.pending, p.key);
    SettleTouchesOwnKey(c, s, p.action, e);
    KeysTellSlots(s, q, p.action.pred, back);
    HousekeepRowAimsOthers(c, s, p, now, e, v, q.action.pred);
  }

  lemma RetryKeepsSound(c: Config, s: State, rows: seq<Pending>, now: int, envs: nat -> Env, n: nat, back: Owner)
    requires n <= |rows| && GoodRows(rows, back) && Steady(s, rows, 0, back)
    ensures Sound(Pass(RetryOf(c, rows, now, envs), s, 0, n), back)
  {
    var inv := (t: State, j: nat) => Steady(t, rows, j, back);
    var row := RetryOf(c, rows, now, envs);
    forall t, j: nat | j < n && inv(t, j) ensures inv(row(t, j), j + 1) {
      RetryOfRow(c, rows, now, envs, t, j);
      RetryRowKeepsSound(c, t, rows, j, now, envs(j), back);
    }
    PassKeeps(row, s, 0, n, inv);
  }

  lemma HousekeepKeepsSound(c: Config, s: State, rows: seq<Pending>, now: int, envs: nat -> Env, n: nat, back: Owner)
    requires n <= |rows| && GoodRows(rows, back) && Steady(s, rows, 0, back)
    ensures Sound(Pass(HousekeepOf(c, rows, now, envs), s, 0, n), back)
  {
    var inv := (t: State, j: nat) => Steady(t, rows, j, back);
    var row := HousekeepOf(c, rows, now, envs);
    forall t, j: nat | j < n && inv(t, j) ensures inv(row(t, j), j + 1) {
      HousekeepingStaysSteady(c, rows, now, envs, t, j, back);
    }
    PassKeeps(row, s, 0, n, inv);
  }

  lemma HousekeepingStaysSteady(c: Config, rows: seq<Pending>, now: int, envs: nat -> Env, t: State, j: nat,
                                back: Owner)
    requires j < |rows| && GoodRows(rows, back) && Steady(t, rows, j, back)
    ensures Steady(HousekeepOf(c, rows, now, envs)(t, j), rows, j + 1, back)
  {
    HousekeepOfRow(c, rows, now, envs, t, j);
    HousekeepRowKeepsSound(c, t, rows, j, now, envs(2 * j), envs(2 * j + 1), back);
  }

  // ------------------------------------------------------------ the restart

  /** A reload tracks exactly one market for each entry, in the entries' order. */
  lemma {:induction false} LoadedMarkets(s: State, p: seq<Pending>, now: int, i: nat)
    requires i <= |p| == |ToRows(p)| && Distinct(p) && forall q :: q in p ==> Restorable(q)
    requires |s.open| == i && forall j :: 0 <= j < i ==> s.open[j] == MarketOf(p[j])
    ensures var t := LoadRows(s, ToRows(p), now, i);
      |t.open| == |p| && forall j :: 0 <= j < |p| ==> t.open[j] == MarketOf(p[j])
    decreases |p| - i
  {
    if i < |p| {
      assert p[i] in p && FromRow(ToRow(p[i]), now) == p[i];
      var t := LoadRow(s, ToRows(p)[i], now);
      forall m | m in s.open ensures m.marketPda != p[i].key {
        var j :| 0 <= j < i && s.open[j] == m;
      }
      assert t.open == s.open + [MarketOf(p[i])];
      LoadedMarkets(t, p, now, i + 1);
    }
  }

  /** A reload forgets every open market that owes nothing: exactly the pending ones are tracked after it. */
  lemma ReloadTracksOnlyPending(s: State, now: int)
    requires Books(s)
    ensures forall k :: Tracked(Restart(s, now).open, k) <==> exists q :: q in s.pending && q.key == k
  {
    var t, p := Restart(s, now), s.pending;
    if s.file.Some? {
      LoadedMarkets(s.(open := [], pending := []), p, now, 0);
      forall k ensures Tracked(t.open, k) <==> exists q :: q in p && q.key == k {
        if m :| m in t.open && m.marketPda == k {
          var j :| 0 <= j < |p| && t.open[j] == m;
          assert p[j] in p && p[j].key == k;
        }
        if q :| q in p && q.key == k {
          var j :| 0 <= j < |p| && p[j] == q;
          assert t.open[j] in t.open && t.open[j].marketPda == k;
        }
      }
    }
  }

  lemma RestartIsSound(s: State, now: int, back: Owner)
    requires Sound(s, back)
    ensures Sound(Restart(s, now), back)
  {
    var t := Restart(s, now);
    var p := s.pending;
    RestartKeepsBooks(s, now);
    if s.file.Some? {
      LoadedMarkets(s.(open := [], pending := []), p, now, 0);
      forall m | m in t.open ensures back(m.marketPda) == SlotOf(m.p) {
        var j :| 0 <= j < |p| && t.open[j] == m;
        assert p[j] in p;
      }
      forall j | 0 <= j < |p| ensures Target(t, p[j].action.pred) == p[j].key {
        var f := Find(t.open, p[j].action.pred);
        assert SameSlot(t.open[j].p, p[j].action.pred) && p[f] in p && p[j] in p;
        FirstOfSlot(s.open, p[f].action.pred, p[j].action.pred);
      }
    }
  }

  /** Every action of the step, also one that a crash cuts short, is permitted. */
  predicate Allowed(c: Config, step: Step, back: Owner) {
    step.Act? ==> Permitted(c, step.action, back)
  }

  lemma StepKeepsSound(c: Config, s: State, step: Step, back: Owner)
    requires Sound(s, back) && Allowed(c, step, back)
    ensures Sound(Next(c, s, step), back)
  {
    match step
    case Act(action, e) => PerformKeepsSound(c, s, action, e, back);
    case Retry(now, envs, count) => RetryKeepsSound(c, s, s.pending, now, envs, Clip(count, |s.pending|), back);
    case Housekeep(now, envs, count) => HousekeepKeepsSound(c, s, s.pending, now, envs, Clip(count, |s.pending|), back);
    case Reboot(now) => RestartIsSound(s, now, back);
    case CrashIn(action, e, now) =>
      var s1 := Perform(c, s, action, e).0;
      RestartIsSound(s.(chain := s1.chain, sent := s1.sent), now, back);
    case Outside(_, _, _) =>
  }

  lemma {:induction false} RunKeepsSound(c: Config, s: State, steps: seq<Step>, back: Owner)
    requires Sound(s, back)
    requires forall i :: 0 <= i < |steps| ==> Allowed(c, steps[i], back)
    ensures Sound(Run(c, s, steps), back)
    decreases |steps|
  {
    if steps != [] {
      StepKeepsSound(c, s, steps[0], back);
      RunKeepsSound(c, Next(c, s, steps[0]), steps[1..], back);
    }
  }

  /**
   In every state the keeper can reach from an empty start, with any number of lines on a match, each pending
   settlement is owed to the first tracked market of its slot.  So it is tracked, and it is alone in its slot.
  */
  lemma RunKeepsTracked(c: Config, chain: Chain, steps: seq<Step>, back: Owner)
    requires forall i :: 0 <= i < |steps| ==> Allowed(c, steps[i], back)
    ensures var s := Run(c, Boot(chain), steps);
      && AllTracked(s) && Aimed(s)
      && forall q, r :: q in s.pending && r in s.pending && SameSlot(q.action.pred, r.action.pred) ==> q == r
  {
    var s := Run(c, Boot(chain), steps);
    RunKeepsSound(c, Boot(chain), steps, back);
    SoundTracks(s, back);
    forall q, r | q in s.pending && r in s.pending && SameSlot(q.action.pred, r.action.pred) ensures q == r {
      FirstOfSlot(s.open, q.action.pred, r.action.pred);
      SameKeySameEntry(s.pending, q, r);
    }
  }

  /** No market of the slot with another address is tracked before the first one with this address. */
  predicate LeadsItsSlot(open: seq<OpenMarket>, p: Predicate, pda: string) {
    exists j :: 0 <= j < |open| && open[j].marketPda == pda
                && forall i :: 0 <= i < j && SameSlot(open[i].p, p) ==> open[i].marketPda == pda
  }

  /**
   In every reachable state the settlement of a tracked line acts on that line's market exactly when no other line
   leads the slot.
  */
  lemma ActsOnOwnLineIff(c: Config, chain: Chain, steps: seq<Step>, back: Owner, p: Predicate)
    requires (forall i :: 0 <= i < |steps| ==> Allowed(c, steps[i], back)) && back(c.pdaOf(p)) == SlotOf(p)
    requires Tracked(Run(c, Boot(chain), steps).open, c.pdaOf(p))
    ensures var s := Run(c, Boot(chain), steps);
      Target(s, p) == c.pdaOf(p) <==> LeadsItsSlot(s.open, p, c.pdaOf(p))
  {
    var s := Run(c, Boot(chain), steps);
    RunKeepsSound(c, Boot(chain), steps, back);
    LeadsIff(s.open, p, c.pdaOf(p));
  }

  lemma LeadsIff(open: seq<OpenMarket>, p: Predicate, pda: string)
    requires Tracked(open, pda) && forall m :: m in open && m.marketPda == pda ==> SameSlot(m.p, p)
    ensures First(open, p) == pda <==> LeadsItsSlot(open, p, pda)
  {
    var f := Find(open, p);
    var m :| m in open && m.marketPda == pda;
    var k :| 0 <= k < |open| && open[k] == m;
    assert f <= k;
    if j :| 0 <= j < |open| && open[j].marketPda == pda
            && forall i :: 0 <= i < j && SameSlot(open[i].p, p) ==> open[i].marketPda == pda {
      assert open[j] in open && f <= j;
    }
  }

  /** Exactly when dropping a market leaves every pending settlement tracked. */
  lemma VoidKeepsTrackedIff(c: Config, s: State, p: Predicate, e: Env)
    requires AllTracked(s) && Target(s, p) != ""
    ensures AllTracked(DoVoid(c, s, p, e).0) <==>
      Lookup(s.pending, Target(s, p)).None? || Tracked(RemoveAt(s.open, Find(s.open, p)), Target(s, p))
  {
    var i := Find(s.open, p);
    var k := Target(s, p);
    VoidCases(c, s, p, "", e);
    forall q | q in s.pending && q.key != k ensures Tracked(RemoveAt(s.open, i), q.key) {
      TrackedElsewhere(s.open, i, q.key);
    }
  }
}
