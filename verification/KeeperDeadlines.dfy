/** The eight-hour deadline, the backoff schedule, and what may remove a pending settlement. */
module KeeperDeadlines {
  import opened Programs
  import opened Keeper
  import opened KeeperProofs
  import opened KeeperRuns

  // --------------------------------------------- nothing is dropped silently

  /** Final outcomes, receipts and oracles on the chain never change. */
  ghost predicate ChainGrows(a: Chain, b: Chain) {
    forall k: string ::
      && (Over(AccountAt(a, k)) ==> AccountAt(b, k).phase == AccountAt(a, k).phase)
      && (AccountAt(a, k).receipt.Some? ==> AccountAt(b, k).receipt == AccountAt(a, k).receipt)
      && (AccountAt(a, k).phase != Absent ==>
            AccountAt(b, k).phase != Absent && AccountAt(b, k).oracle == AccountAt(a, k).oracle)
  }

  lemma ChainGrowsTrans(a: Chain, b: Chain, d: Chain)
    requires ChainGrows(a, b) && ChainGrows(b, d)
    ensures ChainGrows(a, d)
  {
  }

  lemma SendGrows(s: State, pda: string, tx: Tx, fate: TxFate, graceOver: bool)
    ensures ChainGrows(s.chain, Send(s, pda, tx, fate, graceOver).0.chain)
  {
  }

  lemma SettlementGrows(s: State, pda: string, a: Settlement, e: Env)
    ensures ChainGrows(s.chain, SendSettlement(s, pda, a, e).0.chain)
  {
    match e.packing
    case TooLarge =>
    case Whole => SendGrows(s, pda, ResolveAndSettleTx(ClaimOf(a, e)), e.first, e.graceOver);
    case Split =>
      var s1 := Send(s, pda, ResolveTx(ClaimOf(a, e)), e.first, e.graceOver).0;
      SendGrows(s, pda, ResolveTx(ClaimOf(a, e)), e.first, e.graceOver);
      SendGrows(s, pda, SettleTx(a.yes), e.second, e.graceOver);
      SendGrows(s1, pda, SettleTx(a.yes), e.second, e.graceOver);
      ChainGrowsTrans(s.chain, s1.chain, Send(s1, pda, SettleTx(a.yes), e.second, e.graceOver).0.chain);
  }

  lemma PerformGrows(c: Config, s: State, action: Action, e: Env)
    ensures ChainGrows(s.chain, Perform(c, s, action, e).0.chain)
  {
    match action
    case CreateMarket(p, closesIn, title) =>
      CreateChain(c, s, p, closesIn, title, e);
      SendGrows(s, c.pdaOf(p), CreateTx(Txline), e.first, e.graceOver);
    case VoidMarket(p, _) =>
      VoidChain(c, s, p, e);
      SendGrows(s, Target(s, p), VoidTx, e.first, e.graceOver);
    case SettleMarket(a) =>
      SettleChain(c, s, a, e);
      SettlementGrows(s, Target(s, a.pred), a, e);
  }

  /** `b` is the same debt as `a`, possibly retried since. */
  predicate SameDebt(a: Pending, b: Pending) {
    b.key == a.key && b.enqueuedAt == a.enqueuedAt && b.attempts >= a.attempts
  }

  /** Entry `q` is still owed with its original enqueue time, or settled on chain, or past eight hours at `until`. */
  predicate Accounted(q: Pending, s: State, until: int) {
    || (exists r :: r in s.pending && SameDebt(q, r))
    || AccountAt(s.chain, q.key).phase.Settled?
    || until - q.enqueuedAt > SETTLE_RETRY_GIVE_UP_MS
  }

  lemma AccountedTrans(q: Pending, s: State, t: State, until: int)
    requires Accounted(q, s, until) && ChainGrows(s.chain, t.chain)
    requires forall r :: r in s.pending ==> Accounted(r, t, until)
    ensures Accounted(q, t, until)
  {
    if r :| r in s.pending && SameDebt(q, r) {
      assert Accounted(r, t, until);
      if r2 :| r2 in t.pending && SameDebt(r, r2) {
        assert SameDebt(q, r2);
      }
    }
  }

  lemma SettleAccounts(c: Config, s: State, a: Settlement, e: Env, q: Pending, until: int)
    requires Books(s) && !c.dryRun && e.now <= until && q in s.pending
    ensures Accounted(q, Perform(c, s, SettleMarket(a), e).0, until)
  {
    var k := Target(s, a.pred);
    SettleCases(c, s, a, e);
    DeleteIsRemoval(s.pending, k);
    EnqueueEffect(s, a, k, e.now);
    assert SameDebt(q, q);
    if q.key == k {
      SameKeySameEntry(s.pending, q, Lookup(s.pending, k).value);
      assert SameDebt(q, Requeued(s, a, k, e.now));
    }
  }

  lemma RetryRowAccounts(c: Config, s: State, p: Pending, now: int, e: Env, q: Pending, until: int)
    requires Books(s) && Restorable(p) && !c.dryRun && e.now <= until && q in s.pending
    ensures Accounted(q, RetryRow(c, s, p, now, e), until)
    ensures ChainGrows(s.chain, RetryRow(c, s, p, now, e).chain)
  {
    assert SameDebt(q, q);
    if p.nextAttemptAt <= now {
      SettleAccounts(c, Track(s, p), p.action, e, q, until);
      PerformGrows(c, Track(s, p), SettleMarket(p.action), e);
    }
  }

  lemma HousekeepRowAccounts(c: Config, s: State, p: Pending, now: int, e: Env, v: Env, q: Pending, until: int)
    requires Books(s) && !c.dryRun && e.now <= until && now <= until && q in s.pending
    requires q.key == p.key ==>
      until - q.enqueuedAt > SETTLE_RETRY_GIVE_UP_MS || now - p.enqueuedAt <= SETTLE_RETRY_GIVE_UP_MS
    requires Restorable(p)
    ensures Accounted(q, HousekeepRow(c, s, p, now, e, v), until)
    ensures ChainGrows(s.chain, HousekeepRow(c, s, p, now, e, v).chain)
  {
    assert SameDebt(q, q);
    if now - p.enqueuedAt > SETTLE_RETRY_GIVE_UP_MS {
      var (s1, r) := Perform(c, s, SettleMarket(p.action), e);
      SettleAccounts(c, s, p.action, e, q, until);
      PerformGrows(c, s, SettleMarket(p.action), e);
      PerformKeepsBooks(c, s, SettleMarket(p.action), e);
      var act := VoidMarket(p.action.pred, p.action.title);
      VoidCases(c, s1, p.action.pred, p.action.title, v);
      PerformGrows(c, s1, act, v);
      var s2 := if r.Returned? && r.success && r.marketPda != "" then s1 else Perform(c, s1, act, v).0;
      DeleteIsRemoval(s2.pending, p.key);
      if r1 :| r1 in s1.pending && SameDebt(q, r1) {
        if r1.key != p.key {
          assert r1 in HousekeepRow(c, s, p, now, e, v).pending;
        }
      }
    }
  }

  /** The books are kept, the chain has grown, and every debt of `s` is accounted for. */
  ghost predicate StillOwed(s: State, t: State, until: int) {
    Books(t) && ChainGrows(s.chain, t.chain) && forall q :: q in s.pending ==> Accounted(q, t, until)
  }

  lemma NothingYet(s: State, until: int)
    requires Books(s)
    ensures StillOwed(s, s, until)
  {
    forall q | q in s.pending ensures Accounted(q, s, until) { assert SameDebt(q, q); }
  }

  lemma RetryRowKeepsDebts(c: Config, s: State, t: State, p: Pending, now: int, e: Env, until: int)
    requires StillOwed(s, t, until) && Restorable(p) && !c.dryRun && e.now <= until
    ensures StillOwed(s, RetryRow(c, t, p, now, e), until)
  {
    var u := RetryRow(c, t, p, now, e);
    RetryRowKeepsBooks(c, t, p, now, e);
    RetryRowGrows(c, t, p, now, e);
    ChainGrowsTrans(s.chain, t.chain, u.chain);
    forall q | q in s.pending ensures Accounted(q, u, until) {
      forall r | r in t.pending ensures Accounted(r, u, until) { RetryRowAccounts(c, t, p, now, e, r, until); }
      AccountedTrans(q, t, u, until);
    }
  }

  lemma RetryRowGrows(c: Config, s: State, p: Pending, now: int, e: Env)
    ensures ChainGrows(s.chain, RetryRow(c, s, p, now, e).chain)
  {
    if p.nextAttemptAt <= now { PerformGrows(c, Track(s, p), SettleMarket(p.action), e); }
  }

  lemma RetryKeepsDebts(c: Config, s: State, rows: seq<Pending>, now: int, envs: nat -> Env, n: nat, until: int)
    requires n <= |rows| && Books(s) && !c.dryRun && (forall q :: q in rows ==> Restorable(q))
    requires forall j: nat :: envs(j).now <= until
    ensures StillOwed(s, Pass(RetryOf(c, rows, now, envs), s, 0, n), until)
  {
    var inv := (t: State, j: nat) => StillOwed(s, t, until);
    var row := RetryOf(c, rows, now, envs);
    forall t, j: nat | j < n && inv(t, j) ensures inv(row(t, j), j + 1) {
      RetryOfRow(c, rows, now, envs, t, j);
      RetryRowKeepsDebts(c, s, t, rows[j], now, envs(j), until);
    }
    NothingYet(s, until);
    PassKeeps(row, s, 0, n, inv);
  }

  /** A row that is given up releases its own debt only, and that one is past its time. */
  lemma HousekeepRowKeepsDebts(c: Config, s: State, t: State, rows: seq<Pending>, i: nat, now: int, e: Env, v: Env,
                               until: int)
    requires StillOwed(s, t, until) && rows == s.pending && Distinct(rows) && i < |rows|
    requires Restorable(rows[i]) && !c.dryRun && e.now <= until && now <= until
    ensures StillOwed(s, HousekeepRow(c, t, rows[i], now, e, v), until)
  {
    var p := rows[i];
    var u := HousekeepRow(c, t, p, now, e, v);
    HousekeepRowKeepsBooks(c, t, p, now, e, v);
    HousekeepRowGrows(c, t, p, now, e, v);
    ChainGrowsTrans(s.chain, t.chain, u.chain);
    forall q | q in s.pending ensures Accounted(q, u, until) {
      assert Accounted(q, t, until);
      if q0 :| q0 in t.pending && SameDebt(q, q0) {
        if q0.key == p.key { SameKeySameEntry(rows, q, p); }
        HousekeepRowAccounts(c, t, p, now, e, v, q0, until);
        if r :| r in u.pending && SameDebt(q0, r) { assert SameDebt(q, r); }
      }
    }
  }

  lemma HousekeepRowGrows(c: Config, s: State, p: Pending, now: int, e: Env, v: Env)
    ensures ChainGrows(s.chain, HousekeepRow(c, s, p, now, e, v).chain)
  {
    var s1 := Perform(c, s, SettleMarket(p.action), e).0;
    PerformGrows(c, s, SettleMarket(p.action), e);
    PerformGrows(c, s1, VoidMarket(p.action.pred, p.action.title), v);
  }

  lemma HousekeepKeepsDebts(c: Config, s: State, now: int, envs: nat -> Env, n: nat, until: int)
    requires n <= |s.pending| && Books(s) && !c.dryRun && now <= until && forall j: nat :: envs(j).now <= until
    ensures StillOwed(s, Pass(HousekeepOf(c, s.pending, now, envs), s, 0, n), until)
  {
    var inv := (t: State, j: nat) => StillOwed(s, t, until);
    var rows := s.pending;
    var row := HousekeepOf(c, rows, now, envs);
    forall t, j: nat | j < n && inv(t, j) ensures inv(row(t, j), j + 1) {
      HousekeepOfRow(c, rows, now, envs, t, j);
      HousekeepRowKeepsDebts(c, s, t, rows, j, now, envs(2 * j), envs(2 * j + 1), until);
    }
    NothingYet(s, until);
    PassKeeps(row, s, 0, n, inv);
  }

  /** No clock reading of the step is later than `until`. */
  ghost predicate Before(step: Step, until: int) {
    match step
    case Act(_, e) => e.now <= until
    case Retry(now, envs, _) => now <= until && forall i: nat :: envs(i).now <= until
    case Housekeep(now, envs, _) => now <= until && forall i: nat :: envs(i).now <= until
    case Reboot(now) => now <= until
    case CrashIn(_, e, now) => e.now <= until && now <= until
    case Outside(_, _, _) => true
  }

  lemma StepAccounts(c: Config, s: State, step: Step, until: int)
    requires Books(s) && !c.dryRun && Before(step, until)
    ensures ChainGrows(s.chain, Next(c, s, step).chain)
    ensures forall q :: q in s.pending ==> Accounted(q, Next(c, s, step), until)
  {
    var t := Next(c, s, step);
    forall q | q in s.pending ensures SameDebt(q, q) {}
    match step
    case Act(action, e) =>
      PerformGrows(c, s, action, e);
      forall q | q in s.pending ensures Accounted(q, t, until) {
        match action
        case SettleMarket(a) => SettleAccounts(c, s, a, e, q, until);
        case CreateMarket(_, _, _) => assert t.pending == s.pending;
        case VoidMarket(p, title) => VoidCases(c, s, p, title, e);
      }
    case Retry(now, envs, count) =>
      RetryKeepsDebts(c, s, s.pending, now, envs, Clip(count, |s.pending|), until);
    case Housekeep(now, envs, count) =>
      HousekeepKeepsDebts(c, s, now, envs, Clip(count, |s.pending|), until);
    case Reboot(now) => RestartKeepsBooks(s, now);
    case CrashIn(action, e, now) =>
      var s1 := Perform(c, s, action, e).0;
      PerformGrows(c, s, action, e);
      RestartKeepsBooks(s.(chain := s1.chain, sent := s1.sent), now);
    case Outside(_, _, _) =>
  }

  /**
   Over every run, crashes and reloads included, a pending settlement keeps its key and its
   original enqueue time until its market is settled on chain or it is more than eight hours old.
  */
  lemma {:induction false} NothingDroppedSilently(c: Config, s: State, steps: seq<Step>, until: int)
    requires Books(s) && !c.dryRun
    requires forall i :: 0 <= i < |steps| ==> NamesMatch(steps[i]) && Before(steps[i], until)
    ensures ChainGrows(s.chain, Run(c, s, steps).chain)
    ensures forall q :: q in s.pending ==> Accounted(q, Run(c, s, steps), until)
    decreases |steps|
  {
    var t := Run(c, s, steps);
    if steps == [] {
      forall q | q in s.pending ensures Accounted(q, t, until) { assert SameDebt(q, q); }
    } else {
      var s1 := Next(c, s, steps[0]);
      StepKeepsBooks(c, s, steps[0]);
      StepAccounts(c, s, steps[0], until);
      NothingDroppedSilently(c, s1, steps[1..], until);
      forall q | q in s.pending ensures Accounted(q, t, until) {
        AccountedTrans(q, s1, t, until);
      }
    }
  }

  // ------------------------------------------------- housekeeping cleans up

  predicate Aged(q: Pending, now: int) { now - q.enqueuedAt > SETTLE_RETRY_GIVE_UP_MS }

  /** Every aged entry is still to be handled. */
  predicate AgedAhead(s: State, rows: seq<Pending>, i: nat, now: int)
    requires i <= |rows|
  {
    Books(s) && forall q :: q in s.pending && Aged(q, now) ==> q in rows[i..]
  }

  lemma HousekeepRowClears(c: Config, s: State, rows: seq<Pending>, i: nat, now: int, e: Env, v: Env)
    requires i < |rows| && AgedAhead(s, rows, i, now) && Restorable(rows[i]) && e.now >= now
    ensures AgedAhead(HousekeepRow(c, s, rows[i], now, e, v), rows, i + 1, now)
  {
    var p := rows[i];
    HousekeepRowKeepsBooks(c, s, p, now, e, v);
    assert rows[i..] == [p] + rows[i + 1..];
    if Aged(p, now) {
      var k := Target(s, p.action.pred);
      SettleCases(c, s, p.action, e);
      DeleteIsRemoval(s.pending, k);
      EnqueueEffect(s, p.action, k, e.now);
      var t := Perform(c, s, SettleMarket(p.action), e).0;
      PerformKeepsBooks(c, s, SettleMarket(p.action), e);
      VoidCases(c, t, p.action.pred, p.action.title, v);
      DeleteIsRemoval(t.pending, p.key);
    }
  }

  /** After a whole housekeeping pass no entry older than eight hours at its start is left. */
  lemma HousekeepPassClears(c: Config, s: State, now: int, envs: nat -> Env, count: nat)
    requires Books(s) && count >= |s.pending|
    requires forall j: nat :: envs(j).now >= now
    ensures forall q :: q in Next(c, s, Housekeep(now, envs, count)).pending ==> !Aged(q, now)
  {
    var rows := s.pending;
    var n := |rows|;
    var inv := (t: State, j: nat) => j <= n && AgedAhead(t, rows, j, now);
    var row := HousekeepOf(c, rows, now, envs);
    forall t, j: nat | j < n && inv(t, j) ensures inv(row(t, j), j + 1) {
      HousekeepOfRow(c, rows, now, envs, t, j);
      HousekeepRowClears(c, t, rows, j, now, envs(2 * j), envs(2 * j + 1));
    }
    assert rows[0..] == rows && rows[n..] == [];
    PassKeeps(row, s, 0, n, inv);
    assert AgedAhead(Pass(row, s, 0, n), rows, n, now);
  }

  // --------------------------------------------------- the backoff schedule

  lemma {:induction false} Pow2Grows(n: nat, m: nat)
    requires n <= m
    ensures Pow2(n) <= Pow2(m)
    decreases m - n
  {
    if n < m { Pow2Grows(n, m - 1); }
  }

  /** Stored delays run from five to thirty minutes and never shrink. */
  lemma DelaysGrow(n: int, m: int)
    requires n <= m
    ensures 300000 <= Delay(n) <= Delay(m) <= 1800000
    ensures n <= 1 ==> Delay(n) == 300000
    ensures n == 2 ==> Delay(n) == 600000
    ensures n == 3 ==> Delay(n) == 1200000
    ensures m >= 4 ==> Delay(m) == 1800000
  {
    Pow2Grows(if n <= 1 then 0 else n - 1, if m <= 1 then 0 else m - 1);
    assert Pow2(2) == 2 * Pow2(1) == 4 * Pow2(0);
    if m >= 4 {
      Pow2Grows(3, m - 1);
      assert Pow2(3) == 2 * Pow2(2) == 4 * Pow2(1) == 8 * Pow2(0);
    }
  }

  function SumDelay(n: nat): int { if n == 0 then 0 else SumDelay(n - 1) + Delay(n) }

  lemma {:induction false} SumDelayValue(n: nat)
    requires n >= 3
    ensures SumDelay(n) == SETTLE_RETRY_INITIAL_MS * 7 + (n - 3) * SETTLE_RETRY_MAX_MS
  {
    if n == 3 {
      assert Pow2(0) == 1 && Pow2(1) == 2 && Pow2(2) == 4;
      assert SumDelay(3) == SumDelay(2) + Delay(3) == SumDelay(1) + Delay(2) + Delay(3);
      assert SumDelay(1) == SumDelay(0) + Delay(1);
    } else {
      SumDelayValue(n - 1);
      DelaysGrow(n, n);
    }
  }

  const MAX_ATTEMPTS := 18

  predicate OnSchedule(q: Pending) {
    1 <= q.attempts <= MAX_ATTEMPTS && q.nextAttemptAt >= q.enqueuedAt + SumDelay(q.attempts)
  }

  predicate Scheduled(s: State) { forall q :: q in s.pending ==> OnSchedule(q) }

  /** Re-booking an entry that is due, or a new one, keeps it on schedule: eight hours hold at most 18 attempts. */
  lemma RequeueOnSchedule(s: State, a: Settlement, key: string, now: int)
    requires Scheduled(s)
    requires forall q :: q in s.pending && q.key == key ==> q.nextAttemptAt <= now
    requires now - Requeued(s, a, key, now).enqueuedAt <= SETTLE_RETRY_GIVE_UP_MS
    ensures OnSchedule(Requeued(s, a, key, now))
  {
    var r := Requeued(s, a, key, now);
    var x := Lookup(s.pending, key);
    if x.Some? {
      if x.value.attempts >= 18 { SumDelayValue(x.value.attempts); }
      assert SumDelay(r.attempts) == SumDelay(x.value.attempts) + Delay(r.attempts);
    } else {
      assert SumDelay(1) == SumDelay(0) + Delay(1);
    }
  }

  /** An entry re-booked early falls off the schedule: it stays on it exactly when its delays had run out. */
  lemma RequeueOnScheduleIff(s: State, a: Settlement, key: string, now: int)
    requires Lookup(s.pending, key).Some? && Lookup(s.pending, key).value.attempts >= 1
    ensures var x := Lookup(s.pending, key).value;
      OnSchedule(Requeued(s, a, key, now)) <==> x.attempts < MAX_ATTEMPTS && now >= x.enqueuedAt + SumDelay(x.attempts)
  {
    var x, r := Lookup(s.pending, key).value, Requeued(s, a, key, now);
    assert SumDelay(r.attempts) == SumDelay(x.attempts) + Delay(r.attempts);
  }

  /** Eight hours hold the delays of 17 attempts but not of 18: the bound of 18 stored attempts is the best possible. */
  lemma EighteenIsTight(n: nat)
    requires n == 18
    ensures SumDelay(n - 1) <= 8 * 3600 * 1000 < SumDelay(n)
  {
    SumDelayValue(n - 1);
    SumDelayValue(n);
  }

  lemma SettleKeepsSchedule(c: Config, s: State, a: Settlement, e: Env)
    requires Books(s) && Scheduled(s)
    requires forall q :: q in s.pending && q.key == Target(s, a.pred) ==> q.nextAttemptAt <= e.now || Aged(q, e.now)
    ensures Scheduled(Perform(c, s, SettleMarket(a), e).0)
  {
    var k := Target(s, a.pred);
    SettleCases(c, s, a, e);
    DeleteIsRemoval(s.pending, k);
    EnqueueEffect(s, a, k, e.now);
    var x := Lookup(s.pending, k);
    if x.Some? {
      forall q | q in s.pending && q.key == k ensures q == x.value { SameKeySameEntry(s.pending, q, x.value); }
    }
    if e.now - Requeued(s, a, k, e.now).enqueuedAt <= SETTLE_RETRY_GIVE_UP_MS {
      RequeueOnSchedule(s, a, k, e.now);
    }
  }

  /** On schedule and sound, with the entries of the rows from `i` on untouched. */
  ghost predicate Punctual(s: State, rows: seq<Pending>, i: nat, back: Owner) {
    && Steady(s, rows, i, back) && Scheduled(s)
    && forall j, q :: i <= j < |rows| && q in s.pending && q.key == rows[j].key ==> q == rows[j]
  }

  lemma RetryRowKeepsSchedule(c: Config, s: State, rows: seq<Pending>, i: nat, now: int, e: Env, back: Owner)
    requires i < |rows| && GoodRows(rows, back) && Punctual(s, rows, i, back) && e.now >= now
    ensures Punctual(RetryRow(c, s, rows[i], now, e), rows, i + 1, back)
  {
    var p := rows[i];
    RetryRowKeepsSound(c, s, rows, i, now, e, back);
    if p.nextAttemptAt <= now {
      AimedRowIsTracked(s, p);
      SettleKeepsSchedule(c, s, p.action, e);
      SettleTouchesOwnKey(c, s, p.action, e);
    }
  }

  lemma HousekeepRowKeepsSchedule(c: Config, s: State, rows: seq<Pending>, i: nat, now: int, e: Env, v: Env,
                                  back: Owner)
    requires i < |rows| && GoodRows(rows, back) && Punctual(s, rows, i, back) && e.now >= now
    ensures Punctual(HousekeepRow(c, s, rows[i], now, e, v), rows, i + 1, back)
  {
    var p := rows[i];
    HousekeepRowKeepsSound(c, s, rows, i, now, e, v, back);
    if Aged(p, now) {
      var t := HousekeepRow(c, s, p, now, e, v);
      forall q | q in t.pending ensures q in s.pending { HousekeepRowLeavesOthers(c, s, p, now, e, v, q, back); }
    }
  }

  lemma RetryKeepsSchedule(c: Config, s: State, rows: seq<Pending>, now: int, envs: nat -> Env, n: nat, back: Owner)
    requires n <= |rows| && GoodRows(rows, back) && Punctual(s, rows, 0, back) && forall j: nat :: envs(j).now >= now
    ensures Scheduled(Pass(RetryOf(c, rows, now, envs), s, 0, n))
  {
    var inv := (t: State, j: nat) => Punctual(t, rows, j, back);
    var row := RetryOf(c, rows, now, envs);
    forall t, j: nat | j < n && inv(t, j) ensures inv(row(t, j), j + 1) {
      RetryOfRow(c, rows, now, envs, t, j);
      RetryRowKeepsSchedule(c, t, rows, j, now, envs(j), back);
    }
    PassKeeps(row, s, 0, n, inv);
  }

  lemma HousekeepKeepsSchedule(c: Config, s: State, rows: seq<Pending>, now: int, envs: nat -> Env, n: nat, back: Owner)
    requires n <= |rows| && GoodRows(rows, back) && Punctual(s, rows, 0, back) && forall j: nat :: envs(j).now >= now
    ensures Scheduled(Pass(HousekeepOf(c, rows, now, envs), s, 0, n))
  {
    var inv := (t: State, j: nat) => Punctual(t, rows, j, back);
    var row := HousekeepOf(c, rows, now, envs);
    forall t, j: nat | j < n && inv(t, j) ensures inv(row(t, j), j + 1) {
      HousekeepOfRow(c, rows, now, envs, t, j);
      HousekeepRowKeepsSchedule(c, t, rows, j, now, envs(2 * j), envs(2 * j + 1), back);
    }
    PassKeeps(row, s, 0, n, inv);
  }

  /** Clocks run forward inside a pass, and an event never settles a market that is already pending. */
  ghost predicate Paced(s: State, step: Step) {
    match step
    case Act(SettleMarket(a), _) => forall q :: q in s.pending ==> q.key != Target(s, a.pred)
    case Retry(now, envs, _) => forall i: nat :: envs(i).now >= now
    case Housekeep(now, envs, _) => forall i: nat :: envs(i).now >= now
    case _ => true
  }

  lemma StepKeepsSchedule(c: Config, s: State, step: Step, back: Owner)
    requires Sound(s, back) && Scheduled(s) && Allowed(c, step, back) && Paced(s, step)
    ensures Scheduled(Next(c, s, step))
  {
    forall j, q | 0 <= j < |s.pending| && q in s.pending && q.key == s.pending[j].key ensures q == s.pending[j] {
      SameKeySameEntry(s.pending, q, s.pending[j]);
    }
    match step
    case Act(action, e) =>
      if action.SettleMarket? { SettleKeepsSchedule(c, s, action.s, e); }
    case Retry(now, envs, count) => RetryKeepsSchedule(c, s, s.pending, now, envs, Clip(count, |s.pending|), back);
    case Housekeep(now, envs, count) =>
      HousekeepKeepsSchedule(c, s, s.pending, now, envs, Clip(count, |s.pending|), back);
    case Reboot(now) => RestartKeepsBooks(s, now);
    case CrashIn(action, e, now) =>
      var s1 := Perform(c, s, action, e).0;
      RestartKeepsBooks(s.(chain := s1.chain, sent := s1.sent), now);
    case Outside(_, _, _) =>
  }

  ghost predicate PacedRun(c: Config, s: State, steps: seq<Step>, back: Owner)
    decreases |steps|
  {
    steps == [] ||
    (Allowed(c, steps[0], back) && Paced(s, steps[0]) && PacedRun(c, Next(c, s, steps[0]), steps[1..], back))
  }

  lemma {:induction false} PacedRunKeepsSchedule(c: Config, s: State, steps: seq<Step>, back: Owner)
    requires Sound(s, back) && Scheduled(s) && PacedRun(c, s, steps, back)
    ensures Scheduled(Run(c, s, steps))
    decreases |steps|
  {
    if steps != [] {
      StepKeepsSchedule(c, s, steps[0], back);
      StepKeepsSound(c, s, steps[0], back);
      PacedRunKeepsSchedule(c, Next(c, s, steps[0]), steps[1..], back);
    }
  }

  /**
   Over every paced run from an empty keeper the schedule holds, so no stored entry ever counts more than 18
   attempts.
  */
  lemma RunKeepsSchedule(c: Config, chain: Chain, steps: seq<Step>, back: Owner)
    requires PacedRun(c, Boot(chain), steps, back)
    ensures forall q :: q in Run(c, Boot(chain), steps).pending ==> OnSchedule(q)
  {
    PacedRunKeepsSchedule(c, Boot(chain), steps, back);
  }
}
