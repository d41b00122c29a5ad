/** One account over a run: what no transaction can undo, and what only the authority's override can do. */
module KeeperAccounts {
  import opened Programs
  import opened Keeper
  import opened KeeperProofs
  import opened KeeperRuns

  /** No transaction but the override takes an account out of `inv`. */
  ghost predicate Lasting(inv: Account -> bool) {
    forall a: Account, tx: Tx, graceOver: bool ::
      inv(a) && !tx.ForceSettleTx? && Execute(tx, a, graceOver).Some? ==> inv(Execute(tx, a, graceOver).value)
  }

  lemma SendKeepsAccount(s: State, pda: string, tx: Tx, fate: TxFate, graceOver: bool, k: string, inv: Account -> bool)
    requires Lasting(inv) && inv(AccountAt(s.chain, k)) && !tx.ForceSettleTx?
    ensures inv(AccountAt(Send(s, pda, tx, fate, graceOver).0.chain, k))
  {
  }

  lemma SettlementKeepsAccount(s: State, pda: string, a: Settlement, e: Env, k: string, inv: Account -> bool)
    requires Lasting(inv) && inv(AccountAt(s.chain, k))
    ensures inv(AccountAt(SendSettlement(s, pda, a, e).0.chain, k))
  {
    match e.packing
    case TooLarge =>
    case Whole => SendKeepsAccount(s, pda, ResolveAndSettleTx(ClaimOf(a, e)), e.first, e.graceOver, k, inv);
    case Split =>
      var s1 := Send(s, pda, ResolveTx(ClaimOf(a, e)), e.first, e.graceOver).0;
      SendKeepsAccount(s, pda, ResolveTx(ClaimOf(a, e)), e.first, e.graceOver, k, inv);
      SendKeepsAccount(s, pda, SettleTx(a.yes), e.second, e.graceOver, k, inv);
      SendKeepsAccount(s1, pda, SettleTx(a.yes), e.second, e.graceOver, k, inv);
  }

  lemma PerformKeepsAccount(c: Config, s: State, action: Action, e: Env, k: string, inv: Account -> bool)
    requires Lasting(inv) && inv(AccountAt(s.chain, k))
    ensures inv(AccountAt(Perform(c, s, action, e).0.chain, k))
  {
    match action
    case CreateMarket(p, closesIn, title) =>
      CreateChain(c, s, p, closesIn, title, e);
      SendKeepsAccount(s, c.pdaOf(p), CreateTx(Txline), e.first, e.graceOver, k, inv);
    case VoidMarket(p, _) =>
      VoidChain(c, s, p, e);
      SendKeepsAccount(s, Target(s, p), VoidTx, e.first, e.graceOver, k, inv);
    case SettleMarket(a) =>
      SettleChain(c, s, a, e);
      SettlementKeepsAccount(s, Target(s, a.pred), a, e, k, inv);
  }

  lemma RetryRowKeepsAccount(c: Config, s: State, p: Pending, now: int, e: Env, k: string, inv: Account -> bool)
    requires Lasting(inv) && inv(AccountAt(s.chain, k))
    ensures inv(AccountAt(RetryRow(c, s, p, now, e).chain, k))
  {
    PerformKeepsAccount(c, Track(s, p), SettleMarket(p.action), e, k, inv);
  }

  lemma HousekeepRowKeepsAccount(c: Config, s: State, p: Pending, now: int, e: Env, v: Env, k: string,
                                 inv: Account -> bool)
    requires Lasting(inv) && inv(AccountAt(s.chain, k))
    ensures inv(AccountAt(HousekeepRow(c, s, p, now, e, v).chain, k))
  {
    var s1 := Perform(c, s, SettleMarket(p.action), e).0;
    PerformKeepsAccount(c, s, SettleMarket(p.action), e, k, inv);
    PerformKeepsAccount(c, s1, VoidMarket(p.action.pred, p.action.title), v, k, inv);
  }

  lemma RetryKeepsAccount(c: Config, s: State, rows: seq<Pending>, now: int, envs: nat -> Env, n: nat,
                          k: string, inv: Account -> bool)
    requires n <= |rows| && Lasting(inv) && inv(AccountAt(s.chain, k))
    ensures inv(AccountAt(Pass(RetryOf(c, rows, now, envs), s, 0, n).chain, k))
  {
    var kept := (t: State, j: nat) => inv(AccountAt(t.chain, k));
    var row := RetryOf(c, rows, now, envs);
    forall t, j: nat | j < n && kept(t, j) ensures kept(row(t, j), j + 1) {
      RetryOfRow(c, rows, now, envs, t, j);
      RetryRowKeepsAccount(c, t, rows[j], now, envs(j), k, inv);
    }
    PassKeeps(row, s, 0, n, kept);
  }

  lemma HousekeepKeepsAccount(c: Config, s: State, rows: seq<Pending>, now: int, envs: nat -> Env, n: nat,
                              k: string, inv: Account -> bool)
    requires n <= |rows| && Lasting(inv) && inv(AccountAt(s.chain, k))
    ensures inv(AccountAt(Pass(HousekeepOf(c, rows, now, envs), s, 0, n).chain, k))
  {
    var kept := (t: State, j: nat) => inv(AccountAt(t.chain, k));
    var row := HousekeepOf(c, rows, now, envs);
    forall t, j: nat | j < n && kept(t, j) ensures kept(row(t, j), j + 1) {
      HousekeepOfRow(c, rows, now, envs, t, j);
      HousekeepRowKeepsAccount(c, t, rows[j], now, envs(2 * j), envs(2 * j + 1), k, inv);
    }
    PassKeeps(row, s, 0, n, kept);
  }

  lemma {:induction false} LoadRowsFrame(s: State, rows: seq<Row>, now: int, i: nat)
    requires i <= |rows|
    ensures LoadRows(s, rows, now, i).chain == s.chain && LoadRows(s, rows, now, i).sent == s.sent
    decreases |rows| - i
  {
    if i < |rows| { LoadRowsFrame(LoadRow(s, rows[i], now), rows, now, i + 1); }
  }

  lemma RestartFrame(s: State, now: int)
    ensures Restart(s, now).chain == s.chain && Restart(s, now).sent == s.sent
  {
    if s.file.Some? { LoadRowsFrame(s.(open := [], pending := []), s.file.value, now, 0); }
  }

  /** The authority overrides this market. */
  predicate Overrides(step: Step, k: string) { step.Outside? && step.pda == k && step.tx.ForceSettleTx? }

  lemma StepKeepsAccount(c: Config, s: State, step: Step, k: string, inv: Account -> bool)
    requires Lasting(inv) && inv(AccountAt(s.chain, k)) && !Overrides(step, k)
    ensures inv(AccountAt(Next(c, s, step).chain, k))
  {
    match step
    case Act(action, e) => PerformKeepsAccount(c, s, action, e, k, inv);
    case Retry(now, envs, count) => RetryKeepsAccount(c, s, s.pending, now, envs, Clip(count, |s.pending|), k, inv);
    case Housekeep(now, envs, count) =>
      HousekeepKeepsAccount(c, s, s.pending, now, envs, Clip(count, |s.pending|), k, inv);
    case Reboot(now) => RestartFrame(s, now);
    case CrashIn(action, e, now) =>
      var s1 := Perform(c, s, action, e).0;
      PerformKeepsAccount(c, s, action, e, k, inv);
      RestartFrame(s.(chain := s1.chain, sent := s1.sent), now);
    case Outside(_, _, _) =>
  }

  /** What no transaction but the override undoes, no run without an override undoes. */
  lemma {:induction false} RunKeepsAccount(c: Config, s: State, steps: seq<Step>, k: string, inv: Account -> bool)
    requires Lasting(inv) && inv(AccountAt(s.chain, k))
    requires forall i :: 0 <= i < |steps| ==> !Overrides(steps[i], k)
    ensures inv(AccountAt(Run(c, s, steps).chain, k))
    decreases |steps|
  {
    if steps != [] {
      StepKeepsAccount(c, s, steps[0], k, inv);
      RunKeepsAccount(c, Next(c, s, steps[0]), steps[1..], k, inv);
    }
  }

  /**
   Over every run in which the authority leaves a market alone, it is settled only by a receipt of its outcome and
   oracle.
  */
  lemma SettledByProof(c: Config, s: State, steps: seq<Step>, k: string)
    requires AccountAt(s.chain, k).phase != Absent && Backed(AccountAt(s.chain, k))
    requires forall i :: 0 <= i < |steps| ==> !Overrides(steps[i], k)
    ensures Backed(AccountAt(Run(c, s, steps).chain, k))
  {
    RunKeepsAccount(c, s, steps, k, (a: Account) => a.phase != Absent && Backed(a));
  }

  /** The override settles without a receipt. */
  lemma OverrideNeedsNoProof(c: Config, s: State, k: string, yes: bool)
    requires AccountAt(s.chain, k).phase == Open && AccountAt(s.chain, k).receipt.None?
    ensures !Backed(AccountAt(Run(c, s, [Outside(k, ForceSettleTx(yes), false)]).chain, k))
  {
    var step := Outside(k, ForceSettleTx(yes), false);
    assert [step][1..] == [];
    assert Run(c, s, [step]) == Next(c, s, step);
  }

  /**
   A market whose receipt is for the other outcome, or by a validator that is not its oracle, is never settled to
   `yes` over any later run, whatever lands, unless the authority overrides it.
  */
  lemma BarredNeverSettles(c: Config, s: State, steps: seq<Step>, k: string, yes: bool)
    requires AccountAt(s.chain, k).phase == Open && Barred(AccountAt(s.chain, k), yes)
    requires forall i :: 0 <= i < |steps| ==> !Overrides(steps[i], k)
    ensures var a := AccountAt(Run(c, s, steps).chain, k); a.phase != Settled(yes) && Barred(a, yes)
  {
    RunKeepsAccount(c, s, steps, k, (a: Account) => a.phase != Absent && a.phase != Settled(yes) && Barred(a, yes));
  }

  /** And a receipt by a validator that is not the market's oracle keeps it from being settled at all. */
  lemma ForeignReceiptNeverSettles(c: Config, s: State, steps: seq<Step>, k: string)
    requires var a := AccountAt(s.chain, k); a.phase == Open && a.receipt.Some? && a.receipt.value.validator != a.oracle
    requires forall i :: 0 <= i < |steps| ==> !Overrides(steps[i], k)
    ensures AccountAt(Run(c, s, steps).chain, k).phase in {Open, Void}
  {
    RunKeepsAccount(c, s, steps, k, (a: Account) =>
      a.phase in {Open, Void} && a.receipt.Some? && a.receipt.value.validator != a.oracle);
  }
}
