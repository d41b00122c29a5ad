/** What the keeper's transactions do on the chain: proof-gated release, one resolve, resumable splits. */
module KeeperChain {
  import opened Basics
  import opened Programs
  import opened Keeper
  import opened KeeperProofs
  import opened KeeperRuns
  import opened KeeperDeadlines
  import opened KeeperAccounts

  // --------------------------------------------------- safety of the trace

  predicate Resolves(x: Sent) { x.landed && (x.tx.ResolveTx? || x.tx.ResolveAndSettleTx?) }

  predicate Settles(x: Sent) { x.landed && (x.tx.SettleTx? || x.tx.ResolveAndSettleTx?) }

  /**
   A lone settle transaction was only ever sent to a market with a receipt; at most one transaction of this
   keeper ever resolved a given market; and every market that this keeper settled carries the receipt of its
   outcome by its own oracle.
  */
  ghost predicate ProofGated(s: State) {
    && (forall x :: x in s.sent && x.tx.SettleTx? ==> x.before.receipt.Some?)
    && (forall i :: 0 <= i < |s.sent| && Resolves(s.sent[i]) ==> AccountAt(s.chain, s.sent[i].pda).receipt.Some?)
    && (forall i, j :: 0 <= i < j < |s.sent| && Resolves(s.sent[i]) && Resolves(s.sent[j]) ==>
          s.sent[i].pda != s.sent[j].pda)
    && (forall i :: 0 <= i < |s.sent| && Settles(s.sent[i]) ==> Proven(AccountAt(s.chain, s.sent[i].pda)))
  }

  predicate Proven(a: Account) { a.phase.Settled? && Backed(a) }

  /** The gate reads only the trace and the chain, and the chain may grow. */
  lemma GateFrame(s: State, t: State)
    requires ProofGated(s) && t.sent == s.sent && ChainGrows(s.chain, t.chain)
    ensures ProofGated(t)
  {
  }

  lemma GateAppend(s: State, x: Sent)
    requires ProofGated(s)
    requires x.tx.SettleTx? ==> x.before.receipt.Some?
    requires Resolves(x) ==> AccountAt(s.chain, x.pda).receipt.Some?
    requires Resolves(x) ==> forall i :: 0 <= i < |s.sent| && Resolves(s.sent[i]) ==> s.sent[i].pda != x.pda
    requires Settles(x) ==> Proven(AccountAt(s.chain, x.pda))
    ensures ProofGated(s.(sent := s.sent + [x]))
  {
  }

  /** What the trace's new entry says is so on the chain. */
  lemma SentEffect(s: State, pda: string, tx: Tx, fate: TxFate, graceOver: bool)
    ensures var t := Send(s, pda, tx, fate, graceOver).0;
      && |t.sent| == |s.sent| + 1 && t.open == s.open && t.pending == s.pending && t.file == s.file
      && var x := t.sent[|s.sent|];
         && t.sent == s.sent + [x] && x.pda == pda && x.tx == tx && x.before == AccountAt(s.chain, pda)
         && (Resolves(x) ==> x.before.receipt.None? && AccountAt(t.chain, pda).receipt.Some?)
         && (Settles(x) ==> Proven(AccountAt(t.chain, pda)))
  {
  }

  lemma SendKeepsGate(s: State, pda: string, tx: Tx, fate: TxFate, graceOver: bool)
    requires ProofGated(s)
    requires tx.SettleTx? ==> AccountAt(s.chain, pda).receipt.Some?
    ensures ProofGated(Send(s, pda, tx, fate, graceOver).0)
  {
    var t := Send(s, pda, tx, fate, graceOver).0;
    var moved := s.(chain := t.chain);
    SendGrows(s, pda, tx, fate, graceOver);
    GateFrame(s, moved);
    SentEffect(s, pda, tx, fate, graceOver);
    GateAppend(moved, t.sent[|s.sent|]);
  }

  lemma SettlementKeepsGate(s: State, pda: string, a: Settlement, e: Env)
    requires ProofGated(s)
    ensures ProofGated(SendSettlement(s, pda, a, e).0)
  {
    match e.packing
    case TooLarge =>
    case Whole => SendKeepsGate(s, pda, ResolveAndSettleTx(ClaimOf(a, e)), e.first, e.graceOver);
    case Split =>
      if AccountAt(s.chain, pda).receipt.Some? {
        SendKeepsGate(s, pda, SettleTx(a.yes), e.second, e.graceOver);
      } else {
        var (s1, ok) := Send(s, pda, ResolveTx(ClaimOf(a, e)), e.first, e.graceOver);
        SendKeepsGate(s, pda, ResolveTx(ClaimOf(a, e)), e.first, e.graceOver);
        if ok { SendKeepsGate(s1, pda, SettleTx(a.yes), e.second, e.graceOver); }
      }
  }

  lemma SettleKeepsGate(c: Config, s: State, a: Settlement, e: Env)
    requires ProofGated(s)
    ensures ProofGated(DoSettle(c, s, a, e).0)
  {
    var t := DoSettle(c, s, a, e).0;
    var u := SendSettlement(s, Target(s, a.pred), a, e).0;
    SettlementKeepsGate(s, Target(s, a.pred), a, e);
    if t.sent == s.sent && t.chain == s.chain { GateFrame(s, t); } else { GateFrame(u, t); }
  }

  lemma VoidKeepsGate(c: Config, s: State, p: Predicate, e: Env)
    requires ProofGated(s)
    ensures ProofGated(DoVoid(c, s, p, e).0)
  {
    var i := Find(s.open, p);
    if i < |s.open| {
      var s1 := s.(open := RemoveAt(s.open, i));
      GateFrame(s, s1);
      SendKeepsGate(s1, s.open[i].marketPda, VoidTx, e.first, e.graceOver);
    }
  }

  lemma CreateKeepsGate(c: Config, s: State, p: Predicate, closesIn: int, title: string, e: Env)
    requires ProofGated(s)
    ensures ProofGated(DoCreate(c, s, p, closesIn, title, e).0)
  {
    var s1 := s.(open := s.open + [OpenMarket(p, title, e.now, closesIn, c.pdaOf(p))]);
    GateFrame(s, s1);
    SendKeepsGate(s1, c.pdaOf(p), CreateTx(Txline), e.first, e.graceOver);
  }

  lemma PerformKeepsGate(c: Config, s: State, action: Action, e: Env)
    requires ProofGated(s)
    ensures ProofGated(Perform(c, s, action, e).0)
  {
    match action
    case CreateMarket(p, closesIn, title) => CreateKeepsGate(c, s, p, closesIn, title, e);
    case VoidMarket(p, _) => VoidKeepsGate(c, s, p, e);
    case SettleMarket(a) =>
      SettleKeepsGate(c, s, a, e);
      GateFrame(DoSettle(c, s, a, e).0, Perform(c, s, action, e).0);
  }

  lemma HousekeepRowKeepsGate(c: Config, s: State, p: Pending, now: int, e: Env, v: Env)
    requires ProofGated(s)
    ensures ProofGated(HousekeepRow(c, s, p, now, e, v))
  {
    var s1 := Perform(c, s, SettleMarket(p.action), e).0;
    PerformKeepsGate(c, s, SettleMarket(p.action), e);
    PerformKeepsGate(c, s1, VoidMarket(p.action.pred, p.action.title), v);
  }

  lemma RetryRowKeepsGate(c: Config, s: State, p: Pending, now: int, e: Env)
    requires ProofGated(s)
    ensures ProofGated(RetryRow(c, s, p, now, e))
  {
    GateFrame(s, Track(s, p));
    PerformKeepsGate(c, Track(s, p), SettleMarket(p.action), e);
  }

  lemma RetryKeepsGate(c: Config, s: State, rows: seq<Pending>, now: int, envs: nat -> Env, n: nat)
    requires n <= |rows| && ProofGated(s)
    ensures ProofGated(Pass(RetryOf(c, rows, now, envs), s, 0, n))
  {
    var inv := (t: State, j: nat) => ProofGated(t);
    var row := RetryOf(c, rows, now, envs);
    forall t, j: nat | j < n && inv(t, j) ensures inv(row(t, j), j + 1) {
      RetryOfRow(c, rows, now, envs, t, j);
      RetryRowKeepsGate(c, t, rows[j], now, envs(j));
    }
    PassKeeps(row, s, 0, n, inv);
  }

  lemma HousekeepKeepsGate(c: Config, s: State, rows: seq<Pending>, now: int, envs: nat -> Env, n: nat)
    requires n <= |rows| && ProofGated(s)
    ensures ProofGated(Pass(HousekeepOf(c, rows, now, envs), s, 0, n))
  {
    var inv := (t: State, j: nat) => ProofGated(t);
    var row := HousekeepOf(c, rows, now, envs);
    forall t, j: nat | j < n && inv(t, j) ensures inv(row(t, j), j + 1) {
      HousekeepOfRow(c, rows, now, envs, t, j);
      HousekeepRowKeepsGate(c, t, rows[j], now, envs(2 * j), envs(2 * j + 1));
    }
    PassKeeps(row, s, 0, n, inv);
  }

  lemma StepKeepsGate(c: Config, s: State, step: Step)
    requires ProofGated(s)
    ensures ProofGated(Next(c, s, step))
  {
    match step
    case Act(action, e) => PerformKeepsGate(c, s, action, e);
    case Retry(now, envs, count) => RetryKeepsGate(c, s, s.pending, now, envs, Clip(count, |s.pending|));
    case Housekeep(now, envs, count) => HousekeepKeepsGate(c, s, s.pending, now, envs, Clip(count, |s.pending|));
    case Reboot(now) =>
      RestartFrame(s, now);
      GateFrame(s, Restart(s, now));
    case CrashIn(action, e, now) =>
      var s1 := Perform(c, s, action, e).0;
      PerformKeepsGate(c, s, action, e);
      var s2 := s.(chain := s1.chain, sent := s1.sent);
      RestartFrame(s2, now);
      GateFrame(s1, Restart(s2, now));
    case Outside(_, _, _) => GateFrame(s, Next(c, s, step));
  }

  /** Over every run, with failures, crashes and other people's transactions, the authority's override included. */
  lemma {:induction false} RunIsProofGated(c: Config, s: State, steps: seq<Step>)
    requires ProofGated(s)
    ensures ProofGated(Run(c, s, steps))
    decreases |steps|
  {
    if steps != [] {
      StepKeepsGate(c, s, steps[0]);
      RunIsProofGated(c, Next(c, s, steps[0]), steps[1..]);
    }
  }

  // ------------------------------------------------------ when a settle works

  /**
   The keeper can settle the account by this claim: by a receipt of its own oracle, or by making one if that is
   TxLINE.
  */
  predicate Amenable(acc: Account, yes: bool) {
    if acc.receipt.Some? then acc.receipt.value == Receipt(yes, acc.oracle) else acc.oracle == Txline
  }

  /** The bundle of this claim suits the account, and its transactions land before the keeper's eyes. */
  predicate Settleable(acc: Account, a: Settlement, e: Env) {
    && acc.phase == Open && Amenable(acc, a.yes)
    && match e.packing
       case TooLarge => false
       case Whole => acc.receipt.None? && Proves(a, e) && e.first == Lands
       case Split => e.receiptReadOk && e.second == Lands && (acc.receipt.Some? || (Proves(a, e) && e.first == Lands))
  }

  /**
   A settlement is put off, to be booked for a retry of its target, exactly when its proof cannot be built: without
   credentials, sequence number or statistic, or when the proof service has none.
  */
  lemma PutOffIff(c: Config, s: State, a: Settlement, e: Env)
    requires Target(s, a.pred) != ""
    ensures DoSettle(c, s, a, e).1 == Returned(false, Target(s, a.pred)) <==>
      !(c.hasCreds && a.seqNo > 0 && a.statKey > 0 && e.proofOk)
  {
  }

  /**
   A settlement attempt whose proof was fetched reports success exactly when the market is open, its receipt, or
   the lack of one, suits the claim and the packing, and its transactions land.  In particular a
   bundle that fits one transaction can never settle a market whose receipt an earlier attempt left behind, and
   no attempt settles past a receipt of the other outcome or of another validator.
  */
  lemma SettleSucceedsIff(c: Config, s: State, a: Settlement, e: Env)
    requires !c.dryRun && Target(s, a.pred) != "" && ProofBuilt(c, a, e)
    ensures var k := Target(s, a.pred);
      DoSettle(c, s, a, e).1 == Returned(true, k) <==> Settleable(AccountAt(s.chain, k), a, e)
  {
  }

  /**
   A settlement that makes its own receipt settles its target to the truth about the target's line exactly unless
   the proved total lies between that line and the settlement's own line.
  */
  lemma SettledRightIff(c: Config, s: State, a: Settlement, e: Env, line: int)
    requires !c.dryRun && Target(s, a.pred) != "" && ProofBuilt(c, a, e)
    requires var acc := AccountAt(s.chain, Target(s, a.pred)); acc.receipt.None? && Settleable(acc, a, e)
    ensures var k := Target(s, a.pred);
      AccountAt(DoSettle(c, s, a, e).0.chain, k).phase == Settled(e.total > line) <==>
        !(line < e.total <= a.pred.param || a.pred.param < e.total <= line)
  {
    SettleSucceedsIff(c, s, a, e);
    DoSettleCases(c, s, a, e);
  }

  /** A settlement whose proof was fetched and whose bundle fails is thrown: it is booked nowhere, on any attempt. */
  lemma FailedBundleIsNotBooked(c: Config, s: State, a: Settlement, e: Env)
    requires !c.dryRun && Target(s, a.pred) != "" && ProofBuilt(c, a, e)
    requires !Settleable(AccountAt(s.chain, Target(s, a.pred)), a, e)
    ensures var (t, r) := Perform(c, s, SettleMarket(a), e);
      r == Threw && t.pending == s.pending && t.file == s.file && t.open == s.open
  {
    SettleSucceedsIff(c, s, a, e);
    DoSettleCases(c, s, a, e);
    assert DoSettle(c, s, a, e).1 == Threw;
  }

  /**
   With the receipt of its own claim in place, a split attempt sends the settle transaction alone and finishes the
   job.
  */
  lemma SplitResumes(c: Config, s: State, a: Settlement, e: Env)
    requires Books(s) && !c.dryRun && Target(s, a.pred) != "" && ProofBuilt(c, a, e)
    requires var acc := AccountAt(s.chain, Target(s, a.pred));
      acc.phase == Open && acc.receipt == Some(Receipt(a.yes, acc.oracle))
    requires e.packing == Split && e.receiptReadOk && e.second == Lands
    ensures var k := Target(s, a.pred);
      var (t, r) := Perform(c, s, SettleMarket(a), e);
      && r == Returned(true, k)
      && t.sent == s.sent + [Sent(k, SettleTx(a.yes), AccountAt(s.chain, k), true)]
      && AccountAt(t.chain, k).phase == Settled(a.yes)
      && Lookup(t.pending, k).None?
  {
    DeleteIsRemoval(s.pending, Target(s, a.pred));
  }

  function Attempts(c: Config, s: State, a: Settlement, envs: seq<Env>): State
    decreases |envs|
  {
    if envs == [] then s else Attempts(c, Perform(c, s, SettleMarket(a), envs[0]).0, a, envs[1..])
  }

  /** The resolve of this attempt takes effect when there is no receipt yet. */
  predicate Takes(a: Settlement, e: Env) { e.first != Lost && Proves(a, e) }

  /** The settle transaction took effect in attempt `j`, the resolve in `j` or before. */
  predicate CompletedAt(a: Settlement, receipt: bool, envs: seq<Env>, j: nat)
    requires j < |envs|
  {
    && envs[j].second != Lost
    && (receipt || (envs[j].first == Lands && Proves(a, envs[j])) || exists i :: 0 <= i < j && Takes(a, envs[i]))
  }

  predicate Completed(a: Settlement, receipt: bool, envs: seq<Env>) {
    exists j :: 0 <= j < |envs| && CompletedAt(a, receipt, envs, j)
  }

  predicate SplitAttempt(c: Config, a: Settlement, e: Env) {
    ProofBuilt(c, a, e) && e.packing == Split && e.receiptReadOk
  }

  lemma CompletedShift(a: Settlement, receipt: bool, later: bool, envs: seq<Env>)
    requires envs != [] && (later <==> receipt || Takes(a, envs[0]))
    ensures Completed(a, receipt, envs) <==> CompletedAt(a, receipt, envs, 0) || Completed(a, later, envs[1..])
  {
    var tail := envs[1..];
    forall j | 1 <= j < |envs| ensures CompletedAt(a, receipt, envs, j) <==> CompletedAt(a, later, tail, j - 1) {
      assert envs[j] == tail[j - 1];
      if i :| 0 <= i < j && Takes(a, envs[i]) {
        if i > 0 { assert Takes(a, tail[i - 1]); }
      }
      if i :| 0 <= i < j - 1 && Takes(a, tail[i]) { assert Takes(a, envs[i + 1]); }
    }
    if j :| 0 <= j < |envs| && CompletedAt(a, receipt, envs, j) {
      if j > 0 { assert CompletedAt(a, later, tail, j - 1); }
    }
    if j :| 0 <= j < |tail| && CompletedAt(a, later, tail, j) { assert CompletedAt(a, receipt, envs, j + 1); }
  }

  lemma {:induction false} SettledStays(c: Config, s: State, a: Settlement, envs: seq<Env>, k: string)
    requires AccountAt(s.chain, k).phase.Settled?
    ensures AccountAt(Attempts(c, s, a, envs).chain, k).phase == AccountAt(s.chain, k).phase
    decreases |envs|
  {
    if envs != [] {
      PerformGrows(c, s, SettleMarket(a), envs[0]);
      SettledStays(c, Perform(c, s, SettleMarket(a), envs[0]).0, a, envs[1..], k);
    }
  }

  /** What a split bundle makes of an open account. */
  function SplitResult(acc: Account, a: Settlement, e: Env): Account {
    var resolved := if acc.receipt.None? && Takes(a, e) then acc.(receipt := Some(Receipt(a.yes, Txline))) else acc;
    if Amenable(acc, a.yes) && e.second != Lost && (acc.receipt.Some? || (e.first == Lands && Proves(a, e)))
    then resolved.(phase := Settled(a.yes))
    else resolved
  }

  lemma SplitSend(s: State, pda: string, a: Settlement, e: Env)
    requires AccountAt(s.chain, pda).phase == Open && e.packing == Split && e.receiptReadOk
    ensures AccountAt(SendSettlement(s, pda, a, e).0.chain, pda) == SplitResult(AccountAt(s.chain, pda), a, e)
  {
  }

  lemma SplitAttemptEffect(c: Config, s: State, a: Settlement, e: Env)
    requires !c.dryRun && Target(s, a.pred) != "" && SplitAttempt(c, a, e)
    requires AccountAt(s.chain, Target(s, a.pred)).phase == Open
    ensures var k, t := Target(s, a.pred), Perform(c, s, SettleMarket(a), e).0;
      var acc, after := AccountAt(s.chain, k), AccountAt(t.chain, k);
      && Amenable(after, a.yes) == Amenable(acc, a.yes)
      && (if Amenable(acc, a.yes) && CompletedAt(a, acc.receipt.Some?, [e], 0) then after.phase == Settled(a.yes)
          else && after.phase == Open && t.open == s.open
               && (after.receipt.Some? <==> acc.receipt.Some? || Takes(a, e)))
  {
    var k, t := Target(s, a.pred), Perform(c, s, SettleMarket(a), e).0;
    SplitSend(s, k, a, e);
    DoSettleCases(c, s, a, e);
    SettleSucceedsIff(c, s, a, e);
    assert t.chain == SendSettlement(s, k, a, e).0.chain;
    assert CompletedAt(a, AccountAt(s.chain, k).receipt.Some?, [e], 0) <==>
      e.second != Lost && (AccountAt(s.chain, k).receipt.Some? || (e.first == Lands && Proves(a, e)));
  }

  /**
   A market whose bundle is always split ends settled by a claim exactly when it has the claim's receipt by its own
   oracle, or none and TxLINE for its oracle, and some attempt's settle transaction takes effect after a resolve that
   took effect in that attempt or an earlier one: a resolve that landed is never lost, whatever failed after it.
  */
  lemma {:induction false} SplitAttemptsSettleIff(c: Config, s: State, a: Settlement, envs: seq<Env>)
    requires !c.dryRun && Target(s, a.pred) != ""
    requires AccountAt(s.chain, Target(s, a.pred)).phase == Open
    requires forall i :: 0 <= i < |envs| ==> SplitAttempt(c, a, envs[i])
    ensures var k := Target(s, a.pred);
      var acc := AccountAt(s.chain, k);
      AccountAt(Attempts(c, s, a, envs).chain, k).phase == Settled(a.yes) <==>
        Amenable(acc, a.yes) && Completed(a, acc.receipt.Some?, envs)
    decreases |envs|
  {
    if envs != [] {
      var k := Target(s, a.pred);
      var acc := AccountAt(s.chain, k);
      var receipt := acc.receipt.Some?;
      var t := Perform(c, s, SettleMarket(a), envs[0]).0;
      SplitAttemptEffect(c, s, a, envs[0]);
      assert CompletedAt(a, receipt, [envs[0]], 0) == CompletedAt(a, receipt, envs, 0);
      CompletedShift(a, receipt, receipt || Takes(a, envs[0]), envs);
      if Amenable(acc, a.yes) && CompletedAt(a, receipt, envs, 0) {
        SettledStays(c, t, a, envs[1..], k);
      } else {
        SplitAttemptsSettleIff(c, t, a, envs[1..]);
      }
    }
  }
}
