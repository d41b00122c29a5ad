/** Giving up: a housekeeping pass makes one last settle attempt for an aged entry and voids what that leaves open. */
module KeeperGiveUp {
  import opened Programs
  import opened Keeper
  import opened KeeperProofs
  import opened KeeperRuns
  import opened KeeperDeadlines
  import opened KeeperChain
  import opened KeeperLiveness

  /** The settlement takes effect on the account, whether or not the keeper sees its last transaction land. */
  predicate TakesEffect(acc: Account, a: Settlement, e: Env) {
    && acc.phase == Open && Amenable(acc, a.yes)
    && match e.packing
       case TooLarge => false
       case Whole => acc.receipt.None? && Proves(a, e) && e.first != Lost
       case Split => e.receiptReadOk && e.second != Lost && (acc.receipt.Some? || (Proves(a, e) && e.first == Lands))
  }

  lemma SeenIsEffective(acc: Account, a: Settlement, e: Env)
    requires Settleable(acc, a, e)
    ensures TakesEffect(acc, a, e)
  {
  }

  /** What one settlement makes of the phase of its open target. */
  lemma SettlementPhase(s: State, pda: string, a: Settlement, e: Env)
    requires AccountAt(s.chain, pda).phase == Open
    ensures AccountAt(SendSettlement(s, pda, a, e).0.chain, pda).phase
      == if TakesEffect(AccountAt(s.chain, pda), a, e) then Settled(a.yes) else Open
  {
  }

  lemma AttemptPhase(c: Config, s: State, a: Settlement, e: Env)
    requires !c.dryRun && Target(s, a.pred) != "" && AccountAt(s.chain, Target(s, a.pred)).phase == Open
    ensures var (t, k) := (Perform(c, s, SettleMarket(a), e).0, Target(s, a.pred));
      AccountAt(t.chain, k).phase
        == if ProofBuilt(c, a, e) && TakesEffect(AccountAt(s.chain, k), a, e) then Settled(a.yes) else Open
  {
    SettlementPhase(s, Target(s, a.pred), a, e);
  }

  /** How an open market ends when its entry is given up. */
  function EndOf(c: Config, acc: Account, a: Settlement, e: Env, v: Env): Phase {
    if ProofBuilt(c, a, e) && TakesEffect(acc, a, e) then Settled(a.yes)
    else if v.graceOver && v.first != Lost then Void
    else Open
  }

  lemma VoidPhase(c: Config, s: State, p: Predicate, title: string, v: Env)
    requires !c.dryRun && Target(s, p) != ""
    ensures var before := AccountAt(s.chain, Target(s, p)).phase;
      AccountAt(Perform(c, s, VoidMarket(p, title), v).0.chain, Target(s, p)).phase
        == if before == Open && v.graceOver && v.first != Lost then Void else before
  {
  }

  lemma GiveUpEnds(c: Config, s: State, p: Pending, now: int, e: Env, v: Env)
    requires p.key != "" && !c.dryRun && Target(s, p.action.pred) == p.key && Aged(p, now)
    requires AccountAt(s.chain, p.key).phase == Open
    ensures var t := HousekeepRow(c, s, p, now, e, v);
      AccountAt(t.chain, p.key).phase == EndOf(c, AccountAt(s.chain, p.key), p.action, e, v)
  {
    var s1 := Perform(c, s, SettleMarket(p.action), e).0;
    AttemptPhase(c, s, p.action, e);
    SettleCases(c, s, p.action, e);
    if s1.open == s.open { VoidPhase(c, s1, p.action.pred, p.action.title, v); }
  }

  lemma HousekeepRowLeavesAccounts(c: Config, s: State, p: Pending, now: int, e: Env, v: Env, key: string)
    requires Target(s, p.action.pred) == p.key != key && p.key != ""
    ensures AccountAt(HousekeepRow(c, s, p, now, e, v).chain, key) == AccountAt(s.chain, key)
  {
    var s1 := Perform(c, s, SettleMarket(p.action), e).0;
    SettleTouchesOwnAccount(c, s, p.action, e);
    SettleCases(c, s, p.action, e);
    if s1.open == s.open { VoidTouchesOwnAccount(c, s1, p.action.pred, p.action.title, v, key); }
  }

  lemma VoidTouchesOwnAccount(c: Config, s: State, p: Predicate, title: string, v: Env, key: string)
    requires Target(s, p) != key
    ensures AccountAt(Perform(c, s, VoidMarket(p, title), v).0.chain, key) == AccountAt(s.chain, key)
  {
  }

  /** Before its turn row `j` meets the account it met at the start; after it the market is as `end` says. */
  ghost predicate Turn(s0: State, s: State, rows: seq<Pending>, i: nat, j: nat, end: Phase, back: Owner)
    requires j < |rows|
  {
    && Steady(s, rows, i, back)
    && (i <= j ==> AccountAt(s.chain, rows[j].key) == AccountAt(s0.chain, rows[j].key))
    && (i > j ==> AccountAt(s.chain, rows[j].key).phase == end && forall q :: q in s.pending ==> q.key != rows[j].key)
  }

  /** The row's own turn. */
  lemma RowTakesTurn(c: Config, s0: State, s: State, rows: seq<Pending>, j: nat, now: int, e: Env, v: Env, back: Owner)
    requires j < |rows| && GoodRows(rows, back) && !c.dryRun
    requires AccountAt(s0.chain, rows[j].key).phase == Open && Aged(rows[j], now)
    requires Turn(s0, s, rows, j, j, EndOf(c, AccountAt(s0.chain, rows[j].key), rows[j].action, e, v), back)
    ensures Turn(s0, HousekeepRow(c, s, rows[j], now, e, v), rows, j + 1, j,
              EndOf(c, AccountAt(s0.chain, rows[j].key), rows[j].action, e, v), back)
  {
    HousekeepRowKeepsSound(c, s, rows, j, now, e, v, back);
    GiveUpEnds(c, s, rows[j], now, e, v);
    HousekeepRowKeepsBooks(c, s, rows[j], now, e, v);
  }

  /** Another row's turn. */
  lemma RowLeavesTurn(c: Config, s0: State, s: State, rows: seq<Pending>, i: nat, j: nat, now: int, e: Env, v: Env,
                      end: Phase, back: Owner)
    requires i < |rows| && j < |rows| && i != j && GoodRows(rows, back) && Turn(s0, s, rows, i, j, end, back)
    ensures Turn(s0, HousekeepRow(c, s, rows[i], now, e, v), rows, i + 1, j, end, back)
  {
    HousekeepRowKeepsSound(c, s, rows, i, now, e, v, back);
    HousekeepRowLeavesAccounts(c, s, rows[i], now, e, v, rows[j].key);
    RowBooksNothingNew(c, s, rows[i], now, e, v, back);
  }

  lemma RowBooksNothingNew(c: Config, s: State, p: Pending, now: int, e: Env, v: Env, back: Owner)
    requires Sound(s, back) && Restorable(p) && Target(s, p.action.pred) == p.key
    ensures forall q :: q in HousekeepRow(c, s, p, now, e, v).pending ==> q in s.pending
  {
    if Aged(p, now) {
      forall q | q in HousekeepRow(c, s, p, now, e, v).pending ensures q in s.pending {
        HousekeepRowLeavesOthers(c, s, p, now, e, v, q, back);
      }
    }
  }

  lemma SoundStarts(s: State, j: nat, end: Phase, back: Owner)
    requires Sound(s, back) && j < |s.pending|
    ensures GoodRows(s.pending, back) && Turn(s, s, s.pending, 0, j, end, back)
  {
  }

  lemma RowKeepsTurn(c: Config, s: State, t: State, u: State, rows: seq<Pending>, i: nat, j: nat, now: int, e: Env,
                     v: Env, end: Phase, back: Owner)
    requires i < |rows| && j < |rows| && GoodRows(rows, back) && Turn(s, t, rows, i, j, end, back) && !c.dryRun
    requires AccountAt(s.chain, rows[j].key).phase == Open && Aged(rows[j], now)
    requires i == j ==> end == EndOf(c, AccountAt(s.chain, rows[j].key), rows[j].action, e, v)
    requires u == HousekeepRow(c, t, rows[i], now, e, v)
    ensures Turn(s, u, rows, i + 1, j, end, back)
  {
    if i == j {
      RowTakesTurn(c, s, t, rows, j, now, e, v, back);
    } else {
      RowLeavesTurn(c, s, t, rows, i, j, now, e, v, end, back);
    }
  }

  lemma PassKeepsTurn(c: Config, s: State, t: State, rows: seq<Pending>, now: int, es: nat -> Env, vs: nat -> Env,
                      i: nat, j: nat, end: Phase, back: Owner)
    requires i < |rows| && j < |rows| && GoodRows(rows, back) && Turn(s, t, rows, i, j, end, back) && !c.dryRun
    requires AccountAt(s.chain, rows[j].key).phase == Open && Aged(rows[j], now)
    requires end == EndOf(c, AccountAt(s.chain, rows[j].key), rows[j].action, es(j), vs(j))
    ensures Turn(s, HousekeepRow(c, t, rows[i], now, es(i), vs(i)), rows, i + 1, j, end, back)
  {
    RowKeepsTurn(c, s, t, HousekeepRow(c, t, rows[i], now, es(i), vs(i)), rows, i, j, now, es(i), vs(i), end, back);
  }

  lemma SoundPassTurns(c: Config, s: State, now: int, envs: nat -> Env, j: nat, end: Phase, back: Owner)
    requires Sound(s, back) && !c.dryRun && j < |s.pending| && Aged(s.pending[j], now)
    requires AccountAt(s.chain, s.pending[j].key).phase == Open
    requires end == EndOf(c, AccountAt(s.chain, s.pending[j].key), s.pending[j].action, envs(2 * j), envs(2 * j + 1))
    ensures Turn(s, Pass(HousekeepOf(c, s.pending, now, envs), s, 0, |s.pending|), s.pending, |s.pending|, j, end, back)
  {
    var rows := s.pending;
    var row := HousekeepOf(c, rows, now, envs);
    var es: nat -> Env, vs: nat -> Env := (i: nat) => envs(2 * i), (i: nat) => envs(2 * i + 1);
    SoundStarts(s, j, end, back);
    var inv := (t: State, i: nat) => Turn(s, t, rows, i, j, end, back);
    assert end == EndOf(c, AccountAt(s.chain, rows[j].key), rows[j].action, es(j), vs(j));
    forall t, i: nat | i < |rows| && inv(t, i) ensures inv(row(t, i), i + 1) {
      HousekeepOfRow(c, rows, now, envs, t, i);
      PassKeepsTurn(c, s, t, rows, now, es, vs, i, j, end, back);
    }
    PassKeeps(row, s, 0, |rows|, inv);
  }

  lemma SoundPassEnds(c: Config, s: State, now: int, envs: nat -> Env, j: nat, back: Owner)
    requires Sound(s, back) && !c.dryRun && j < |s.pending| && Aged(s.pending[j], now)
    requires AccountAt(s.chain, s.pending[j].key).phase == Open
    ensures var p, t := s.pending[j], Next(c, s, Housekeep(now, envs, |s.pending|));
      && AccountAt(t.chain, p.key).phase
           == EndOf(c, AccountAt(s.chain, p.key), p.action, envs(2 * j), envs(2 * j + 1))
      && forall q :: q in t.pending ==> q.key != p.key
  {
    var p := s.pending[j];
    var end := EndOf(c, AccountAt(s.chain, p.key), p.action, envs(2 * j), envs(2 * j + 1));
    SoundPassTurns(c, s, now, envs, j, end, back);
  }

  /**
   In every state a run reaches, a housekeeping pass settles the open market of an aged entry to the claimed outcome
   exactly when the last attempt's proof is built and its bundle takes effect, whatever happens to the other entries;
   it voids the market exactly when that attempt does not and the void takes effect; and the entry goes.
  */
  lemma HousekeepPassEndsIff(c: Config, chain: Chain, steps: seq<Step>, now: int, envs: nat -> Env, j: nat, back: Owner)
    requires (forall i :: 0 <= i < |steps| ==> Allowed(c, steps[i], back)) && !c.dryRun
    requires var s := Run(c, Boot(chain), steps);
      j < |s.pending| && Aged(s.pending[j], now) && AccountAt(s.chain, s.pending[j].key).phase == Open
    ensures var s := Run(c, Boot(chain), steps);
      var p, e, v := s.pending[j], envs(2 * j), envs(2 * j + 1);
      var t := Next(c, s, Housekeep(now, envs, |s.pending|));
      var last := ProofBuilt(c, p.action, e) && TakesEffect(AccountAt(s.chain, p.key), p.action, e);
      && (AccountAt(t.chain, p.key).phase == Settled(p.action.yes) <==> last)
      && (AccountAt(t.chain, p.key).phase == Void <==> !last && v.graceOver && v.first != Lost)
      && (forall q :: q in t.pending ==> q.key != p.key)
  {
    RunKeepsSound(c, Boot(chain), steps, back);
    SoundPassEnds(c, Run(c, Boot(chain), steps), now, envs, j, back);
  }

  /** So an aged entry whose last attempt works is settled, not voided. */
  lemma HousekeepPassSettlesTheAged(c: Config, chain: Chain, steps: seq<Step>, now: int, envs: nat -> Env, j: nat,
                                    back: Owner)
    requires (forall i :: 0 <= i < |steps| ==> Allowed(c, steps[i], back)) && !c.dryRun
    requires var s := Run(c, Boot(chain), steps);
      && j < |s.pending| && Aged(s.pending[j], now) && ProofBuilt(c, s.pending[j].action, envs(2 * j))
      && Settleable(AccountAt(s.chain, s.pending[j].key), s.pending[j].action, envs(2 * j))
    ensures var s := Run(c, Boot(chain), steps);
      var t := Next(c, s, Housekeep(now, envs, |s.pending|));
      && AccountAt(t.chain, s.pending[j].key).phase == Settled(s.pending[j].action.yes)
      && Done(t, s.pending[j].key)
  {
    var s := Run(c, Boot(chain), steps);
    SeenIsEffective(AccountAt(s.chain, s.pending[j].key), s.pending[j].action, envs(2 * j));
    HousekeepPassEndsIff(c, chain, steps, now, envs, j, back);
  }
}
