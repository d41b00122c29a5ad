/** What the keeper achieves: due settlements settle, given-up markets end, created markets are tracked. */
module KeeperLiveness {
  import opened Programs
  import opened Keeper
  import opened KeeperProofs
  import opened KeeperRuns
  import opened KeeperDeadlines
  import opened KeeperChain

  /** A create always leaves its market tracked, and reports success only for a market that is on chain. */
  lemma CreateEffect(c: Config, s: State, p: Predicate, closesIn: int, title: string, e: Env)
    ensures var (t, r) := DoCreate(c, s, p, closesIn, title, e);
      && Tracked(t.open, c.pdaOf(p)) && t.pending == s.pending && t.file == s.file
      && (r == Returned(true, c.pdaOf(p)) <==>
            || c.dryRun
            || (e.lookupOk && AccountAt(s.chain, c.pdaOf(p)).phase != Absent)
            || (AccountAt(s.chain, c.pdaOf(p)).phase == Absent && e.first == Lands))
      && (r == Threw || r == Returned(true, c.pdaOf(p)))
      && (!c.dryRun && r != Threw ==> AccountAt(t.chain, c.pdaOf(p)).phase != Absent)
      && (c.dryRun ==> t.chain == s.chain && t.sent == s.sent)
      && (AccountAt(s.chain, c.pdaOf(p)).phase != Absent ==> t.chain == s.chain)
  {
    var t := DoCreate(c, s, p, closesIn, title, e).0;
    var m := OpenMarket(p, title, e.now, closesIn, c.pdaOf(p));
    assert t.open == s.open + [m];
    assert m in t.open;
  }

  /** The account a settlement may change is its target's. */
  lemma SettleTouchesOwnAccount(c: Config, s: State, a: Settlement, e: Env)
    ensures forall k :: k != Target(s, a.pred) ==>
      AccountAt(Perform(c, s, SettleMarket(a), e).0.chain, k) == AccountAt(s.chain, k)
  {
    SettlementFrame(s, Target(s, a.pred), a, e);
  }

  predicate Done(s: State, key: string) {
    AccountAt(s.chain, key).phase.Settled? && forall q :: q in s.pending ==> q.key != key
  }

  /** A due row whose proof and transactions go through is settled and leaves the books. */
  lemma RetryRowSettles(c: Config, s: State, p: Pending, now: int, e: Env)
    requires Books(s) && Restorable(p) && Target(s, p.action.pred) == p.key && !c.dryRun
    requires p.nextAttemptAt <= now && ProofBuilt(c, p.action, e) && Settleable(AccountAt(s.chain, p.key), p.action, e)
    ensures Done(RetryRow(c, s, p, now, e), p.key)
  {
    AimedRowIsTracked(s, p);
    SettleSucceedsIff(c, s, p.action, e);
    DeleteIsRemoval(s.pending, p.key);
    SettleCases(c, s, p.action, e);
  }

  lemma RetryRowLeavesOthers(c: Config, s: State, p: Pending, now: int, e: Env, key: string)
    requires Books(s) && Restorable(p) && Target(s, p.action.pred) == p.key != key
    ensures var t := RetryRow(c, s, p, now, e);
      AccountAt(t.chain, key) == AccountAt(s.chain, key) && (Done(s, key) ==> Done(t, key))
  {
    if p.nextAttemptAt <= now {
      AimedRowIsTracked(s, p);
      SettleTouchesOwnAccount(c, s, p.action, e);
      SettleTouchesOwnKey(c, s, p.action, e);
    }
  }

  /** Before its turn row `j` meets the account it met at the start; after it the market is done. */
  ghost predicate Turn(s0: State, s: State, rows: seq<Pending>, i: nat, j: nat, back: Owner)
    requires j < |rows|
  {
    && Steady(s, rows, i, back)
    && (i <= j ==> AccountAt(s.chain, rows[j].key) == AccountAt(s0.chain, rows[j].key))
    && (i > j ==> Done(s, rows[j].key))
  }

  lemma RetryRowKeepsTurn(c: Config, s0: State, s: State, rows: seq<Pending>, i: nat, j: nat, now: int, e: Env,
                          back: Owner)
    requires i < |rows| && j < |rows| && GoodRows(rows, back) && Turn(s0, s, rows, i, j, back) && !c.dryRun
    requires i == j ==> rows[j].nextAttemptAt <= now && ProofBuilt(c, rows[j].action, e)
    requires i == j ==> Settleable(AccountAt(s0.chain, rows[j].key), rows[j].action, e)
    ensures Turn(s0, RetryRow(c, s, rows[i], now, e), rows, i + 1, j, back)
  {
    RetryRowKeepsSound(c, s, rows, i, now, e, back);
    if i == j {
      RetryRowSettles(c, s, rows[i], now, e);
    } else {
      RetryRowLeavesOthers(c, s, rows[i], now, e, rows[j].key);
    }
  }

  /**
   In every state a run reaches, a retry pass settles each due entry whose proof is now available and whose
   transactions land, whatever happens to the other entries of the same pass.
  */
  lemma RetryPassSettlesTheDue(c: Config, chain: Chain, steps: seq<Step>, now: int, envs: nat -> Env, j: nat,
                               back: Owner)
    requires (forall i :: 0 <= i < |steps| ==> Allowed(c, steps[i], back)) && !c.dryRun
    requires var s := Run(c, Boot(chain), steps);
      && j < |s.pending| && s.pending[j].nextAttemptAt <= now && ProofBuilt(c, s.pending[j].action, envs(j))
      && Settleable(AccountAt(s.chain, s.pending[j].key), s.pending[j].action, envs(j))
    ensures var s := Run(c, Boot(chain), steps);
      Done(Next(c, s, Retry(now, envs, |s.pending|)), s.pending[j].key)
  {
    var s := Run(c, Boot(chain), steps);
    RunKeepsSound(c, Boot(chain), steps, back);
    SoundPassSettlesTheDue(c, s, now, envs, j, back);
  }

  lemma SoundPassSettlesTheDue(c: Config, s: State, now: int, envs: nat -> Env, j: nat, back: Owner)
    requires Sound(s, back) && !c.dryRun && j < |s.pending|
    requires s.pending[j].nextAttemptAt <= now && ProofBuilt(c, s.pending[j].action, envs(j))
    requires Settleable(AccountAt(s.chain, s.pending[j].key), s.pending[j].action, envs(j))
    ensures Done(Next(c, s, Retry(now, envs, |s.pending|)), s.pending[j].key)
  {
    var rows := s.pending;
    var inv := (t: State, i: nat) => Turn(s, t, rows, i, j, back);
    var row := RetryOf(c, rows, now, envs);
    forall t, i: nat | i < |rows| && inv(t, i) ensures inv(row(t, i), i + 1) {
      RetryOfRow(c, rows, now, envs, t, i);
      RetryRowKeepsTurn(c, s, t, rows, i, j, now, envs(i), back);
    }
    PassKeeps(row, s, 0, |rows|, inv);
    assert Turn(s, Pass(row, s, 0, |rows|), rows, |rows|, j, back);
  }

  /** A void that takes effect ends its target and touches nothing else. */
  lemma VoidEnds(c: Config, s: State, p: Predicate, title: string, v: Env)
    requires !c.dryRun && v.graceOver && v.first != Lost
    ensures var t, k := Perform(c, s, VoidMarket(p, title), v).0, Target(s, p);
      && (k != "" && AccountAt(s.chain, k).phase != Absent ==> Over(AccountAt(t.chain, k)))
      && (forall x :: x != k || k == "" ==> AccountAt(t.chain, x) == AccountAt(s.chain, x))
  {
  }

  /**
   Giving up on an open market past eight hours, with a void that takes effect, ends that market exactly
   when the entry is owed to the first market of its slot; otherwise another market is acted upon.
  */
  lemma GivingUpEndsIff(c: Config, s: State, p: Pending, now: int, e: Env, v: Env)
    requires !c.dryRun && p.key != "" && Aged(p, now)
    requires AccountAt(s.chain, p.key).phase == Open && v.graceOver && v.first != Lost
    ensures Over(AccountAt(HousekeepRow(c, s, p, now, e, v).chain, p.key)) <==> Target(s, p.action.pred) == p.key
  {
    var s1 := Perform(c, s, SettleMarket(p.action), e).0;
    SettleCases(c, s, p.action, e);
    SettleTouchesOwnAccount(c, s, p.action, e);
    PerformGrows(c, s, SettleMarket(p.action), e);
    VoidEnds(c, s1, p.action.pred, p.action.title, v);
  }

  /** So in every state a run reaches, giving up on a pending settlement ends its own market. */
  lemma GivingUpEndsTheMarket(c: Config, chain: Chain, steps: seq<Step>, p: Pending, now: int, e: Env, v: Env,
                              back: Owner)
    requires (forall i :: 0 <= i < |steps| ==> Allowed(c, steps[i], back)) && !c.dryRun
    requires p in Run(c, Boot(chain), steps).pending && Aged(p, now)
    requires AccountAt(Run(c, Boot(chain), steps).chain, p.key).phase == Open && v.graceOver && v.first != Lost
    ensures Over(AccountAt(HousekeepRow(c, Run(c, Boot(chain), steps), p, now, e, v).chain, p.key))
  {
    RunKeepsSound(c, Boot(chain), steps, back);
    GivingUpEndsIff(c, Run(c, Boot(chain), steps), p, now, e, v);
  }
}
