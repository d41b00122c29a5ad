/** Which claim is owed: pending settlements carry the claims that events asked for, and keep them. */
module KeeperClaims {
  import opened Keeper
  import opened KeeperProofs
  import opened KeeperRuns

  /** The settlements that the events of a run ask for, in order. */
  function Asked(steps: seq<Step>): seq<Settlement> {
    if steps == [] then []
    else
      var rest := Asked(steps[1..]);
      match steps[0]
      case Act(SettleMarket(a), _) => [a] + rest
      case _ => rest
  }

  lemma AskedSplit(steps: seq<Step>)
    requires steps != []
    ensures Asked(steps) == Asked([steps[0]]) + Asked(steps[1..])
  {
    assert [steps[0]][1..] == [];
  }

  /** The entry's claim was owed in `s` under the same key, or is one of those asked for. */
  predicate ComesFrom(r: Pending, pending: seq<Pending>, asked: seq<Settlement>) {
    (exists q :: q in pending && q.key == r.key && q.action == r.action) || r.action in asked
  }

  predicate AllComeFrom(s: State, pending: seq<Pending>, asked: seq<Settlement>) {
    forall r :: r in s.pending ==> ComesFrom(r, pending, asked)
  }

  lemma SettleBooksItsClaim(c: Config, s: State, a: Settlement, e: Env)
    requires Books(s)
    ensures forall r :: r in Perform(c, s, SettleMarket(a), e).0.pending ==>
      r in s.pending || (r.action == a && r.key == Target(s, a.pred))
  {
    var k := Target(s, a.pred);
    SettleCases(c, s, a, e);
    DeleteIsRemoval(s.pending, k);
    EnqueueEffect(s, a, k, e.now);
  }

  /** In a pass every claim stays under its own key. */
  predicate ClaimsKept(s: State, rows: seq<Pending>, i: nat, back: Owner) {
    Steady(s, rows, i, back) && AllComeFrom(s, rows, [])
  }

  lemma RetryRowKeepsClaims(c: Config, s: State, rows: seq<Pending>, i: nat, now: int, e: Env, back: Owner)
    requires i < |rows| && GoodRows(rows, back) && ClaimsKept(s, rows, i, back)
    ensures ClaimsKept(RetryRow(c, s, rows[i], now, e), rows, i + 1, back)
  {
    var p := rows[i];
    RetryRowKeepsSound(c, s, rows, i, now, e, back);
    AimedRowIsTracked(s, p);
    SettleBooksItsClaim(c, s, p.action, e);
    assert p in rows;
  }

  lemma HousekeepRowKeepsClaims(c: Config, s: State, rows: seq<Pending>, i: nat, now: int, e: Env, v: Env, back: Owner)
    requires i < |rows| && GoodRows(rows, back) && ClaimsKept(s, rows, i, back)
    ensures ClaimsKept(HousekeepRow(c, s, rows[i], now, e, v), rows, i + 1, back)
  {
    var p := rows[i];
    var t := HousekeepRow(c, s, p, now, e, v);
    HousekeepRowKeepsSound(c, s, rows, i, now, e, v, back);
    if now - p.enqueuedAt > SETTLE_RETRY_GIVE_UP_MS {
      forall r | r in t.pending ensures r in s.pending { HousekeepRowLeavesOthers(c, s, p, now, e, v, r, back); }
    }
  }

  lemma RetryKeepsClaims(c: Config, s: State, now: int, envs: nat -> Env, n: nat, back: Owner)
    requires n <= |s.pending| && Sound(s, back)
    ensures AllComeFrom(Pass(RetryOf(c, s.pending, now, envs), s, 0, n), s.pending, [])
  {
    var rows := s.pending;
    var inv := (t: State, j: nat) => ClaimsKept(t, rows, j, back);
    var row := RetryOf(c, rows, now, envs);
    forall t, j: nat | j < n && inv(t, j) ensures inv(row(t, j), j + 1) {
      RetryOfRow(c, rows, now, envs, t, j);
      RetryRowKeepsClaims(c, t, rows, j, now, envs(j), back);
    }
    PassKeeps(row, s, 0, n, inv);
  }

  lemma HousekeepKeepsClaims(c: Config, s: State, now: int, envs: nat -> Env, n: nat, back: Owner)
    requires n <= |s.pending| && Sound(s, back)
    ensures AllComeFrom(Pass(HousekeepOf(c, s.pending, now, envs), s, 0, n), s.pending, [])
  {
    var rows := s.pending;
    var inv := (t: State, j: nat) => ClaimsKept(t, rows, j, back);
    var row := HousekeepOf(c, rows, now, envs);
    forall t, j: nat | j < n && inv(t, j) ensures inv(row(t, j), j + 1) {
      HousekeepOfRow(c, rows, now, envs, t, j);
      HousekeepRowKeepsClaims(c, t, rows, j, now, envs(2 * j), envs(2 * j + 1), back);
    }
    PassKeeps(row, s, 0, n, inv);
  }

  lemma StepKeepsClaims(c: Config, s: State, step: Step, back: Owner)
    requires Sound(s, back) && Allowed(c, step, back)
    ensures AllComeFrom(Next(c, s, step), s.pending, Asked([step]))
  {
    match step
    case Act(action, e) =>
      if action.SettleMarket? {
        SettleBooksItsClaim(c, s, action.s, e);
        assert Asked([step]) == [action.s] + Asked([]);
      }
    case Retry(now, envs, count) => RetryKeepsClaims(c, s, now, envs, Clip(count, |s.pending|), back);
    case Housekeep(now, envs, count) => HousekeepKeepsClaims(c, s, now, envs, Clip(count, |s.pending|), back);
    case Reboot(now) => RestartKeepsBooks(s, now);
    case CrashIn(action, e, now) =>
      var s1 := Perform(c, s, action, e).0;
      RestartKeepsBooks(s.(chain := s1.chain, sent := s1.sent), now);
    case Outside(_, _, _) =>
  }

  /** Over every run each pending claim was owed under its key at the start, or an event of the run asked for it. */
  lemma {:induction false} RunKeepsClaims(c: Config, s: State, steps: seq<Step>, back: Owner)
    requires Sound(s, back) && forall i :: 0 <= i < |steps| ==> Allowed(c, steps[i], back)
    ensures AllComeFrom(Run(c, s, steps), s.pending, Asked(steps))
    decreases |steps|
  {
    if steps != [] {
      var s1 := Next(c, s, steps[0]);
      StepKeepsClaims(c, s, steps[0], back);
      StepKeepsSound(c, s, steps[0], back);
      RunKeepsClaims(c, s1, steps[1..], back);
      AskedSplit(steps);
      ComesFromTrans(Run(c, s, steps), s1, s.pending, Asked([steps[0]]), Asked(steps[1..]));
    }
  }

  lemma ComesFromTrans(t: State, s1: State, pending: seq<Pending>, first: seq<Settlement>, rest: seq<Settlement>)
    requires AllComeFrom(t, s1.pending, rest) && AllComeFrom(s1, pending, first)
    ensures AllComeFrom(t, pending, first + rest)
  {
    forall r | r in t.pending ensures ComesFrom(r, pending, first + rest) {
      if r.action !in rest {
        var q :| q in s1.pending && q.key == r.key && q.action == r.action;
        assert ComesFrom(q, pending, first);
      }
    }
  }

  /** From an empty start every pending claim is one that some event asked for. */
  lemma ClaimsComeFromEvents(c: Config, chain: Chain, steps: seq<Step>, back: Owner)
    requires forall i :: 0 <= i < |steps| ==> Allowed(c, steps[i], back)
    ensures forall r :: r in Run(c, Boot(chain), steps).pending ==> r.action in Asked(steps)
  {
    RunKeepsClaims(c, Boot(chain), steps, back);
  }

  /** As long as no event asks for a settlement of its slot, an owed claim is not exchanged for another. */
  lemma ClaimKeptUnlessAsked(c: Config, s: State, steps: seq<Step>, back: Owner, q: Pending, r: Pending)
    requires Sound(s, back) && forall i :: 0 <= i < |steps| ==> Allowed(c, steps[i], back)
    requires q in s.pending && r in Run(c, s, steps).pending && r.key == q.key
    requires forall a :: a in Asked(steps) ==> !SameSlot(a.pred, q.action.pred)
    ensures r.action == q.action
  {
    RunKeepsClaims(c, s, steps, back);
    RunKeepsSound(c, s, steps, back);
    assert SlotOf(r.action.pred) == back(r.key) == SlotOf(q.action.pred);
    assert ComesFrom(r, s.pending, Asked(steps));
    var x :| x in s.pending && x.key == r.key && x.action == r.action;
    SameKeySameEntry(s.pending, x, q);
  }
}
