/** Runs from an empty keeper that show where its promises end. */
module KeeperCases {
  import opened Basics
  import opened Programs
  import opened Keeper
  import opened KeeperProofs
  import opened KeeperRuns
  import opened KeeperDeadlines
  import opened KeeperAccounts

  const THREE := Predicate("total_goals_over", "M-1", 3)
  const FOUR := Predicate("total_goals_over", "M-1", 4)

  function Owed(line: Predicate, yes: bool): Settlement { Settlement(line, yes, 1, 1, "") }

  /** A total of four goals; everything works except what the arguments say. */
  function With(proofOk: bool, packing: Packing, second: TxFate): Env {
    Env(0, true, proofOk, 4, packing, true, Lands, second, false)
  }

  const FRESH := Account(Open, None, Txline)

  /** A live keeper with distinct, known addresses for the two lines. */
  predicate Live(c: Config) {
    !c.dryRun && c.hasCreds && c.pdaOf(THREE) != "" && c.pdaOf(FOUR) != "" && c.pdaOf(THREE) != c.pdaOf(FOUR)
  }

  function Opened(c: Config, line: Predicate): OpenMarket { OpenMarket(line, "", 0, 7200, c.pdaOf(line)) }

  function Create(line: Predicate): Step { Act(CreateMarket(line, 7200, ""), With(true, Whole, Lands)) }

  lemma CreateOpens(c: Config, s: State, line: Predicate)
    requires !c.dryRun && c.pdaOf(line) !in s.chain
    ensures var t := Next(c, s, Create(line));
      && t.open == s.open + [Opened(c, line)] && t.pending == s.pending && t.file == s.file
      && t.chain == s.chain[c.pdaOf(line) := FRESH]
  {
  }

  // ------------------------------------------------- two lines on one match

  /** The proof is late when the match ends: both lines' settlements are asked for, neither can be proved yet. */
  function TwoLines(): seq<Step> {
    [Create(THREE), Create(FOUR),
     Act(SettleMarket(Owed(THREE, true)), With(false, Whole, Lands)),
     Act(SettleMarket(Owed(FOUR, false)), With(false, Whole, Lands))]
  }

  /**
   The second line's settlement is booked under the first line's market, in the place of the first
   line's own settlement, and nothing is booked for the second market.
  */
  lemma SecondLineIsBookedOnTheFirst(c: Config)
    requires Live(c)
    ensures var s := Run(c, Boot(map[]), TwoLines());
      && s.open == [Opened(c, THREE), Opened(c, FOUR)]
      && s.pending == [Pending(c.pdaOf(THREE), Owed(FOUR, false), 2, Delay(2), 0)]
      && AccountAt(s.chain, c.pdaOf(THREE)) == AccountAt(s.chain, c.pdaOf(FOUR)) == FRESH
  {
    var steps := TwoLines();
    var s0 := Boot(map[]);
    var s1 := Next(c, s0, steps[0]);
    CreateOpens(c, s0, THREE);
    var s2 := Next(c, s1, steps[1]);
    CreateOpens(c, s1, FOUR);
    assert s2.open == [Opened(c, THREE), Opened(c, FOUR)];
    assert s2.open[0] == Opened(c, THREE) && Find(s2.open, THREE) == 0 && Find(s2.open, FOUR) == 0;
    var a := c.pdaOf(THREE);
    var s3 := Next(c, s2, steps[2]);
    assert s3 == Enqueue(s2, Owed(THREE, true), a, 0);
    assert s3.pending == [Pending(a, Owed(THREE, true), 1, Delay(1), 0)];
    var s4 := Next(c, s3, steps[3]);
    assert s4 == Enqueue(s3, Owed(FOUR, false), a, 0);
    assert s3.pending[1..] == [];
    RunOfFour(c, s0, steps[0], steps[1], steps[2], steps[3]);
  }

  lemma RunCons(c: Config, s: State, w: Step, rest: seq<Step>)
    ensures Run(c, s, [w] + rest) == Run(c, Next(c, s, w), rest)
  {
    assert ([w] + rest)[1..] == rest;
  }

  lemma RunOfFour(c: Config, s: State, w: Step, x: Step, y: Step, z: Step)
    ensures Run(c, s, [w, x, y, z]) == Next(c, Next(c, Next(c, Next(c, s, w), x), y), z)
  {
    var s1 := Next(c, s, w);
    var s2 := Next(c, s1, x);
    var s3 := Next(c, s2, y);
    assert [w, x, y, z] == [w] + [x, y, z] && [x, y, z] == [x] + [y, z] && [y, z] == [y] + [z] && [z] == [z] + [];
    RunCons(c, s, w, [x, y, z]);
    RunCons(c, s1, x, [y, z]);
    RunCons(c, s2, y, [z]);
    RunCons(c, s3, z, []);
  }

  /**
   And when the proof of four goals arrives, it settles "over three" to NO by the claim of "over four"; the second
   market stays open, unowed.
  */
  lemma SecondLineSettlesTheFirst(c: Config, now: int, envs: nat -> Env)
    requires Live(c) && now >= Delay(2) && envs(0) == With(true, Whole, Lands)
    ensures var s := Run(c, Boot(map[]), TwoLines());
      var t := Next(c, s, Retry(now, envs, |s.pending|));
      && AccountAt(t.chain, c.pdaOf(THREE)).phase == Settled(false)
      && AccountAt(t.chain, c.pdaOf(FOUR)).phase == Open && t.pending == []
      && t.open == [Opened(c, FOUR)]
  {
    var s := Run(c, Boot(map[]), TwoLines());
    SecondLineIsBookedOnTheFirst(c);
    var p := s.pending[0];
    assert Find(s.open, FOUR) == 0;
    AimedRowIsTracked(s, p);
    var t := RetryRow(c, s, p, now, envs(0));
    assert DoSettle(c, s, Owed(FOUR, false), envs(0)).1 == Returned(true, c.pdaOf(THREE));
    assert t.open == [Opened(c, FOUR)];
    assert t.pending == [];
    RetryOfRow(c, s.pending, now, envs, s, 0);
  }

  // --------------------------------------------- a receipt left by a split

  const HALF := Account(Open, Some(Receipt(true, Txline)), Txline)

  function HalfDone(): seq<Step> { [Create(THREE), Act(SettleMarket(Owed(THREE, true)), With(true, Split, Lost))] }

  /**
   After a split attempt that lost its second transaction, no bundle that fits one transaction can settle the
   market.
  */
  lemma WholeAfterSplitFails(c: Config, e: Env)
    requires Live(c) && e.packing == Whole
    ensures var s := Run(c, Boot(map[]), HalfDone());
      var (t, r) := DoSettle(c, s, Owed(THREE, true), e);
      t.chain == s.chain && (r == Threw || r == Returned(false, c.pdaOf(THREE)))
  {
    HalfDoneLeavesReceipt(c);
  }

  lemma HalfDoneLeavesReceipt(c: Config)
    requires Live(c)
    ensures var s := Run(c, Boot(map[]), HalfDone());
      && s.open == [Opened(c, THREE)] && AccountAt(s.chain, c.pdaOf(THREE)) == HALF && s.pending == []
      && Find(s.open, THREE) == 0
  {
    var steps := HalfDone();
    var s0 := Boot(map[]);
    var s1 := Next(c, s0, steps[0]);
    CreateOpens(c, s0, THREE);
    assert s1.open == [Opened(c, THREE)] && s1.open[0] == Opened(c, THREE);
    var s2 := Next(c, s1, steps[1]);
    assert Find(s1.open, THREE) == 0;
    assert s2.open == s1.open && AccountAt(s2.chain, c.pdaOf(THREE)) == HALF && s2.pending == [];
    assert steps == [steps[0]] + [steps[1]] && [steps[1]] == [steps[1]] + [];
    RunCons(c, s0, steps[0], [steps[1]]);
    RunCons(c, s1, steps[1], []);
  }

  /**
   The same half-done settlement, then a corrected score: the market has a receipt for the old outcome, and over
   no later run is it settled to the new one, unless the authority overrides it.
  */
  lemma CorrectedScoreIsBarred(c: Config, later: seq<Step>)
    requires Live(c) && forall i :: 0 <= i < |later| ==> !Overrides(later[i], c.pdaOf(THREE))
    ensures var s := Run(c, Boot(map[]), HalfDone());
      AccountAt(Run(c, s, later).chain, c.pdaOf(THREE)).phase != Settled(false)
  {
    HalfDoneLeavesReceipt(c);
    BarredNeverSettles(c, Run(c, Boot(map[]), HalfDone()), later, c.pdaOf(THREE), false);
  }

  function Foreign(c: Config, yes: bool, id: nat): Step {
    Outside(c.pdaOf(THREE), ResolveTx(Claim(yes, OtherOracle(id), true)), false)
  }

  lemma ForeignReceipt(c: Config, yes: bool, id: nat)
    requires Live(c)
    ensures AccountAt(Run(c, Boot(map[]), [Create(THREE), Foreign(c, yes, id)]).chain, c.pdaOf(THREE))
      == Account(Open, Some(Receipt(yes, OtherOracle(id))), Txline)
  {
    var s0, x, y := Boot(map[]), Create(THREE), Foreign(c, yes, id);
    CreateOpens(c, s0, THREE);
    assert [x, y] == [x] + [y] && [y] == [y] + [];
    RunCons(c, s0, x, [y]);
    RunCons(c, Next(c, s0, x), y, []);
  }

  /** Anybody can resolve a fresh market by a validator of theirs: after that it is never settled by proof at all. */
  lemma ForeignResolveBlocks(c: Config, yes: bool, id: nat, later: seq<Step>)
    requires Live(c) && forall i :: 0 <= i < |later| ==> !Overrides(later[i], c.pdaOf(THREE))
    ensures var s := Run(c, Boot(map[]), [Create(THREE), Foreign(c, yes, id)]);
      AccountAt(Run(c, s, later).chain, c.pdaOf(THREE)).phase in {Open, Void}
  {
    ForeignReceipt(c, yes, id);
    ForeignReceiptNeverSettles(c, Run(c, Boot(map[]), [Create(THREE), Foreign(c, yes, id)]), later, c.pdaOf(THREE));
  }

  // ------------------------------------------------ events that come again

  /** The same settlement asked for `n` times in a row while its proof is missing. */
  function Events(n: nat): seq<Step> {
    if n == 0 then [] else [Act(SettleMarket(Owed(THREE, true)), With(false, Whole, Lands))] + Events(n - 1)
  }

  lemma {:induction false} EventsCount(c: Config, s: State, k: nat, n: nat)
    requires Live(c) && s.open == [Opened(c, THREE)] && k > 0
    requires s.pending == [Pending(c.pdaOf(THREE), Owed(THREE, true), k, Delay(k), 0)]
    ensures Run(c, s, Events(n)).pending == [Pending(c.pdaOf(THREE), Owed(THREE, true), k + n, Delay(k + n), 0)]
    decreases n
  {
    if n > 0 {
      var t := Next(c, s, Events(n)[0]);
      assert s.open[0] == Opened(c, THREE) && Find(s.open, THREE) == 0;
      assert t == Enqueue(s, Owed(THREE, true), c.pdaOf(THREE), 0);
      assert s.pending[1..] == [];
      RunCons(c, s, Events(n)[0], Events(n - 1));
      EventsCount(c, t, k + 1, n - 1);
    }
  }

  lemma FirstAsk(c: Config)
    requires Live(c)
    ensures var s := Next(c, Next(c, Boot(map[]), Create(THREE)), Events(1)[0]);
      && s.open == [Opened(c, THREE)]
      && s.pending == [Pending(c.pdaOf(THREE), Owed(THREE, true), 1, Delay(1), 0)]
  {
    var s1 := Next(c, Boot(map[]), Create(THREE));
    CreateOpens(c, Boot(map[]), THREE);
    assert s1.open == [Opened(c, THREE)] && s1.open[0] == Opened(c, THREE) && Find(s1.open, THREE) == 0;
    assert Next(c, s1, Events(1)[0]) == Enqueue(s1, Owed(THREE, true), c.pdaOf(THREE), 0);
  }

  lemma AskedAgain(c: Config, n: nat)
    requires Live(c) && n > 0
    ensures Run(c, Boot(map[]), [Create(THREE)] + Events(n)).pending
      == [Pending(c.pdaOf(THREE), Owed(THREE, true), n, Delay(n), 0)]
  {
    var s1 := Next(c, Boot(map[]), Create(THREE));
    FirstAsk(c);
    RunCons(c, Boot(map[]), Create(THREE), Events(n));
    RunCons(c, s1, Events(1)[0], Events(n - 1));
    EventsCount(c, Next(c, s1, Events(1)[0]), 1, n - 1);
  }

  /** Events are not paced: asked for `n` times, a settlement is stored with `n` attempts, be they more than 18. */
  lemma AttemptsAreUnbounded(c: Config, n: nat)
    requires Live(c) && n > 0
    ensures var s := Run(c, Boot(map[]), [Create(THREE)] + Events(n));
      |s.pending| == 1 && s.pending[0].attempts == n && (n > 18 ==> !OnSchedule(s.pending[0]))
  {
    AskedAgain(c, n);
  }
}
