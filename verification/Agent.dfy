/** The keeper as the object that updates its lists, map and file in place. */
module Agent {
  import opened Basics
  import opened Programs
  import opened Keeper

  class Agent {
    const config: Config
    var openMarkets: seq<OpenMarket>
    var pendingSettlements: seq<Pending>
    /** The persisted file and the chain outlive the process. */
    var file: Option<seq<Row>>
    var chain: Chain
    ghost var sent: seq<Sent>

    ghost function Abs(): State
      reads this
    {
      State(openMarkets, pendingSettlements, file, chain, sent)
    }

    /** A fresh process on an existing disk and chain. */
    constructor (config: Config, file: Option<seq<Row>>, chain: Chain)
      ensures this.config == config
      ensures Abs() == State([], [], file, chain, [])
    {
      this.config := config;
      openMarkets, pendingSettlements := [], [];
      this.file, this.chain, sent := file, chain, [];
    }

    method SubmitSignedTx(pda: string, tx: Tx, fate: TxFate, graceOver: bool) returns (ok: bool)
      modifies this
      ensures (Abs(), ok) == Send(old(Abs()), pda, tx, fate, graceOver)
    {
      var before := AccountAt(chain, pda);
      var verdict := Execute(tx, before, graceOver);
      var landed := verdict.Some? && fate != Lost;
      if landed { chain := chain[pda := verdict.value]; }
      sent := sent + [Sent(pda, tx, before, landed)];
      ok := landed && fate == Lands;
    }

    method FindMarket(p: Predicate) returns (idx: nat)
      ensures idx == Find(openMarkets, p)
    {
      idx := 0;
      while idx < |openMarkets| && !SameSlot(openMarkets[idx].p, p)
        invariant idx <= |openMarkets|
        invariant forall j :: 0 <= j < idx ==> !SameSlot(openMarkets[j].p, p)
      {
        idx := idx + 1;
      }
    }

    method IsTracked(pda: string) returns (found: bool)
      ensures found == Tracked(openMarkets, pda)
    {
      found := false;
      for i := 0 to |openMarkets|
        invariant found <==> exists j :: 0 <= j < i && openMarkets[j].marketPda == pda
      {
        if openMarkets[i].marketPda == pda { found := true; }
      }
    }

    method CreateMarket(p: Predicate, closesIn: int, title: string, e: Env) returns (r: Outcome)
      modifies this
      ensures (Abs(), r) == DoCreate(config, old(Abs()), p, closesIn, title, e)
    {
      var marketPda := config.pdaOf(p);
      if !config.dryRun && e.lookupOk {
        var existing := AccountAt(chain, marketPda).phase != Absent;
        if existing {
          openMarkets := openMarkets + [OpenMarket(p, title, e.now, closesIn, marketPda)];
          return Returned(true, marketPda);
        }
      }
      openMarkets := openMarkets + [OpenMarket(p, title, e.now, closesIn, marketPda)];
      if config.dryRun { return Returned(true, marketPda); }
      var ok := SubmitSignedTx(marketPda, CreateTx(Txline), e.first, e.graceOver);
      r := if ok then Returned(true, marketPda) else Threw;
    }

    /** Send the packed bundle in order, skipping a resolve whose receipt is already there. */
    method SendBundle(pda: string, a: Settlement, e: Env) returns (ok: bool)
      modifies this
      ensures (Abs(), ok) == SendSettlement(old(Abs()), pda, a, e)
    {
      if e.packing == TooLarge { return false; }
      var claim := ClaimOf(a, e);
      var txs := if e.packing == Split then [ResolveTx(claim), SettleTx(a.yes)] else [ResolveAndSettleTx(claim)];
      if e.packing == Split {
        if !e.receiptReadOk { return false; }
        if AccountAt(chain, pda).receipt.Some? { txs := txs[1..]; }
      }
      ok := true;
      var i := 0;
      ghost var s := Abs();
      ghost var all := txs;
      while i < |txs| && ok
        invariant i <= |txs| && txs == all
        invariant i == 0 ==> Abs() == s && ok
        invariant i == 1 ==> (Abs(), ok) == Send(s, pda, txs[0], FateOf(txs[0], e), e.graceOver)
        invariant i == 2 ==>
          var (s1, ok1) := Send(s, pda, txs[0], FateOf(txs[0], e), e.graceOver);
          ok1 && (Abs(), ok) == Send(s1, pda, txs[1], FateOf(txs[1], e), e.graceOver)
      {
        ok := SubmitSignedTx(pda, txs[i], FateOf(txs[i], e), e.graceOver);
        i := i + 1;
      }
    }

    /** The second transaction of a split bundle meets the second fate. */
    function FateOf(tx: Tx, e: Env): TxFate { if tx.SettleTx? then e.second else e.first }

    method SettleMarket(a: Settlement, e: Env) returns (r: Outcome)
      modifies this
      ensures (Abs(), r) == DoSettle(config, old(Abs()), a, e)
    {
      var idx := FindMarket(a.pred);
      if idx == |openMarkets| { return Returned(false, ""); }
      var market := openMarkets[idx];
      if market.marketPda == "" { return Returned(false, ""); }
      if !ProofBuilt(config, a, e) { return Returned(false, market.marketPda); }
      if config.dryRun {
        openMarkets := RemoveAt(openMarkets, idx);
        return Returned(true, market.marketPda);
      }
      var ok := SendBundle(market.marketPda, a, e);
      if !ok { return Threw; }
      openMarkets := RemoveAt(openMarkets, idx);
      r := Returned(true, market.marketPda);
    }

    method VoidMarket(p: Predicate, e: Env) returns (r: Outcome)
      modifies this
      ensures (Abs(), r) == DoVoid(config, old(Abs()), p, e)
    {
      var idx := FindMarket(p);
      if idx == |openMarkets| { return Returned(false, ""); }
      var market := openMarkets[idx];
      if market.marketPda == "" { return Returned(false, ""); }
      openMarkets := RemoveAt(openMarkets, idx);
      if config.dryRun { return Returned(true, market.marketPda); }
      var ok := SubmitSignedTx(market.marketPda, VoidTx, e.first, e.graceOver);
      r := if ok then Returned(true, market.marketPda) else Threw;
    }

    method PersistPendingSettlements()
      modifies this`file
      ensures Abs() == old(Abs()).(file := Some(ToRows(pendingSettlements)))
    {
      var rows := [];
      for i := 0 to |pendingSettlements|
        invariant |rows| == i && forall j :: 0 <= j < i ==> rows[j] == ToRow(pendingSettlements[j])
      {
        rows := rows + [ToRow(pendingSettlements[i])];
      }
      assert rows == ToRows(pendingSettlements);
      file := Some(rows);
    }

    method EnqueueSettlementRetry(a: Settlement, key: string, now: int)
      modifies this
      ensures Abs() == Enqueue(old(Abs()), a, key, now)
    {
      var existing := Lookup(pendingSettlements, key);
      var attempts := (if existing.Some? then existing.value.attempts else 0) + 1;
      var nextAttemptAt := now + Delay(attempts);
      var enqueuedAt := if existing.Some? then existing.value.enqueuedAt else now;
      if now - enqueuedAt > SETTLE_RETRY_GIVE_UP_MS {
        pendingSettlements := Delete(pendingSettlements, key);
        PersistPendingSettlements();
        return;
      }
      pendingSettlements := Put(pendingSettlements, Pending(key, a, attempts, nextAttemptAt, enqueuedAt));
      PersistPendingSettlements();
    }

    method ExecuteAction(action: Action, e: Env) returns (r: Outcome)
      modifies this
      ensures (Abs(), r) == Perform(config, old(Abs()), action, e)
    {
      match action
      case CreateMarket(p, closesIn, title) =>
        r := CreateMarket(p, closesIn, title, e);
      case VoidMarket(p, _) =>
        r := VoidMarket(p, e);
      case SettleMarket(a) =>
        r := SettleMarket(a, e);
        if r.Returned? && !r.success && r.marketPda != "" {
          EnqueueSettlementRetry(a, r.marketPda, e.now);
        } else if r.Returned? && r.success && r.marketPda != "" {
          pendingSettlements := Delete(pendingSettlements, r.marketPda);
          PersistPendingSettlements();
        }
    }

    /** Track a market for the entry unless one with its address is tracked already. */
    method EnsureTracked(p: Pending)
      modifies this`openMarkets
      ensures Abs() == Track(old(Abs()), p)
    {
      var tracked := IsTracked(p.key);
      if !tracked { openMarkets := openMarkets + [MarketOf(p)]; }
    }

    method ProcessPendingSettlements(now: int, envs: nat -> Env)
      modifies this
      ensures Abs() == Next(config, old(Abs()), Retry(now, envs, |old(pendingSettlements)|))
    {
      var rows := pendingSettlements;
      for i := 0 to |rows|
        invariant var row := RetryOf(config, rows, now, envs);
          Pass(row, Abs(), i, |rows|) == Pass(row, old(Abs()), 0, |rows|)
      {
        assert RetryOf(config, rows, now, envs)(Abs(), i) == RetryRow(config, Abs(), rows[i], now, envs(i));
        if rows[i].nextAttemptAt <= now {
          EnsureTracked(rows[i]);
          var _ := ExecuteAction(Action.SettleMarket(rows[i].action), envs(i));
        }
      }
    }

    method HousekeepPass(now: int, envs: nat -> Env)
      modifies this
      ensures Abs() == Next(config, old(Abs()), Housekeep(now, envs, |old(pendingSettlements)|))
    {
      var rows := pendingSettlements;
      for i := 0 to |rows|
        invariant var row := HousekeepOf(config, rows, now, envs);
          Pass(row, Abs(), i, |rows|) == Pass(row, old(Abs()), 0, |rows|)
      {
        var p := rows[i];
        assert HousekeepOf(config, rows, now, envs)(Abs(), i)
            == HousekeepRow(config, Abs(), p, now, envs(2 * i), envs(2 * i + 1));
        if now - p.enqueuedAt > SETTLE_RETRY_GIVE_UP_MS {
          var attempt := ExecuteAction(Action.SettleMarket(p.action), envs(2 * i));
          if !(attempt.Returned? && attempt.success && attempt.marketPda != "") {
            var _ := ExecuteAction(Action.VoidMarket(p.action.pred, p.action.title), envs(2 * i + 1));
          }
          pendingSettlements := Delete(pendingSettlements, p.key);
          PersistPendingSettlements();
        }
      }
    }

    method LoadPendingSettlements(now: int)
      modifies this
      ensures Abs() == Load(old(Abs()), now)
    {
      if file.None? { return; }
      var rows := file.value;
      pendingSettlements := [];
      ghost var s := Abs();
      for i := 0 to |rows|
        invariant LoadRows(Abs(), rows, now, i) == LoadRows(s, rows, now, 0)
      {
        if Readable(rows[i]) {
          var p := FromRow(rows[i], now);
          pendingSettlements := Put(pendingSettlements, p);
          EnsureTracked(p);
        }
      }
    }
  }
}
