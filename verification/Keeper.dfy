/**
 The settlement keeper as a transition system: the tracked open markets, the
 pending-settlement map, its copy on disk, and the chain, together with what
 each keeper action does to them.  Everything the keeper cannot control (the
 clock, proof retrieval, the fate of a transaction) arrives as an `Env`.
*/
module Keeper {
  import opened Basics
  import opened Programs

  const SETTLE_RETRY_INITIAL_MS := 5 * 60 * 1000
  const SETTLE_RETRY_MAX_MS := 30 * 60 * 1000
  const SETTLE_RETRY_GIVE_UP_MS := 8 * 60 * 60 * 1000

  // ------------------------------------------------------------ the chain

  type Chain = map<string, Account>

  function AccountAt(chain: Chain, pda: string): Account {
    if pda in chain then chain[pda] else Account(Absent, None, Txline)
  }

  /** One submitted transaction, with the account it met and whether it took effect. */
  datatype Sent = Sent(pda: string, tx: Tx, before: Account, landed: bool)

  // ------------------------------------------------------- keeper entities

  datatype Predicate = Predicate(kind: string, matchId: string, param: int)

  /** Markets are looked up by kind and match only, not by their line. */
  predicate SameSlot(p: Predicate, q: Predicate) {
    p.kind == q.kind && p.matchId == q.matchId
  }

  datatype Settlement = Settlement(pred: Predicate, yes: bool, seqNo: int, statKey: int, title: string)

  datatype Action =
    | CreateMarket(p: Predicate, closesIn: int, title: string)
    | SettleMarket(s: Settlement)
    | VoidMarket(p: Predicate, title: string)

  /** An empty `marketPda` is the source's falsy (unknown) address. */
  datatype OpenMarket = OpenMarket(p: Predicate, title: string, createdAt: int, ttl: int, marketPda: string)

  datatype Pending = Pending(key: string, action: Settlement, attempts: int, nextAttemptAt: int, enqueuedAt: int)

  /** A row of the persisted file; fields a foreign writer may have omitted are optional. */
  datatype Row = Row(marketPda: string, action: Option<Settlement>, attempts: Option<int>,
                     nextAttemptAt: Option<int>, enqueuedAt: Option<int>)

  datatype Config = Config(dryRun: bool, hasCreds: bool, pdaOf: Predicate -> string)

  datatype Packing = TooLarge | Whole | Split

  /** Everything one action is told by the outside world; `total` is the statistic that a fetched proof proves. */
  datatype Env = Env(now: int, lookupOk: bool, proofOk: bool, total: int, packing: Packing, receiptReadOk: bool,
                     first: TxFate, second: TxFate, graceOver: bool)

  datatype Outcome = Returned(success: bool, marketPda: string) | Threw

  datatype State = State(open: seq<OpenMarket>, pending: seq<Pending>, file: Option<seq<Row>>,
                         chain: Chain, sent: seq<Sent>)

  // ---------------------------------------- insertion-ordered map operations

  predicate Distinct(p: seq<Pending>) {
    forall i, j :: 0 <= i < j < |p| ==> p[i].key != p[j].key
  }

  function Lookup(p: seq<Pending>, key: string): (r: Option<Pending>)
    ensures r.Some? ==> r.value in p && r.value.key == key
    ensures r.None? ==> forall q :: q in p ==> q.key != key
  {
    if p == [] then None
    else if p[0].key == key then Some(p[0])
    else Lookup(p[1..], key)
  }

  function Put(p: seq<Pending>, e: Pending): (r: seq<Pending>)
    ensures r != []
  {
    if p == [] then [e]
    else if p[0].key == e.key then [e] + p[1..]
    else [p[0]] + Put(p[1..], e)
  }

  function Delete(p: seq<Pending>, key: string): (r: seq<Pending>)
  {
    if p == [] then []
    else if p[0].key == key then p[1..]
    else [p[0]] + Delete(p[1..], key)
  }

  // ------------------------------------------------------- tracked markets

  /** First market in the slot of `p`, or the length when there is none. */
  function Find(open: seq<OpenMarket>, p: Predicate): (i: nat)
    ensures i <= |open|
    ensures i < |open| ==> SameSlot(open[i].p, p)
    ensures forall j :: 0 <= j < i ==> !SameSlot(open[j].p, p)
  {
    if open == [] then 0
    else if SameSlot(open[0].p, p) then 0
    else 1 + Find(open[1..], p)
  }

  predicate Tracked(open: seq<OpenMarket>, pda: string) {
    exists m :: m in open && m.marketPda == pda
  }

  function RemoveAt<T>(s: seq<T>, i: nat): seq<T>
    requires i < |s|
  {
    s[..i] + s[i + 1..]
  }

  function MarketOf(p: Pending): OpenMarket {
    OpenMarket(p.action.pred, p.action.title, p.enqueuedAt, 7200, p.key)
  }

  // ------------------------------------------------------------ submitting

  /** Submit one transaction; the flag says whether the sender saw success. */
  function Send(s: State, pda: string, tx: Tx, fate: TxFate, graceOver: bool): (State, bool) {
    var before := AccountAt(s.chain, pda);
    var verdict := Execute(tx, before, graceOver);
    if verdict.Some? && fate != Lost then
      (s.(chain := s.chain[pda := verdict.value], sent := s.sent + [Sent(pda, tx, before, true)]), fate == Lands)
    else
      (s.(sent := s.sent + [Sent(pda, tx, before, false)]), false)
  }

  // --------------------------------------------------------------- actions

  function DoCreate(c: Config, s: State, p: Predicate, closesIn: int, title: string, e: Env): (State, Outcome) {
    var pda := c.pdaOf(p);
    var s1 := s.(open := s.open + [OpenMarket(p, title, e.now, closesIn, pda)]);
    if c.dryRun || (e.lookupOk && AccountAt(s.chain, pda).phase != Absent) then
      (s1, Returned(true, pda))
    else
      var (s2, ok) := Send(s1, pda, CreateTx(Txline), e.first, e.graceOver);
      (s2, if ok then Returned(true, pda) else Threw)
  }

  /** The proved total lies over the settlement's own line exactly if it claims so. */
  predicate Proves(a: Settlement, e: Env) { (e.total > a.pred.param) == a.yes }

  function ClaimOf(a: Settlement, e: Env): Claim { Claim(a.yes, Txline, Proves(a, e)) }

  /** The transactions of one settlement, sent in order until one fails. */
  function SendSettlement(s: State, pda: string, a: Settlement, e: Env): (State, bool) {
    match e.packing
    case TooLarge => (s, false)
    case Whole => Send(s, pda, ResolveAndSettleTx(ClaimOf(a, e)), e.first, e.graceOver)
    case Split =>
      if !e.receiptReadOk then (s, false)
      else if AccountAt(s.chain, pda).receipt.Some? then Send(s, pda, SettleTx(a.yes), e.second, e.graceOver)
      else
        var (s1, ok) := Send(s, pda, ResolveTx(ClaimOf(a, e)), e.first, e.graceOver);
        if ok then Send(s1, pda, SettleTx(a.yes), e.second, e.graceOver) else (s1, false)
  }

  predicate ProofBuilt(c: Config, a: Settlement, e: Env) {
    c.hasCreds && a.seqNo > 0 && a.statKey > 0 && e.proofOk
  }

  function DoSettle(c: Config, s: State, a: Settlement, e: Env): (State, Outcome) {
    var i := Find(s.open, a.pred);
    if i == |s.open| || s.open[i].marketPda == "" then (s, Returned(false, ""))
    else
      var pda := s.open[i].marketPda;
      if !ProofBuilt(c, a, e) then (s, Returned(false, pda))
      else if c.dryRun then (s.(open := RemoveAt(s.open, i)), Returned(true, pda))
      else
        var (s1, ok) := SendSettlement(s, pda, a, e);
        if ok then (s1.(open := RemoveAt(s.open, i)), Returned(true, pda)) else (s1, Threw)
  }

  function DoVoid(c: Config, s: State, p: Predicate, e: Env): (State, Outcome) {
    var i := Find(s.open, p);
    if i == |s.open| || s.open[i].marketPda == "" then (s, Returned(false, ""))
    else
      var pda := s.open[i].marketPda;
      var s1 := s.(open := RemoveAt(s.open, i));
      if c.dryRun then (s1, Returned(true, pda))
      else
        var (s2, ok) := Send(s1, pda, VoidTx, e.first, e.graceOver);
        (s2, if ok then Returned(true, pda) else Threw)
  }

  // --------------------------------------------- persistence and the retry

  function ToRow(p: Pending): Row {
    Row(p.key, Some(p.action), Some(p.attempts), Some(p.nextAttemptAt), Some(p.enqueuedAt))
  }

  function ToRows(p: seq<Pending>): (r: seq<Row>)
    ensures |r| == |p|
    ensures forall i :: 0 <= i < |p| ==> r[i] == ToRow(p[i])
  {
    seq(|p|, i requires 0 <= i < |p| => ToRow(p[i]))
  }

  function SetPending(s: State, p: seq<Pending>): State {
    s.(pending := p, file := Some(ToRows(p)))
  }

  function Pow2(n: nat): (r: nat)
    ensures r >= 1
  {
    if n == 0 then 1 else 2 * Pow2(n - 1)
  }

  function Min(a: int, b: int): int { if a < b then a else b }

  /** The capped exponential delay stored with the given attempt number. */
  function Delay(attempts: int): int {
    Min(SETTLE_RETRY_INITIAL_MS * Pow2(if attempts <= 1 then 0 else attempts - 1), SETTLE_RETRY_MAX_MS)
  }

  function Enqueue(s: State, a: Settlement, key: string, now: int): State {
    var existing := Lookup(s.pending, key);
    var attempts := (if existing.Some? then existing.value.attempts else 0) + 1;
    var enqueuedAt := if existing.Some? then existing.value.enqueuedAt else now;
    if now - enqueuedAt > SETTLE_RETRY_GIVE_UP_MS then SetPending(s, Delete(s.pending, key))
    else SetPending(s, Put(s.pending, Pending(key, a, attempts, now + Delay(attempts), enqueuedAt)))
  }

  /** `executeAction`: run the action, then book-keep a settlement's result. */
  function Perform(c: Config, s: State, action: Action, e: Env): (State, Outcome) {
    match action
    case CreateMarket(p, closesIn, title) => DoCreate(c, s, p, closesIn, title, e)
    case VoidMarket(p, _) => DoVoid(c, s, p, e)
    case SettleMarket(a) =>
      var (s1, r) := DoSettle(c, s, a, e);
      if r.Returned? && r.marketPda != "" then
        if r.success then (SetPending(s1, Delete(s1.pending, r.marketPda)), r)
        else (Enqueue(s1, a, r.marketPda, e.now), r)
      else (s1, r)
  }

  // ---------------------------------------------------------------- passes

  function Track(s: State, p: Pending): State {
    if Tracked(s.open, p.key) then s else s.(open := s.open + [MarketOf(p)])
  }

  function RetryRow(c: Config, s: State, p: Pending, now: int, e: Env): State {
    if p.nextAttemptAt > now then s
    else Perform(c, Track(s, p), SettleMarket(p.action), e).0
  }

  function HousekeepRow(c: Config, s: State, p: Pending, now: int, settleEnv: Env, voidEnv: Env): State {
    if now - p.enqueuedAt <= SETTLE_RETRY_GIVE_UP_MS then s
    else
      var (s1, r) := Perform(c, s, SettleMarket(p.action), settleEnv);
      var s2 := if r.Returned? && r.success && r.marketPda != "" then s1
                else Perform(c, s1, VoidMarket(p.action.pred, p.action.title), voidEnv).0;
      SetPending(s2, Delete(s2.pending, p.key))
  }

  /** How a pass handles the row of a given number. */
  type RowStep = (State, nat) -> State

  function RetryOf(c: Config, rows: seq<Pending>, now: int, envs: nat -> Env): RowStep {
    (s: State, i: nat) => if i < |rows| then RetryRow(c, s, rows[i], now, envs(i)) else s
  }

  function HousekeepOf(c: Config, rows: seq<Pending>, now: int, envs: nat -> Env): RowStep {
    (s: State, i: nat) =>
      if i < |rows| then HousekeepRow(c, s, rows[i], now, envs(2 * i), envs(2 * i + 1)) else s
  }

  /** A pass over the rows of a snapshot, from row `i` up to row `n`. */
  function Pass(row: RowStep, s: State, i: nat, n: nat): State
    requires i <= n
    decreases n - i
  {
    if i == n then s else Pass(row, row(s, i), i + 1, n)
  }

  // --------------------------------------------------------------- restart

  function OrElse(o: Option<int>, d: int): int { if o.Some? then o.value else d }

  predicate Readable(r: Row) {
    r.marketPda != "" && r.action.Some? && r.action.value.pred.matchId != ""
  }

  function FromRow(r: Row, now: int): Pending
    requires Readable(r)
  {
    Pending(r.marketPda, r.action.value, OrElse(r.attempts, 0), OrElse(r.nextAttemptAt, now), OrElse(r.enqueuedAt, now))
  }

  function LoadRow(s: State, r: Row, now: int): State {
    if !Readable(r) then s
    else
      var p := FromRow(r, now);
      Track(s.(pending := Put(s.pending, p)), p)
  }

  function LoadRows(s: State, rows: seq<Row>, now: int, i: nat): State
    requires i <= |rows|
    decreases |rows| - i
  {
    if i == |rows| then s else LoadRows(LoadRow(s, rows[i], now), rows, now, i + 1)
  }

  /** `loadPendingSettlements`; an absent or unparsable file leaves memory alone. */
  function Load(s: State, now: int): State {
    if s.file.None? then s else LoadRows(s.(pending := []), s.file.value, now, 0)
  }

  /** The process dies and a new one starts: memory is lost, disk and chain stay. */
  function Restart(s: State, now: int): State {
    Load(s.(open := [], pending := []), now)
  }

  // ------------------------------------------------------------------ runs

  /**
   One step of a run.  `Retry` and `Housekeep` handle the first `count` rows of
   their snapshot (all of them, or fewer when the process dies part way).
   `CrashIn` dies after the action's transactions but before anything is recorded.
   `Outside` is a transaction sent by somebody else.
  */
  datatype Step =
    | Act(action: Action, env: Env)
    | Retry(now: int, envs: nat -> Env, count: nat)
    | Housekeep(now: int, envs: nat -> Env, count: nat)
    | Reboot(now: int)
    | CrashIn(action: Action, env: Env, now: int)
    | Outside(pda: string, tx: Tx, graceOver: bool)

  function Clip(n: nat, len: nat): nat { if n < len then n else len }

  function Next(c: Config, s: State, step: Step): State {
    match step
    case Act(action, e) => Perform(c, s, action, e).0
    case Retry(now, envs, count) => Pass(RetryOf(c, s.pending, now, envs), s, 0, Clip(count, |s.pending|))
    case Housekeep(now, envs, count) => Pass(HousekeepOf(c, s.pending, now, envs), s, 0, Clip(count, |s.pending|))
    case Reboot(now) => Restart(s, now)
    case CrashIn(action, e, now) =>
      var s1 := Perform(c, s, action, e).0;
      Restart(s.(chain := s1.chain, sent := s1.sent), now)
    case Outside(pda, tx, graceOver) =>
      var v := Execute(tx, AccountAt(s.chain, pda), graceOver);
      if v.Some? then s.(chain := s.chain[pda := v.value]) else s
  }

  function Run(c: Config, s: State, steps: seq<Step>): State
    decreases |steps|
  {
    if steps == [] then s else Run(c, Next(c, s, steps[0]), steps[1..])
  }

  function Boot(chain: Chain): State { State([], [], None, chain, []) }
}
