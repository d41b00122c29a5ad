/** The on-chain programs as a keeper meets them: a market account, its resolution receipt, the transactions on them. */
module Programs {
  import opened Basics

  /** A validator program; a market is bound to one of them when it is created. */
  datatype Oracle = Txline | Pyth | Attestation | OtherOracle(id: nat)

  datatype Phase = Absent | Open | Settled(yes: bool) | Void

  /** What `resolve_market` records: the proved outcome and the validator that accepted the proof. */
  datatype Receipt = Receipt(yes: bool, validator: Oracle)

  /** A market account together with its resolution receipt. */
  datatype Account = Account(phase: Phase, receipt: Option<Receipt>, oracle: Oracle)

  /** An outcome with a proof for a validator of the sender's choice; `valid` says whether it accepts that proof. */
  datatype Claim = Claim(yes: bool, validator: Oracle, valid: bool)

  datatype Tx =
    | CreateTx(oracle: Oracle)
    | ResolveTx(claim: Claim)
    | SettleTx(yes: bool)
    | ResolveAndSettleTx(claim: Claim)
    | VoidTx
    | ForceSettleTx(yes: bool)

  /**
   What the programs make of a transaction; None is a revert.  A receipt can be made once, by anybody and for any
   validator; it settles the market only to its own outcome, and only when its validator is the market's oracle.
   `ForceSettleTx` is the protocol authority's override.
  */
  function Execute(tx: Tx, a: Account, graceOver: bool): Option<Account> {
    match tx
    case CreateTx(oracle) => if a.phase == Absent then Some(a.(phase := Open, oracle := oracle)) else None
    case ResolveTx(c) =>
      if a.phase != Absent && a.receipt.None? && c.valid
      then Some(a.(receipt := Some(Receipt(c.yes, c.validator))))
      else None
    case SettleTx(yes) =>
      if a.phase == Open && a.receipt == Some(Receipt(yes, a.oracle)) then Some(a.(phase := Settled(yes))) else None
    case ResolveAndSettleTx(c) =>
      if a.phase == Open && a.receipt.None? && c.valid && c.validator == a.oracle
      then Some(a.(phase := Settled(c.yes), receipt := Some(Receipt(c.yes, c.validator))))
      else None
    case VoidTx => if a.phase == Open && graceOver then Some(a.(phase := Void)) else None
    case ForceSettleTx(yes) => if a.phase == Open then Some(a.(phase := Settled(yes))) else None
  }

  /** A valid transaction lands, is lost, or lands while the sender sees an error. */
  datatype TxFate = Lands | Lost | LandsUnseen

  predicate Over(a: Account) { a.phase.Settled? || a.phase == Void }

  /** The atomic bundle of resolve and settle can never work on this account again. */
  predicate Spent(a: Account) { a.receipt.Some? || Over(a) }

  /** The account has a receipt, and it is not one that settles the market to `yes`. */
  predicate Barred(a: Account, yes: bool) { a.receipt.Some? && a.receipt.value != Receipt(yes, a.oracle) }

  /** A market that was settled by proof carries the receipt of its outcome by its own oracle. */
  predicate Backed(a: Account) { a.phase.Settled? ==> a.receipt == Some(Receipt(a.phase.yes, a.oracle)) }
}
