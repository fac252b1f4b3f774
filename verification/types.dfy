/**
 The vocabulary every other module shares: machine integers with the
 saturating operators the bot uses on them, and the values that travel
 between the planner, the executor, the store and the chain.
 */
module Types {

  datatype Option<+T> = None | Some(value: T)

  // ----- machine integers -------------------------------------------------

  const U32_MAX := 0xFFFF_FFFF

  type u32 = x: int | 0 <= x <= U32_MAX

  function SaturatingAdd(a: u32, b: u32): u32 {
    if a + b > U32_MAX then U32_MAX else a + b
  }

  function SaturatingSub(a: u32, b: u32): u32 {
    if a >= b then a - b else 0
  }

  function Min(a: int, b: int): int { if a <= b then a else b }

  function Max(a: int, b: int): int { if a >= b then a else b }

  /** A fill percent the contract accepts. */
  type Percent = p: int | 1 <= p <= 100 witness 1

  // ----- names ------------------------------------------------------------

  type Pool = string
  type Account = string
  type Asset = string
  type Amounts = map<Asset, int>

  function Amount(m: Amounts, asset: Asset): int {
    if asset in m then m[asset] else 0
  }

  // ----- auctions ---------------------------------------------------------

  /** The chain's own auction entry. */
  datatype Auction = Auction(block: u32, bid: Amounts, lot: Amounts)

  /** The tracker's row for one auction, which may lag the chain's entry. */
  datatype Row = Row(
    pool: Pool,
    account: Account,
    userLiquidation: bool,
    start: u32,
    fillLedger: Option<u32>,
    bid: Amounts,
    lot: Amounts)

  /** One version of an auction: what a dry run's record is keyed by. */
  datatype Version = Version(pool: Pool, account: Account, start: u32, bid: Amounts, lot: Amounts)

  function VersionOfRow(row: Row): Version {
    Version(row.pool, row.account, row.start, row.bid, row.lot)
  }

  function VersionOfEntry(row: Row, auction: Auction): Version {
    Version(row.pool, row.account, auction.block, auction.bid, auction.lot)
  }

  // ----- fills ------------------------------------------------------------

  datatype FillAction =
    | FillRepay(asset: Asset, amount: int)
    | FillWithdrawAll(asset: Asset)
    | FillSupply(asset: Asset, amount: int)

  datatype FillDraft = FillDraft(
    fillLedger: u32,
    percent: Percent,
    toFill: Auction,
    actions: seq<FillAction>,
    spend: Amounts,
    bidValue: int,
    lotValue: int,
    estProfit: int)

  datatype FillSkip = Unprofitable | TooManyPositions | Unfunded | SupplyCapped | Unhealthy

  /** What the fill planner decided, or that it could not compute a plan. */
  datatype PlannedFill = Drafted(draft: FillDraft) | Declined(reason: FillSkip) | Uncomputed

  datatype SkipLabel =
    | LabelUnsupported
    | LabelUnprofitable
    | LabelHealth
    | LabelUnfunded
    | LabelSupplyCapped
    | LabelContractError

  datatype SkipKey = SkipKey(pool: Pool, account: Account, start: u32, reason: SkipLabel)

  datatype Priority = Normal | High

  datatype FillPlan = FillPlan(pool: Pool, user: Account, draft: FillDraft, priority: Priority)

  // ----- unwinds ----------------------------------------------------------

  datatype UnwindAction =
    | Repay(asset: Asset, amount: int)
    | Withdraw(asset: Asset, amount: int)
    | WithdrawAll(asset: Asset)

  datatype UnwindPlan = UnwindPlan(actions: seq<UnwindAction>, spend: Amounts, remaining: seq<Asset>) {
    predicate IsIdle() { actions == [] }
  }

  /**
   One snapshot of the filler's position in a pool: the ledger it was read
   at, the assets the pool lists, whether the position holds no collateral
   and no debt, and the primary collateral in b-tokens.
   */
  datatype Snapshot = Snapshot(ledger: u32, assets: set<Asset>, empty: bool, primary: nat)

  // ----- requests and operations ------------------------------------------

  datatype RequestKind = FillUserLiquidation | RepayRequest | WithdrawCollateral | SupplyCollateral

  datatype Request = Request(kind: RequestKind, address: string, amount: int)

  datatype Operation = Operation(pool: Pool, account: Account, requests: seq<Request>)

  // ----- answers ----------------------------------------------------------

  datatype TxOutcome =
    | Succeeded(hash: nat, ledger: u32)
    | Failed(hash: nat, ledger: u32)
    | Expired(hash: nat)
    | Unknown(hash: nat)

  /** Whether the chain applied this transaction, or may yet. */
  predicate MayHaveLanded(outcome: TxOutcome) { outcome.Succeeded? || outcome.Unknown? }

  /** The ledger a landed transaction is known to be in: none for an unresolved one. */
  function LandingLedger(outcome: TxOutcome): Option<u32> {
    match outcome
    case Succeeded(_, ledger) => Some(ledger)
    case _ => None
  }

  /** What simulating an operation answered. */
  datatype Judgment =
    | Accepts
    | Refuses(code: Option<u32>)
    | NeedsRestore
    | SimulationFailed

  /** What the submission queue answered. */
  datatype QueueAnswer =
    | Outcome(outcome: TxOutcome)
    | BadSequence
    | PrepareRefused(code: Option<u32>)
    | QueueChainError
    | QueueClosed
    | QueueShuttingDown

  predicate LandedAnswer(answer: QueueAnswer) {
    answer.Outcome? && MayHaveLanded(answer.outcome)
  }

  /** What a store write that names a row answered. */
  datatype HashAnswer = HashAttached | NoSuchRow | HashWriteFailed

  datatype ExecError = StoreError | ChainError | XdrError | QueueChain | QueueOther | ModeError

  datatype FillAnswer =
    | Recorded(id: nat, simulated: bool, dryRun: bool, submission: Option<TxOutcome>)
    | Replan(code: u32)
    | Refused(refusal: Option<u32>)
    | StalePlan
    | FillFailed(error: ExecError)

  datatype UnwindAnswer =
    | PlannedOnly(simulated: bool)
    | Submitted(outcome: TxOutcome)
    | UnwindRefused(refusal: Option<u32>)
    | UnwindStale
    | UnwindFailed(error: ExecError)

  // ----- notifications ----------------------------------------------------

  datatype Notice =
    | UnfundedFill
    | FillConfirmed
    | FillNotLanded
    | FillDropped
    | UnwindStuck
    | UnwindLeftovers

  datatype Delivery = Queued | Deduplicated | Dropped

  // ----- configuration ----------------------------------------------------

  datatype PoolConfig = PoolConfig(
    address: Pool,
    primary: Asset,
    floor: int,
    supportedBid: seq<Asset>,
    supportedLot: seq<Asset>)
  {
    predicate Supports(bid: set<Asset>, lot: set<Asset>) {
      Covers(supportedBid, bid) && Covers(supportedLot, lot)
    }
  }

  predicate Covers(list: seq<Asset>, assets: set<Asset>) {
    "*" in list || forall asset :: asset in assets ==> asset in list
  }

  /**
   What one run is configured with. `signer` is the filler's key, if any;
   `dryRun` is the filler's mode and `executorDryRun` the executor's, which
   the service builds equal and the code does not rely on being so.
   */
  datatype Config = Config(
    pools: seq<PoolConfig>,
    dryRun: bool,
    executorDryRun: bool,
    signer: Option<Account>,
    own: set<Account>,
    replanLedgers: u32,
    replanNearLedgers: u32,
    native: Asset,
    feeReserve: nat)
  {
    function Addresses(): set<Pool> { set pool | pool in pools :: pool.address }
  }
}
