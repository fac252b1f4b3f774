/**
 The filler's run as a labelled transition system.

 An `Event` is one thing the filler asked of, was told by, or handed to the
 world: a store read, a planner's answer, a submission's outcome, a
 notification. `Step` says what one event means for what a run must
 remember, and `Allowed` what the filler may do next; a `Kept` run is one
 every event of which was allowed. The class in filler.dfy is proved to hold
 exactly what its run remembers after every tick and to keep the run `Kept`
 at every moment, so a statement about every `Kept` run is a statement about
 everything the filler can do.
 */
module Machine {
  import opened Types
  import opened Rates
  import opened Requests

  // ----- events -----------------------------------------------------------

  datatype EntryAnswer = Held(auction: Auction) | Gone | Unread

  datatype Event =
    // The service calls a tick.
    | TickBegan(sequence: u32, execute: bool)
    // The fill walk's reads.
    | RowsRead(pool: Pool, rows: seq<Row>)
    | RowWalked(config: PoolConfig, row: Row, kept: bool)
    | EntryRead(pool: Pool, account: Account, entry: EntryAnswer)
    | RowDeleted(pool: Pool, account: Account)
    | BalancesRead(assets: set<Asset>, balances: Option<Amounts>)
    // One auction's plan and what became of it.
    | FillPlanned(row: Row, auction: Auction, maxPercent: Percent, planned: PlannedFill)
    | PlanWritten(row: Row, draft: FillDraft, written: bool)
    | FeeUncomputed(row: Row)
    | SpendRefused(row: Row)
    | SpendReserved(amounts: Amounts)
    | FillHanded(row: Row, draft: FillDraft)
    | FillReturned(pool: Pool, account: Account, filled: FillAnswer)
    // Inside the executor.
    | Simulated(operation: Operation, judgment: Judgment)
    | RowRecorded(id: nat, plan: FillPlan, dryRun: bool, version: Version)
    | FillEnqueued(plan: FillPlan, operation: Operation, spend: Amounts, answer: QueueAnswer)
    | UnwindEnqueued(pool: Pool, unwind: UnwindPlan, operation: Operation, spend: Amounts, answer: QueueAnswer)
    | HashWritten(id: nat, hash: nat, hashAnswer: HashAnswer)
    // The unwind passes.
    | UnwindsBegan
    | SnapshotRead(pool: Pool, read: Option<Snapshot>)
    | PassBlocked(pool: Pool)
    // `rate` is the primary's b-token rate, accrued to the tick's close time.
    | UnwindPlanned(config: PoolConfig, snapshot: Snapshot, rate: int, built: Option<UnwindPlan>)
    | UnwindUnfunded(pool: Pool)
    | UnwindHanded(pool: Pool, unwind: UnwindPlan)
    | UnwindReturned(pool: Pool, unwound: UnwindAnswer)
    // Duties.
    | PlanCleared(pool: Pool, account: Account)
    | Notified(notice: Notice, pool: Pool, delivery: Delivery)
    // The chain applies a submission the bot never saw the end of: the one at `place` of those unresolved.
    | LandedLate(pool: Pool, at: u32, place: nat)

  // ----- what a run remembers ---------------------------------------------

  const UNWIND_BACKOFF_MAX_LEDGERS := 64
  const UNWIND_SETBACK_ALERT := 3

  datatype Setback = Setback(count: u32, retryAt: u32)

  const NO_SETBACK := Setback(0, 0)

  datatype Summary = Summary(planned: nat, executed: nat, skipped: nat, closed: nat, unwound: nat)

  const NOTHING := Summary(0, 0, 0, 0, 0)

  /** The draft the walk last made, for the auction it was made for. */
  datatype Draft = Draft(row: Row, auction: Auction, draft: FillDraft, written: bool)

  /**
   One pool's walk: whether a submission in it landed or may have, the
   auction being decided, its draft, how often each account was handed to
   the executor and the percent the contract refused it at.
   */
  datatype Walk =
    | NoWalk
    | Walk(pool: Pool, landed: bool, draft: Option<Draft>, tries: map<Account, nat>, refused: map<Account, Percent>)

  /** One pool's unwind pass: the snapshot it reads, then the plan it built. */
  datatype Pass =
    | NoPass
    | Looking(pool: Pool, snapshot: Snapshot)
    | Built(pool: Pool, snapshot: Snapshot, plan: UnwindPlan)

  /** How far one operation has got inside the executor. */
  datatype Stage =
    | Idle
    | Asked(operation: Operation, judgment: Judgment)
    | OnAudit(id: nat, plan: FillPlan, judged: Option<Operation>)
    | Answered(named: Option<nat>, answer: QueueAnswer)

  /** What is in flight: the open claim on the wallet, what the executor was handed, and how far it got. */
  datatype Flight = Flight(claim: Option<Amounts>, load: Load, stage: Stage)

  const GROUNDED := Flight(None, NoLoad, Idle)

  /**
   What the last event obliges the filler to do before anything else: tell
   the operator, clear the plan off a row, or the one and then the other;
   write a draft onto its row, execute the one whose ledger has come, plan
   again the one refused; plan the pass of a position read, or send the one
   planned.
   */
  datatype Duty =
    | Tell(notice: Notice, pool: Pool)
    | Clear(pool: Pool, account: Account)
    | TellThenClear(pool: Pool, account: Account)
    | WriteOwed(row: Row, draft: FillDraft)
    | ExecuteOwed(row: Row, draft: FillDraft)
    | ReplanOwed(row: Row, auction: Auction, maxPercent: Percent)
    | PassOwed(pool: Pool)
    | SendOwed(pool: Pool, plan: UnwindPlan)

  /**
   What this tick got to: the pools walked and the pools whose position was
   looked at, each in turn; of the walk under way, the rows still to walk, the accounts
   worth a chain read, what each read answered, and the accounts planned.
   */
  datatype Tally = Tally(
    walked: seq<Pool>,
    looked: seq<Pool>,
    unwalked: seq<Row>,
    worth: set<Account>,
    seen: map<Account, EntryAnswer>,
    planned: set<Account>)

  const UNTOUCHED := Tally([], [], [], {}, map[], {})

  /** What the filler itself remembers between ticks. */
  datatype Mind = Mind(
    lastPlanned: map<(Pool, Account), u32>,
    recorded: set<Version>,
    counted: set<SkipKey>,
    stale: bool,
    covered: set<Asset>,
    seeded: bool,
    pending: set<Pool>,
    leftovers: set<Pool>,
    setbacks: map<Pool, Setback>,
    after: map<Pool, Option<u32>>)
  {
    /** The pool is done with, for now: nothing to back off from. */
    function Settled(pool: Pool): Mind {
      this.(pending := pending - {pool}, setbacks := setbacks - {pool})
    }
  }

  const BLANK := Mind(map[], {}, {}, false, {}, false, {}, {}, map[], map[])

  /** A whole run's memory: the filler's own, and what the walk, the pass and the counters stand at. */
  datatype Memory = Memory(
    tick: u32,
    execute: bool,
    mind: Mind,
    skipTotals: multiset<SkipLabel>,
    wallet: Amounts,
    summary: Summary,
    gone: Option<(Pool, Account)>,
    walk: Walk,
    pass: Pass,
    duty: Option<Duty>,
    tally: Tally)
  {
    /** A skip decision: counted once per auction and reason until forgotten. */
    function Skip(key: SkipKey): Memory {
      this.(mind := mind.(counted := mind.counted + {key}),
            skipTotals := if key in mind.counted then skipTotals else skipTotals + multiset{key.reason})
    }

    function Skipped(): Memory { this.(summary := summary.(skipped := summary.skipped + 1)) }

    /** A pass that moved nothing. */
    function Stuck(pool: Pool): Memory {
      var next := NextSetback(if pool in mind.setbacks then mind.setbacks[pool] else NO_SETBACK, tick);
      this.(mind := mind.(setbacks := mind.setbacks[pool := next]),
            duty := if next.count == UNWIND_SETBACK_ALERT then Some(Tell(UnwindStuck, pool)) else None)
    }

    function Tries(account: Account): nat
    {
      if walk.Walk? && account in walk.tries then walk.tries[account] else 0
    }
  }

  const FRESH := Memory(0, false, BLANK, multiset{}, map[], NOTHING, None, NoWalk, NoPass, None, UNTOUCHED)

  // ----- the pieces of a step ---------------------------------------------

  function Pow2(n: nat): (p: nat)
    ensures p > 0
  {
    if n == 0 then 1 else 2 * Pow2(n - 1)
  }

  /** The hold after the `count`-th setback in a row, in ledgers. */
  function Backoff(count: u32): u32 {
    Min(Min(Pow2(count), U32_MAX), UNWIND_BACKOFF_MAX_LEDGERS)
  }

  function NextSetback(run: Setback, tick: u32): Setback {
    var count := SaturatingAdd(run.count, 1);
    Setback(count, SaturatingAdd(tick, Backoff(count)))
  }

  /** The start ledger each account's open user liquidation has in `rows`. */
  function OpenStarts(rows: seq<Row>): map<Account, u32> {
    if rows == [] then map[]
    else
      var last := rows[|rows| - 1];
      var open := OpenStarts(rows[..|rows| - 1]);
      if last.userLiquidation then open[last.account := last.start] else open
  }

  /** Whether a remembered auction of `account` is still named by an open row of `pool`. */
  predicate StillOpen(open: map<Account, u32>, pool: Pool, rememberedPool: Pool, account: Account, start: u32) {
    rememberedPool != pool || (account in open && start >= open[account])
  }

  function OpenVersions(recorded: set<Version>, pool: Pool, rows: seq<Row>): set<Version> {
    set v | v in recorded && StillOpen(OpenStarts(rows), pool, v.pool, v.account, v.start)
  }

  function OpenKeys(counted: set<SkipKey>, pool: Pool, rows: seq<Row>): set<SkipKey> {
    set k | k in counted && StillOpen(OpenStarts(rows), pool, k.pool, k.account, k.start)
  }

  function WithoutAccount(recorded: set<Version>, pool: Pool, account: Account): set<Version> {
    set v | v in recorded && !(v.pool == pool && v.account == account)
  }

  predicate UniqueAccounts(rows: seq<Row>) {
    forall i, j :: 0 <= i < j < |rows| && rows[i].userLiquidation && rows[j].userLiquidation
      ==> rows[i].account != rows[j].account
  }

  /** Whether the walk passes this row over because the pool does not take its assets. */
  predicate Unsupported(c: Config, pool: PoolConfig, row: Row) {
    && row.userLiquidation
    && row.account != pool.address
    && row.account !in c.own
    && !pool.Supports(row.bid.Keys, row.lot.Keys)
  }

  /** Whether `row` is planned this tick. */
  predicate Due(c: Config, row: Row, plannedAt: Option<u32>, tick: u32) {
    row.fillLedger.None? || plannedAt.None?
    || SaturatingSub(row.fillLedger.value, tick) <= c.replanNearLedgers
    || SaturatingSub(tick, plannedAt.value) >= c.replanLedgers
  }

  function PlannedAt(mind: Mind, row: Row): Option<u32> {
    if (row.pool, row.account) in mind.lastPlanned then Some(mind.lastPlanned[(row.pool, row.account)]) else None
  }

  /** Whether a row is worth a chain read at all. */
  predicate Worth(c: Config, m: Memory, pool: PoolConfig, row: Row) {
    && row.userLiquidation && row.account != pool.address && row.account !in c.own
    && pool.Supports(row.bid.Keys, row.lot.Keys)
    && VersionOfRow(row) !in m.mind.recorded
    && Due(c, row, PlannedAt(m.mind, row), m.tick)
  }

  function LabelOf(reason: FillSkip): SkipLabel {
    match reason
    case Unprofitable => LabelUnprofitable
    case TooManyPositions => LabelHealth
    case Unhealthy => LabelHealth
    case Unfunded => LabelUnfunded
    case SupplyCapped => LabelSupplyCapped
  }

  /** Whether a snapshot at `ledger` holds the submission this pool's pass is owed. */
  predicate GatePasses(after: map<Pool, Option<u32>>, pool: Pool, ledger: u32) {
    pool in after ==> after[pool].Some? && after[pool].value <= ledger
  }

  /** The wallet after `spend` left it: never below zero, and only what was there. */
  function Spent(wallet: Amounts, spend: Amounts): Amounts {
    map asset | asset in wallet :: if asset in spend then Max(wallet[asset] - spend[asset], 0) else wallet[asset]
  }

  function HalfPercent(percent: Percent): Percent {
    Max(percent / 2, 1)
  }

  /** The ledger a transaction sent at tick `sequence` could first land in. */
  predicate LandsBy(fillLedger: u32, sequence: u32) { fillLedger <= sequence + 1 }

  // ----- one step, event by event -----------------------------------------

  function Begun(c: Config, m: Memory, sequence: u32, execute: bool): Memory {
    m.(tick := sequence, execute := execute,
       mind := m.mind.(seeded := true,
                       pending := if m.mind.seeded then m.mind.pending else m.mind.pending + c.Addresses()),
       summary := NOTHING, walk := NoWalk, pass := NoPass, tally := UNTOUCHED)
  }

  function Pruned(m: Memory, pool: Pool, rows: seq<Row>): Memory {
    m.(mind := m.mind.(recorded := OpenVersions(m.mind.recorded, pool, rows),
                       counted := OpenKeys(m.mind.counted, pool, rows)),
       walk := Walk(pool, false, None, map[], map[]),
       tally := Tally(m.tally.walked + [pool], m.tally.looked, rows, {}, map[], {}))
  }

  function Walked(c: Config, m: Memory, pool: PoolConfig, row: Row, kept: bool): Memory {
    var m := m.(tally := m.tally.(unwalked := if m.tally.unwalked == [] then [] else m.tally.unwalked[1..],
                                  worth := if kept then m.tally.worth + {row.account} else m.tally.worth));
    if Unsupported(c, pool, row) then m.Skip(SkipKey(row.pool, row.account, row.start, LabelUnsupported)) else m
  }

  function EntrySeen(m: Memory, pool: Pool, account: Account, entry: EntryAnswer): Memory {
    m.(gone := if entry.Gone? then Some((pool, account)) else None,
       tally := m.tally.(seen := m.tally.seen[account := entry]))
  }

  function Closed(m: Memory, pool: Pool, account: Account): Memory {
    m.(mind := m.mind.(recorded := WithoutAccount(m.mind.recorded, pool, account),
                       lastPlanned := m.mind.lastPlanned - {(pool, account)}),
       summary := m.summary.(closed := m.summary.closed + 1))
  }

  function WalletRead(m: Memory, assets: set<Asset>, balances: Option<Amounts>): Memory {
    if balances.None? then m
    else m.(mind := m.mind.(covered := assets, stale := false), wallet := balances.value)
  }

  function Considered(m: Memory, row: Row, auction: Auction, planned: PlannedFill): Memory {
    if m.walk.NoWalk? then m
    else
      var m := m.(tally := m.tally.(planned := m.tally.planned + {row.account}));
      match planned
      case Drafted(draft) =>
        m.(walk := m.walk.(draft := Some(Draft(row, auction, draft, false))), duty := Some(WriteOwed(row, draft)))
      case Declined(reason) =>
        m.(walk := m.walk.(draft := None),
           duty := Some(if reason.Unfunded? then TellThenClear(row.pool, row.account)
                        else Clear(row.pool, row.account)))
          .Skip(SkipKey(row.pool, row.account, auction.block, LabelOf(reason))).Skipped()
      case Uncomputed => m.(walk := m.walk.(draft := None), duty := None)
  }

  function PlanKept(m: Memory, row: Row, written: bool): Memory {
    if !written || m.walk.NoWalk? || m.walk.draft.None? then m.(duty := None)
    else m.(walk := m.walk.(draft := Some(m.walk.draft.value.(written := true))),
            duty := if m.execute && LandsBy(m.walk.draft.value.draft.fillLedger, m.tick)
                    then Some(ExecuteOwed(row, m.walk.draft.value.draft)) else None,
            mind := m.mind.(lastPlanned := m.mind.lastPlanned[(row.pool, row.account) := m.tick]),
            summary := m.summary.(planned := m.summary.planned + 1))
  }

  /** A draft given up on before it reached the executor. */
  function GivenUp(m: Memory, row: Row, reason: SkipLabel): Memory {
    if m.walk.NoWalk? || m.walk.draft.None? then m
    else m.(duty := None).Skip(SkipKey(row.pool, row.account, m.walk.draft.value.auction.block, reason)).Skipped()
  }

  function Handed(m: Memory, row: Row): Memory {
    if m.walk.NoWalk? then m
    else m.(walk := m.walk.(tries := m.walk.tries[row.account := m.Tries(row.account) + 1]), duty := None)
  }

  function Audited(m: Memory, dryRun: bool, version: Version): Memory {
    if dryRun then m.(mind := m.mind.(recorded := m.mind.recorded + {version})) else m
  }

  /** A fill or an unwind of `pool` that landed, or may have. */
  function Landed(m: Memory, pool: Pool, spend: Amounts, outcome: TxOutcome): Memory {
    m.(mind := m.mind.(stale := true,
                       after := m.mind.after[pool := LandingLedger(outcome)],
                       setbacks := m.mind.setbacks - {pool}),
       pass := NoPass,
       wallet := Spent(m.wallet, spend))
  }

  function FillLanded(m: Memory, pool: Pool, spend: Amounts, outcome: TxOutcome): Memory {
    var m := Landed(m, pool, spend, outcome);
    m.(mind := m.mind.(pending := m.mind.pending + {pool}),
       walk := if m.walk.Walk? then m.walk.(landed := true) else m.walk)
  }

  function FillSent(m: Memory, pool: Pool, spend: Amounts, answer: QueueAnswer): Memory {
    if LandedAnswer(answer) then FillLanded(m, pool, spend, answer.outcome) else m
  }

  function UnwindSent(m: Memory, pool: Pool, spend: Amounts, answer: QueueAnswer): Memory {
    if LandedAnswer(answer) then Landed(m, pool, spend, answer.outcome) else m
  }

  function FillDone(m: Memory, account: Account, answer: FillAnswer): Memory {
    if m.walk.NoWalk? || m.walk.draft.None? then m
    else
      var d := m.walk.draft.value;
      var key := SkipKey(d.row.pool, d.row.account, d.auction.block, LabelContractError);
      match answer
      case Recorded(_, _, _, submission) =>
        m.(summary := m.summary.(executed := m.summary.executed + 1),
           duty :=
             if submission.None? then None
             else if submission.value.Succeeded? then Some(Tell(FillConfirmed, d.row.pool))
             else if submission.value.Failed? then Some(Tell(FillNotLanded, d.row.pool))
             else None)
      case Replan(_) =>
        if m.Tries(account) <= 1 then
          m.(walk := m.walk.(refused := m.walk.refused[account := d.draft.percent]),
             duty := Some(ReplanOwed(d.row, d.auction, HalfPercent(d.draft.percent))))
        else
          m.Skip(key).Skipped()
      case Refused(_) => m.Skip(key).Skipped()
      case StalePlan =>
        m.(mind := m.mind.(lastPlanned := m.mind.lastPlanned - {(d.row.pool, d.row.account)}),
           duty := Some(Clear(d.row.pool, d.row.account))).Skipped()
      case FillFailed(error) => if error.QueueChain? then m.(duty := Some(Tell(FillDropped, d.row.pool))) else m
  }

  /** The unwind passes begin: with no key there is nothing to unwind. */
  function Passing(c: Config, m: Memory): Memory {
    if c.signer.None? && m.mind.pending != {} then m.(mind := m.mind.(pending := {}, after := map[])) else m
  }

  function PositionRead(m: Memory, pool: Pool, read: Option<Snapshot>): Memory {
    var m := m.(tally := m.tally.(looked := m.tally.looked + [pool]));
    if read.None? || !GatePasses(m.mind.after, pool, read.value.ledger) then m.(pass := NoPass)
    else if read.value.empty then
      m.(pass := NoPass,
         mind := m.mind.Settled(pool).(after := m.mind.after - {pool}, leftovers := m.mind.leftovers - {pool}))
    else m.(pass := Looking(pool, read.value), duty := Some(PassOwed(pool)))
  }

  /** A pass whose reserves do not accrue is not planned. */
  function Blocked(m: Memory): Memory { m.(pass := NoPass, duty := None) }

  function UnwindBuilt(m: Memory, pool: Pool, snapshot: Snapshot, built: Option<UnwindPlan>): Memory {
    if built.None? then m.(pass := NoPass, duty := None)
    else if !built.value.IsIdle() then
      m.(pass := Built(pool, snapshot, built.value),
         duty := if m.execute then Some(SendOwed(pool, built.value)) else None)
    else
      var m := m.(pass := NoPass, mind := m.mind.Settled(pool), duty := None);
      if built.value.remaining == [] then m.(mind := m.mind.(leftovers := m.mind.leftovers - {pool}))
      else m.(duty := if pool in m.mind.leftovers then None else Some(Tell(UnwindLeftovers, pool)))
  }

  function Unfundable(m: Memory): Memory { m.(pass := NoPass, duty := None).Skipped() }

  function UnwindTaken(m: Memory): Memory { m.(duty := None) }

  function UnwindDone(c: Config, m: Memory, pool: Pool, answer: UnwindAnswer): Memory {
    var m := m.(pass := NoPass);
    match answer
    case PlannedOnly(_) =>
      if c.dryRun then
        m.(mind := m.mind.Settled(pool), summary := m.summary.(unwound := m.summary.unwound + 1))
      else m.(mind := m.mind.(setbacks := m.mind.setbacks - {pool}))
    case Submitted(outcome) =>
      if MayHaveLanded(outcome) then m.(summary := m.summary.(unwound := m.summary.unwound + 1))
      else m.Stuck(pool)
    case UnwindRefused(_) => m.Stuck(pool)
    case UnwindStale => m.Stuck(pool)
    case UnwindFailed(_) => m.Stuck(pool)
  }

  function Told(m: Memory, notice: Notice, pool: Pool, delivery: Delivery): Memory {
    m.(duty := if m.duty.Some? && m.duty.value.TellThenClear?
               then Some(Clear(m.duty.value.pool, m.duty.value.account)) else None,
       mind := if notice.UnwindLeftovers? && delivery != Dropped
               then m.mind.(leftovers := m.mind.leftovers + {pool}) else m.mind)
  }

  function Step(c: Config, m: Memory, e: Event): Memory {
    match e
    case TickBegan(sequence, execute) => Begun(c, m, sequence, execute)
    case RowsRead(pool, rows) => Pruned(m, pool, rows)
    case RowWalked(pool, row, kept) => Walked(c, m, pool, row, kept)
    case EntryRead(pool, account, entry) => EntrySeen(m, pool, account, entry)
    case RowDeleted(pool, account) => Closed(m, pool, account)
    case BalancesRead(assets, balances) => WalletRead(m, assets, balances)
    case FillPlanned(row, auction, _, planned) => Considered(m, row, auction, planned)
    case PlanWritten(row, _, written) => PlanKept(m, row, written)
    case FeeUncomputed(row) => GivenUp(m, row, LabelContractError)
    case SpendRefused(row) => GivenUp(m, row, LabelUnfunded)
    case SpendReserved(_) => m
    case FillHanded(row, _) => Handed(m, row)
    case FillReturned(_, account, answer) => FillDone(m, account, answer)
    case Simulated(_, _) => m
    case RowRecorded(_, _, dryRun, version) => Audited(m, dryRun, version)
    case FillEnqueued(plan, _, spend, answer) => FillSent(m, plan.pool, spend, answer)
    case UnwindEnqueued(pool, _, _, spend, answer) => UnwindSent(m, pool, spend, answer)
    case HashWritten(_, _, _) => m
    case UnwindsBegan => Passing(c, m)
    case SnapshotRead(pool, read) => PositionRead(m, pool, read)
    case PassBlocked(_) => Blocked(m)
    case UnwindPlanned(config, snapshot, _, built) => UnwindBuilt(m, config.address, snapshot, built)
    case UnwindUnfunded(_) => Unfundable(m)
    case UnwindHanded(_, _) => UnwindTaken(m)
    case UnwindReturned(pool, answer) => UnwindDone(c, m, pool, answer)
    case PlanCleared(_, _) => m.(duty := None)
    case Notified(notice, pool, delivery) => Told(m, notice, pool, delivery)
    case LandedLate(_, _, _) => m
  }

  /** What an event means for the operation in flight. */
  function Fly(f: Flight, e: Event): Flight {
    match e
    case SpendReserved(amounts) => f.(claim := Some(amounts))
    case FillHanded(row, draft) => f.(load := FillLoad(row.pool, row.account, draft))
    case UnwindHanded(pool, plan) => f.(load := UnwindLoad(pool, plan))
    case Simulated(operation, judgment) => f.(stage := Asked(operation, judgment))
    case RowRecorded(id, plan, _, _) => f.(stage := OnAudit(id, plan, OperationOf(f.stage)))
    case FillEnqueued(_, _, _, answer) => f.(stage := Answered(RowOf(f.stage), answer))
    case UnwindEnqueued(_, _, _, _, answer) => f.(stage := Answered(None, answer))
    case FillReturned(_, _, _) => GROUNDED
    case UnwindReturned(_, _) => GROUNDED
    case _ => f
  }

  function OperationOf(stage: Stage): Option<Operation> {
    if stage.Asked? then Some(stage.operation) else None
  }

  function RowOf(stage: Stage): Option<nat> {
    if stage.OnAudit? then Some(stage.id) else None
  }

  // ----- what may happen next, event by event -----------------------------

  /** Whether this pool's pass may be planned at this tick. */
  predicate Ready(m: Memory, pool: Pool) {
    pool in m.mind.pending && (pool in m.mind.setbacks ==> m.mind.setbacks[pool].retryAt <= m.tick)
  }

  /** Whether the wallet covers `amounts` with the fee reserve left standing. */
  predicate Funded(c: Config, wallet: Amounts, amounts: Amounts) {
    forall asset :: asset in amounts ==>
      && amounts[asset] > 0
      && amounts[asset] + (if asset == c.native then c.feeReserve else 0) <= Amount(wallet, asset)
  }

  predicate IsDraftOf(walk: Walk, row: Row, draft: FillDraft) {
    walk.Walk? && walk.draft.Some? && walk.draft.value.row == row && walk.draft.value.draft == draft
  }

  /** An operation the executor may go on with: one the contract accepted, or must restore to judge. */
  predicate Passed(stage: Stage) {
    stage.Asked? && (stage.judgment.Accepts? || stage.judgment.NeedsRestore?)
  }

  /** Planning at most twice, the whole auction first and half of what was refused then. */
  predicate MayPlan(m: Memory, row: Row, auction: Auction, maxPercent: Percent) {
    && m.walk.Walk? && m.walk.pool == row.pool && !m.walk.landed
    && VersionOfEntry(row, auction) !in m.mind.recorded
    && m.Tries(row.account) <= 1
    && (if m.Tries(row.account) == 0 then maxPercent == 100
        else row.account in m.walk.refused && maxPercent == HalfPercent(m.walk.refused[row.account]))
  }

  /** Handing over a draft made and written in this walk, whose ledger has come. */
  predicate MayHand(m: Memory, row: Row, draft: FillDraft) {
    && m.execute
    && IsDraftOf(m.walk, row, draft) && m.walk.pool == row.pool && m.walk.draft.value.written
    && !m.walk.landed
    && LandsBy(draft.fillLedger, m.tick)
    && m.Tries(row.account) <= 1
    && (m.Tries(row.account) == 1 ==>
          row.account in m.walk.refused && draft.percent <= HalfPercent(m.walk.refused[row.account]))
  }

  /** The fill in the executor's hands: a draft of this walk, of a version no dry run recorded. */
  predicate InHand(m: Memory, f: Flight, plan: FillPlan, version: Version) {
    && f.load == FillLoad(plan.pool, plan.user, plan.draft)
    && m.walk.Walk? && m.walk.draft.Some?
    && m.walk.draft.value.draft == plan.draft
    && m.walk.draft.value.row.pool == plan.pool && m.walk.draft.value.row.account == plan.user
    && version == VersionOfEntry(m.walk.draft.value.row, m.walk.draft.value.auction)
    && version !in m.mind.recorded
  }

  /** The load's own requests, on the filler's own account. */
  predicate MaySimulate(c: Config, f: Flight, operation: Operation) {
    && !f.load.NoLoad? && f.stage.Idle? && c.signer.Some?
    && operation == Operation(f.load.pool, c.signer.value, RequestsOf(f.load))
  }

  /** The audit row of a fill the contract did not refuse. */
  predicate MayRecord(c: Config, m: Memory, f: Flight, plan: FillPlan, dryRun: bool, version: Version) {
    && dryRun == c.executorDryRun
    && InHand(m, f, plan, version)
    && (if c.signer.Some? then Passed(f.stage) else f.stage.Idle?)
  }

  predicate MaySendFill(c: Config, f: Flight, plan: FillPlan, operation: Operation, spend: Amounts) {
    && !c.executorDryRun && c.signer.Some?
    && f.load == FillLoad(plan.pool, plan.user, plan.draft)
    && f.stage.OnAudit? && f.stage.plan == plan && f.stage.judged == Some(operation)
    && f.claim == Some(spend)
  }

  predicate MaySendUnwind(c: Config, f: Flight, pool: Pool, plan: UnwindPlan, operation: Operation, spend: Amounts) {
    && !c.executorDryRun && c.signer.Some?
    && f.load == UnwindLoad(pool, plan)
    && Passed(f.stage) && f.stage.operation == operation
    && f.claim == Some(spend)
  }

  predicate MayName(f: Flight, id: nat, hash: nat) {
    f.stage.Answered? && f.stage.named == Some(id) && f.stage.answer.Outcome? && hash == f.stage.answer.outcome.hash
  }

  /** The contract refused with this code, when it was simulated or when the queue prepared it. */
  predicate RefusedWith(stage: Stage, code: Option<u32>) {
    || (stage.Asked? && stage.judgment == Refuses(code))
    || (stage.Answered? && stage.answer == PrepareRefused(code))
  }

  /** An operation an unarmed call cannot judge: only a submission restores what it needs. */
  predicate Unrestored(stage: Stage) { stage.Asked? && stage.judgment.NeedsRestore? }

  /** A fill's return: of the fill in hand, and an answer its last step gave. */
  predicate MayReturnFill(c: Config, f: Flight, pool: Pool, account: Account, answer: FillAnswer) {
    && f.load.FillLoad? && f.load.pool == pool && f.load.account == account
    && match answer
       case Recorded(id, _, dryRun, submission) =>
         && dryRun == c.executorDryRun
         && (if submission.None? then f.stage.OnAudit? && f.stage.id == id
             else f.stage == Answered(Some(id), Outcome(submission.value)))
       case Replan(code) => RefusedWith(f.stage, Some(code))
       case Refused(code) => RefusedWith(f.stage, code) || (code.None? && Unrestored(f.stage))
       case StalePlan => f.stage.Answered? && f.stage.answer.BadSequence?
       case FillFailed(error) => error.QueueChain? <==> f.stage.Answered? && f.stage.answer.QueueChainError?
  }

  /** An unwind's return, likewise. */
  predicate MayReturnUnwind(f: Flight, pool: Pool, answer: UnwindAnswer) {
    && f.load.UnwindLoad? && f.load.pool == pool
    && (answer.Submitted? <==> f.stage.Answered? && f.stage.answer.Outcome?)
    && match answer
       case PlannedOnly(_) => !f.stage.Answered?
       case Submitted(outcome) => f.stage.answer == Outcome(outcome)
       case UnwindRefused(code) => RefusedWith(f.stage, code) || (code.None? && Unrestored(f.stage))
       case UnwindStale => f.stage.Answered? && f.stage.answer.BadSequence?
       case UnwindFailed(_) => true
  }

  predicate MayTell(m: Memory, notice: Notice, pool: Pool) {
    m.duty.Some? &&
    if m.duty.value.TellThenClear? then notice.UnfundedFill? && m.duty.value.pool == pool
    else m.duty.value == Tell(notice, pool)
  }

  /** What happens inside the executor; nothing else does while it holds a load. */
  predicate Aboard(e: Event) {
    e.FillHanded? || e.UnwindHanded? || e.Simulated? || e.RowRecorded? || e.FillEnqueued? || e.UnwindEnqueued?
    || e.HashWritten? || e.FillReturned? || e.UnwindReturned? || e.LandedLate?
  }

  /** The events a duty allows: what it asks for, or what may come in the way of it. */
  predicate Discharges(duty: Duty, e: Event) {
    match duty
    case Tell(_, _) => e.Notified?
    case TellThenClear(_, _) => e.Notified?
    case Clear(_, _) => e.PlanCleared?
    case WriteOwed(row, draft) => e.PlanWritten? && e.row == row && e.draft == draft
    case ExecuteOwed(row, draft) =>
      || ((e.FeeUncomputed? || e.SpendRefused?) && e.row == row)
      || e == SpendReserved(draft.spend) || e == FillHanded(row, draft)
    case ReplanOwed(row, auction, maxPercent) =>
      e.FillPlanned? && e.row == row && e.auction == auction && e.maxPercent == maxPercent
    case PassOwed(pool) =>
      e.BalancesRead? || e == PassBlocked(pool) || (e.UnwindPlanned? && e.config.address == pool)
    case SendOwed(pool, plan) =>
      e == SpendReserved(plan.spend) || e == UnwindUnfunded(pool) || e == UnwindHanded(pool, plan)
  }

  predicate Allowed(c: Config, m: Memory, f: Flight, e: Event) {
    && (m.duty.None? || e.LandedLate? || Discharges(m.duty.value, e))
    && (f == GROUNDED || Aboard(e))
    && match e
    case TickBegan(_, _) => true
    case RowsRead(pool, rows) => UniqueAccounts(rows) && forall row :: row in rows ==> row.pool == pool
    case RowWalked(pool, row, kept) =>
      && m.walk.Walk? && m.walk.pool == row.pool
      && m.tally.unwalked != [] && m.tally.unwalked[0] == row && (kept <==> Worth(c, m, pool, row))
    case EntryRead(_, _, _) => true
    case RowDeleted(pool, account) => m.gone == Some((pool, account))
    case BalancesRead(assets, balances) =>
      && c.signer.Some? && m.mind.covered <= assets
      && (balances.Some? ==> balances.value.Keys == assets)
    case PassBlocked(pool) => m.pass.Looking? && m.pass.pool == pool
    case FillPlanned(row, auction, maxPercent, planned) =>
      MayPlan(m, row, auction, maxPercent) && (planned.Drafted? ==> planned.draft.percent <= maxPercent)
    case PlanWritten(row, draft, _) => IsDraftOf(m.walk, row, draft)
    case FeeUncomputed(row) => m.walk.Walk? && m.walk.draft.Some? && m.walk.draft.value.row == row
    case SpendRefused(row) => m.walk.Walk? && m.walk.draft.Some? && m.walk.draft.value.row == row
    case SpendReserved(amounts) => Funded(c, m.wallet, amounts)
    case FillHanded(row, draft) => f.load.NoLoad? && f.stage.Idle? && MayHand(m, row, draft)
    case FillReturned(pool, account, answer) => MayReturnFill(c, f, pool, account, answer)
    case Simulated(operation, _) => MaySimulate(c, f, operation)
    case RowRecorded(_, plan, dryRun, version) => MayRecord(c, m, f, plan, dryRun, version)
    case FillEnqueued(plan, operation, spend, _) => MaySendFill(c, f, plan, operation, spend)
    case UnwindEnqueued(pool, plan, operation, spend, _) => MaySendUnwind(c, f, pool, plan, operation, spend)
    case HashWritten(id, hash, _) => MayName(f, id, hash)
    case UnwindsBegan => true
    case SnapshotRead(pool, _) => c.signer.Some? && Ready(m, pool)
    case UnwindPlanned(config, snapshot, rate, built) =>
      && config in c.pools
      && m.pass == Looking(config.address, snapshot)
      && rate > 0
      && (built.Some? ==>
            WithinExcess(built.value.actions, config.primary, snapshot.primary, rate, config.floor))
    case UnwindUnfunded(pool) => m.pass.Built? && m.pass.pool == pool
    case UnwindHanded(pool, plan) =>
      && f.load.NoLoad? && f.stage.Idle?
      && m.execute && m.pass.Built? && m.pass.pool == pool && m.pass.plan == plan
    case UnwindReturned(pool, answer) => MayReturnUnwind(f, pool, answer)
    case PlanCleared(pool, account) => m.duty == Some(Clear(pool, account))
    case Notified(notice, pool, _) => MayTell(m, notice, pool)
    case LandedLate(_, _, _) => true
  }

  // ----- runs -------------------------------------------------------------

  /** A run so far: its events, and what it remembered and had in flight after each. */
  datatype Run = Start | Then(past: Run, event: Event, memory: Memory, flight: Flight)

  function Now(r: Run): Memory {
    if r.Start? then FRESH else r.memory
  }

  function Aloft(r: Run): Flight {
    if r.Start? then GROUNDED else r.flight
  }

  function After(c: Config, r: Run, e: Event): Run {
    Then(r, e, Step(c, Now(r), e), Fly(Aloft(r), e))
  }

  /** Whether `s` is the run `r` at some moment of it. */
  ghost predicate Moment(s: Run, r: Run) {
    s == r || (r.Then? && Moment(s, r.past))
  }

  /** The last event of `s` was allowed, and `s` remembers what it means. */
  ghost predicate Lawful(c: Config, s: Run) {
    s.Then? ==> Allowed(c, Now(s.past), Aloft(s.past), s.event) && s == After(c, s.past, s.event)
  }

  /** A run of the machine. */
  ghost predicate Kept(c: Config, r: Run) {
    forall s {:trigger Lawful(c, s)} :: Moment(s, r) ==> Lawful(c, s)
  }
}
