/**
 Everything outside the filler: the chain, the store, the planners, the
 submission queue, the notifier and the clock. Each answer is any answer at
 all, except for what the source names as a promise of the thing asked (the
 primary key of the auctions table, the planners' bounds). Every question
 leaves its event on the run, and may be put only when that event is
 `Allowed`.
 */
module Environment {
  import opened Types
  import opened Rates
  import opened Requests
  import opened Machine

  datatype PlanWrite = Written | NoRow | PlanWriteFailed

  class World {
    const config: Config
    /** The profit at which a fill pays the high fee tier at a tick, where it computes. */
    const fees: (u32, Row) -> Option<int>
    ghost var run: Run
    ghost var memory: Memory
    ghost var flight: Flight
    /** The `skips_total` counters. */
    var skips: multiset<SkipLabel>
    /** Whether the shutdown flag was seen, and whether the store was lost. */
    ghost var stopped: bool
    ghost var lost: bool
    /** How often a pool could not be read or planned at all. */
    ghost var balks: nat

    ghost predicate Valid()
      reads this
    {
      Kept(config, run) && memory == Now(run) && flight == Aloft(run)
    }

    constructor (config: Config, fees: (u32, Row) -> Option<int>)
      ensures Valid() && this.config == config && this.fees == fees
      ensures run == Start && memory == FRESH && flight == GROUNDED && skips == multiset{} && !stopped && !lost
    {
      this.config, this.fees := config, fees;
      run, memory, flight := Start, FRESH, GROUNDED;
      skips := multiset{};
      stopped, lost, balks := false, false, 0;
    }

    ghost method Happens(e: Event)
      requires Valid() && Allowed(config, memory, flight, e)
      modifies `run, `memory, `flight
      ensures Valid() && run == After(config, old(run), e)
      ensures memory == Step(config, old(memory), e) && flight == Fly(old(flight), e)
    {
      run := After(config, run, e);
      memory, flight := Now(run), Aloft(run);
    }

    // ----- the service ----------------------------------------------------

    method ShuttingDown() returns (stopping: bool)
      modifies `stopped
      ensures stopped == (old(stopped) || stopping)
    {
      stopping := *;
      stopped := stopped || stopping;
    }

    method CountSkip(reason: SkipLabel)
      modifies `skips
      ensures skips == old(skips) + multiset{reason}
    {
      skips := skips + multiset{reason};
    }

    ghost method TickBegins(sequence: u32, execute: bool)
      requires Valid() && memory.duty.None? && flight == GROUNDED
      modifies `run, `memory, `flight
      ensures Valid() && memory == Begun(config, old(memory), sequence, execute)
      ensures flight == old(flight)
    {
      Happens(TickBegan(sequence, execute));
    }

    method Notify(notice: Notice, pool: Pool) returns (delivery: Delivery)
      requires Valid() && flight == GROUNDED && MayTell(memory, notice, pool)
      modifies `run, `memory, `flight
      ensures Valid() && memory == Told(old(memory), notice, pool, delivery)
      ensures flight == old(flight)
    {
      delivery := *;
      Happens(Notified(notice, pool, delivery));
    }

    // ----- the store ------------------------------------------------------

    /** A pool's open auctions; `(pool, account, type)` is the table's primary key. */
    method OpenAuctions(pool: Pool) returns (rows: Option<seq<Row>>)
      requires Valid() && flight == GROUNDED && memory.duty.None?
      modifies `run, `memory, `flight, `lost
      ensures Valid()
      ensures rows.None? ==> memory == old(memory)
      ensures rows.Some? ==>
        && UniqueAccounts(rows.value) && (forall row :: row in rows.value ==> row.pool == pool)
        && memory == Pruned(old(memory), pool, rows.value)
      ensures lost == (old(lost) || rows.None?)
      ensures flight == old(flight)
    {
      ghost var none: seq<Row> := [];
      assert UniqueAccounts(none);
      var any: seq<Row> :| UniqueAccounts(any) && forall row :: row in any ==> row.pool == pool;
      var failed: bool := *;
      rows := if failed then None else Some(any);
      if rows.Some? { Happens(RowsRead(pool, rows.value)); }
      lost := lost || rows.None?;
    }

    ghost method WalksOver(pool: PoolConfig, row: Row, kept: bool)
      requires Valid() && flight == GROUNDED && memory.duty.None? && memory.walk.Walk? && memory.walk.pool == row.pool
      requires memory.tally.unwalked != [] && memory.tally.unwalked[0] == row
      requires kept <==> Worth(config, memory, pool, row)
      modifies `run, `memory, `flight
      ensures Valid() && memory == Walked(config, old(memory), pool, row, kept)
      ensures flight == old(flight)
    {
      Happens(RowWalked(pool, row, kept));
    }

    method DeleteAuction(row: Row) returns (ok: bool)
      requires Valid() && flight == GROUNDED && memory.duty.None? && memory.gone == Some((row.pool, row.account))
      modifies `run, `memory, `flight, `lost
      ensures Valid()
      ensures memory == if ok then Closed(old(memory), row.pool, row.account) else old(memory)
      ensures lost == (old(lost) || !ok)
      ensures flight == old(flight)
    {
      ok := *;
      if ok { Happens(RowDeleted(row.pool, row.account)); }
      lost := lost || !ok;
    }

    method SetFillPlan(row: Row, draft: FillDraft) returns (answer: PlanWrite)
      requires Valid() && flight == GROUNDED && memory.duty == Some(WriteOwed(row, draft))
      requires IsDraftOf(memory.walk, row, draft)
      modifies `run, `memory, `flight, `lost
      ensures Valid()
      ensures memory == if answer.PlanWriteFailed? then old(memory) else PlanKept(old(memory), row, answer.Written?)
      ensures lost == (old(lost) || answer.PlanWriteFailed?)
      ensures flight == old(flight)
    {
      answer := *;
      if !answer.PlanWriteFailed? { Happens(PlanWritten(row, draft, answer.Written?)); }
      lost := lost || answer.PlanWriteFailed?;
    }

    method ClearFillPlan(row: Row) returns (ok: bool)
      requires Valid() && flight == GROUNDED && memory.duty == Some(Clear(row.pool, row.account))
      modifies `run, `memory, `flight, `lost
      ensures Valid()
      ensures memory == if ok then old(memory).(duty := None) else old(memory)
      ensures lost == (old(lost) || !ok)
      ensures flight == old(flight)
    {
      ok := *;
      if ok { Happens(PlanCleared(row.pool, row.account)); }
      lost := lost || !ok;
    }

    method RecordFill(plan: FillPlan, dryRun: bool, ghost version: Version) returns (id: Option<nat>)
      requires Valid() && memory.duty.None? && MayRecord(config, memory, flight, plan, dryRun, version)
      modifies `run, `memory, `flight, `lost
      ensures Valid()
      ensures memory == if id.Some? then Audited(old(memory), dryRun, version) else old(memory)
      ensures lost == (old(lost) || id.None?)
      ensures flight == if id.Some? then old(flight).(stage := OnAudit(id.value, plan, OperationOf(old(flight).stage)))
                        else old(flight)
    {
      id := *;
      if id.Some? { Happens(RowRecorded(id.value, plan, dryRun, version)); }
      lost := lost || id.None?;
    }

    method AttachFillTx(id: nat, hash: nat) returns (answer: HashAnswer)
      requires Valid() && memory.duty.None? && MayName(flight, id, hash)
      modifies `run, `memory, `flight, `lost
      ensures Valid()
      ensures lost == (old(lost) || answer.HashWriteFailed?)
      ensures flight == old(flight)
      ensures memory == old(memory)
    {
      answer := *;
      Happens(HashWritten(id, hash, answer));
      lost := lost || answer.HashWriteFailed?;
    }

    // ----- the chain ------------------------------------------------------

    method ReadEntry(row: Row) returns (entry: EntryAnswer)
      requires Valid() && flight == GROUNDED && memory.duty.None?
      modifies `run, `memory, `flight
      ensures Valid() && memory == EntrySeen(old(memory), row.pool, row.account, entry)
      ensures flight == old(flight)
    {
      entry := *;
      Happens(EntryRead(row.pool, row.account, entry));
    }

    /** The walk's snapshot: the assets the pool lists, if it could be read. */
    method ReadPool(accounts: set<Account>) returns (assets: Option<set<Asset>>)
      modifies `balks
      ensures balks == old(balks) + (if assets.None? then 1 else 0)
    {
      assets := *;
      balks := balks + (if assets.None? then 1 else 0);
    }

    /** Whether a pool's reserves, floor and primary asset allow any plan this tick. */
    method PoolPlannable() returns (plannable: bool)
      modifies `balks
      ensures balks == old(balks) + (if plannable then 0 else 1)
    {
      plannable := *;
      balks := balks + (if plannable then 0 else 1);
    }

    method BalancesAged() returns (aged: bool) {
      aged := *;
    }

    method ReadBalances(assets: set<Asset>) returns (balances: Option<Amounts>)
      requires Valid() && flight == GROUNDED && (memory.duty.None? || memory.duty.value.PassOwed?)
      requires config.signer.Some? && memory.mind.covered <= assets
      modifies `run, `memory, `flight
      ensures Valid() && memory == WalletRead(old(memory), assets, balances)
      ensures balances.Some? ==> balances.value.Keys == assets
      ensures flight == old(flight)
    {
      var failed: bool := *;
      assert (map asset | asset in assets :: 0).Keys == assets;
      var any: Amounts :| any.Keys == assets;
      balances := if failed then None else Some(any);
      Happens(BalancesRead(assets, balances));
    }

    /** The plan owed its execution claims exactly these amounts. */
    ghost predicate Owes(amounts: Amounts)
      reads `memory
    {
      memory.duty.Some? &&
      match memory.duty.value
      case ExecuteOwed(_, draft) => draft.spend == amounts
      case SendOwed(_, plan) => plan.spend == amounts
      case _ => false
    }

    ghost method Claims(amounts: Amounts)
      requires Valid() && Owes(amounts) && flight == GROUNDED && Funded(config, memory.wallet, amounts)
      modifies `run, `memory, `flight
      ensures Valid() && flight == GROUNDED.(claim := Some(amounts))
      ensures memory == old(memory)
    {
      Happens(SpendReserved(amounts));
    }

    method ReadPosition(pool: Pool) returns (read: Option<Snapshot>)
      requires Valid() && flight == GROUNDED && memory.duty.None? && config.signer.Some? && Ready(memory, pool)
      modifies `run, `memory, `flight
      ensures Valid() && memory == PositionRead(old(memory), pool, read)
      ensures flight == old(flight)
    {
      var failed: bool := *;
      var any: Snapshot := *;
      read := if failed then None else Some(any);
      Happens(SnapshotRead(pool, read));
    }

    method Simulate(operation: Operation) returns (judgment: Judgment)
      requires Valid() && memory.duty.None? && MaySimulate(config, flight, operation)
      modifies `run, `memory, `flight
      ensures Valid() && flight == old(flight).(stage := Asked(operation, judgment))
      ensures memory == old(memory)
    {
      judgment := *;
      Happens(Simulated(operation, judgment));
    }

    /** Whether the requests encode at all. */
    method Encodes(requests: seq<Request>) returns (ok: bool) {
      ok := *;
    }

    // ----- the planners ---------------------------------------------------

    /** The fill planner: whatever it drafts is at most `maxPercent`. */
    method PlanFill(row: Row, auction: Auction, maxPercent: Percent) returns (planned: PlannedFill)
      requires Valid() && flight == GROUNDED && MayPlan(memory, row, auction, maxPercent)
      requires memory.duty.None? || memory.duty == Some(ReplanOwed(row, auction, maxPercent))
      modifies `run, `memory, `flight
      ensures Valid() && memory == Considered(old(memory), row, auction, planned)
      ensures planned.Drafted? ==> planned.draft.percent <= maxPercent
      ensures flight == old(flight)
    {
      assert !Uncomputed.Drafted?;
      var any: PlannedFill :| any.Drafted? ==> any.draft.percent <= maxPercent;
      planned := any;
      Happens(FillPlanned(row, auction, maxPercent, planned));
    }

    method HighFeeProfit(tick: u32, row: Row) returns (threshold: Option<int>)
      requires Valid() && flight == GROUNDED
      requires memory.duty.Some? && memory.duty.value.ExecuteOwed? && memory.duty.value.row == row
      requires memory.walk.Walk? && memory.walk.draft.Some? && memory.walk.draft.value.row == row
      modifies `run, `memory, `flight
      ensures Valid() && threshold == fees(tick, row)
      ensures memory == if threshold.Some? then old(memory) else GivenUp(old(memory), row, LabelContractError)
      ensures flight == old(flight)
    {
      threshold := fees(tick, row);
      if threshold.None? { Happens(FeeUncomputed(row)); }
    }

    ghost method CannotFund(row: Row)
      requires Valid() && flight == GROUNDED
      requires memory.duty.Some? && memory.duty.value.ExecuteOwed? && memory.duty.value.row == row
      requires memory.walk.Walk? && memory.walk.draft.Some? && memory.walk.draft.value.row == row
      modifies `run, `memory, `flight
      ensures Valid() && memory == GivenUp(old(memory), row, LabelUnfunded)
      ensures flight == old(flight)
    {
      Happens(SpendRefused(row));
    }

    ghost method HandsOver(row: Row, draft: FillDraft)
      requires Valid() && memory.duty == Some(ExecuteOwed(row, draft)) && MayHand(memory, row, draft)
      requires flight.load.NoLoad? && flight.stage.Idle?
      modifies `run, `memory, `flight
      ensures Valid() && memory == Handed(old(memory), row)
      ensures flight == old(flight).(load := FillLoad(row.pool, row.account, draft))
    {
      Happens(FillHanded(row, draft));
    }

    ghost method FillReturns(pool: Pool, account: Account, answer: FillAnswer)
      requires Valid() && memory.duty.None? && MayReturnFill(config, flight, pool, account, answer)
      modifies `run, `memory, `flight
      ensures Valid() && flight == GROUNDED && memory == FillDone(old(memory), account, answer)
    {
      Happens(FillReturned(pool, account, answer));
    }

    // ----- the unwind passes ----------------------------------------------

    ghost method UnwindsBegin()
      requires Valid() && flight == GROUNDED && memory.duty.None?
      modifies `run, `memory, `flight
      ensures Valid() && memory == Passing(config, old(memory))
      ensures flight == old(flight)
    {
      Happens(UnwindsBegan);
    }

    ghost method Blocks(pool: Pool)
      requires Valid() && flight == GROUNDED && memory.duty == Some(PassOwed(pool))
      requires memory.pass.Looking? && memory.pass.pool == pool
      modifies `run, `memory, `flight
      ensures Valid() && memory == Blocked(old(memory))
      ensures flight == old(flight)
    {
      Happens(PassBlocked(pool));
    }

    /** The unwind planner: at the rate it accrued, it withdraws the primary at most down to the floor. */
    method PlanUnwind(pool: PoolConfig, snapshot: Snapshot) returns (built: Option<UnwindPlan>)
      requires Valid() && flight == GROUNDED && memory.duty == Some(PassOwed(pool.address)) && pool in config.pools
      requires memory.pass == Looking(pool.address, snapshot)
      modifies `run, `memory, `flight
      ensures Valid() && memory == UnwindBuilt(old(memory), pool.address, snapshot, built)
      ensures flight == old(flight)
    {
      ghost var idle := UnwindPlan([], map[], []);
      var rate: int :| rate > 0;
      assert WithinExcess(idle.actions, pool.primary, snapshot.primary, rate, pool.floor);
      var any: UnwindPlan :| WithinExcess(any.actions, pool.primary, snapshot.primary, rate, pool.floor);
      var failed: bool := *;
      built := if failed then None else Some(any);
      Happens(UnwindPlanned(pool, snapshot, rate, built));
    }

    ghost method CannotFundUnwind(pool: Pool)
      requires Valid() && flight == GROUNDED && memory.pass.Built? && memory.pass.pool == pool
      requires memory.duty.Some? && memory.duty.value.SendOwed? && memory.duty.value.pool == pool
      modifies `run, `memory, `flight
      ensures Valid() && memory == Unfundable(old(memory))
      ensures flight == old(flight)
    {
      Happens(UnwindUnfunded(pool));
    }

    ghost method HandsOverUnwind(pool: Pool, plan: UnwindPlan)
      requires Valid() && memory.duty == Some(SendOwed(pool, plan)) && flight.load.NoLoad? && flight.stage.Idle?
      requires memory.execute && memory.pass.Built? && memory.pass.pool == pool && memory.pass.plan == plan
      modifies `run, `memory, `flight
      ensures Valid() && memory == UnwindTaken(old(memory))
      ensures flight == old(flight).(load := UnwindLoad(pool, plan))
    {
      Happens(UnwindHanded(pool, plan));
    }

    ghost method UnwindReturns(pool: Pool, answer: UnwindAnswer)
      requires Valid() && memory.duty.None? && MayReturnUnwind(flight, pool, answer)
      modifies `run, `memory, `flight
      ensures Valid() && flight == GROUNDED && memory == UnwindDone(config, old(memory), pool, answer)
    {
      Happens(UnwindReturned(pool, answer));
    }

    // ----- the queue ------------------------------------------------------

    method EnqueueFill(plan: FillPlan, operation: Operation, ghost spend: Amounts) returns (answer: QueueAnswer)
      requires Valid() && memory.duty.None? && MaySendFill(config, flight, plan, operation, spend)
      modifies `run, `memory, `flight
      ensures Valid() && memory == FillSent(old(memory), plan.pool, spend, answer)
      ensures flight == old(flight).(stage := Answered(RowOf(old(flight).stage), answer))
    {
      answer := *;
      Happens(FillEnqueued(plan, operation, spend, answer));
    }

    method EnqueueUnwind(pool: Pool, plan: UnwindPlan, operation: Operation, ghost spend: Amounts)
      returns (answer: QueueAnswer)
      requires Valid() && memory.duty.None? && MaySendUnwind(config, flight, pool, plan, operation, spend)
      modifies `run, `memory, `flight
      ensures Valid() && memory == UnwindSent(old(memory), pool, spend, answer)
      ensures flight == old(flight).(stage := Answered(None, answer))
    {
      answer := *;
      Happens(UnwindEnqueued(pool, plan, operation, spend, answer));
    }
  }
}
