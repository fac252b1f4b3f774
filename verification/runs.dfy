/**
 Reasoning over whole runs: the past of a kept run is kept, which events
 touch which part of the memory, and what every kept run maintains about its
 pass, its walk and its flight.
 */
module Runs {
  import opened Types
  import opened Requests
  import opened Machine

  /** A kept run's last step was allowed, and its past is a kept run. */
  lemma KeptPast(c: Config, r: Run)
    requires Kept(c, r) && r.Then?
    ensures Kept(c, r.past) && Allowed(c, Now(r.past), Aloft(r.past), r.event) && r == After(c, r.past, r.event)
  {
    assert Lawful(c, r);
    forall s | Moment(s, r.past) ensures Lawful(c, s) {
      assert Moment(s, r);
    }
  }

  lemma KeptEarlier(c: Config, r: Run)
    requires Kept(c, r) && r.Then?
    ensures Kept(c, r.past)
  {
    KeptPast(c, r);
  }

  /** Every moment of a kept run is itself a kept run. */
  lemma {:induction false} KeptMoment(c: Config, s: Run, r: Run)
    requires Kept(c, r) && Moment(s, r)
    ensures Kept(c, s)
  {
    if s != r {
      KeptEarlier(c, r);
      KeptMoment(c, s, r.past);
    }
  }

  // ----- which events touch what ------------------------------------------

  datatype UnwindPart = UnwindPart(
    tick: u32, execute: bool, pass: Pass, seeded: bool, pending: set<Pool>, after: map<Pool, Option<u32>>,
    setbacks: map<Pool, Setback>, leftovers: set<Pool>)

  function UnwindPartOf(m: Memory): UnwindPart {
    UnwindPart(m.tick, m.execute, m.pass, m.mind.seeded, m.mind.pending, m.mind.after, m.mind.setbacks,
               m.mind.leftovers)
  }

  /** The unwind side of a step: pending pools, gates, setbacks, leftovers and the pass. */
  predicate UnwindSide(c: Config, m: Memory, e: Event, n: Memory) {
    match e
    case TickBegan(sequence, execute) => n == Begun(c, m, sequence, execute)
    case FillEnqueued(plan, _, spend, answer) => n == FillSent(m, plan.pool, spend, answer)
    case UnwindEnqueued(pool, _, _, spend, answer) => n == UnwindSent(m, pool, spend, answer)
    case UnwindsBegan => n == Passing(c, m)
    case SnapshotRead(pool, read) => n == PositionRead(m, pool, read)
    case PassBlocked(_) => n == Blocked(m)
    case UnwindPlanned(config, snapshot, _, built) => n == UnwindBuilt(m, config.address, snapshot, built)
    case UnwindUnfunded(_) => n == Unfundable(m)
    case UnwindReturned(pool, answer) => n == UnwindDone(c, m, pool, answer)
    case Notified(notice, pool, delivery) => n == Told(m, notice, pool, delivery)
    case _ => UnwindPartOf(n) == UnwindPartOf(m)
  }

  predicate OnUnwindSide(e: Event) {
    e.TickBegan? || e.FillEnqueued? || e.UnwindEnqueued? || e.UnwindsBegan? || e.SnapshotRead? || e.PassBlocked?
    || e.UnwindPlanned? || e.UnwindUnfunded? || e.UnwindReturned? || e.Notified?
  }

  lemma ConsideringIsOff(m: Memory, row: Row, auction: Auction, planned: PlannedFill)
    ensures UnwindPartOf(Considered(m, row, auction, planned)) == UnwindPartOf(m)
  {
  }

  lemma ReturningIsOff(m: Memory, account: Account, answer: FillAnswer)
    ensures UnwindPartOf(FillDone(m, account, answer)) == UnwindPartOf(m)
  {
  }

  /** The walk's reads, and what it does with a draft. */
  predicate OnReads(e: Event) {
    e.RowsRead? || e.RowWalked? || e.EntryRead? || e.RowDeleted? || e.BalancesRead?
  }

  predicate OnDraft(e: Event) {
    e.PlanWritten? || e.FeeUncomputed? || e.SpendRefused? || e.FillHanded?
  }

  lemma PruningIsOff(m: Memory, pool: Pool, rows: seq<Row>)
    ensures UnwindPartOf(Pruned(m, pool, rows)) == UnwindPartOf(m)
  {
  }

  lemma WalkingIsOff(c: Config, m: Memory, pool: PoolConfig, row: Row, kept: bool)
    ensures UnwindPartOf(Walked(c, m, pool, row, kept)) == UnwindPartOf(m)
  {
  }

  lemma ReadsAreOff(c: Config, m: Memory, e: Event)
    requires OnReads(e)
    ensures UnwindPartOf(Step(c, m, e)) == UnwindPartOf(m)
  {
    if e.RowsRead? { PruningIsOff(m, e.pool, e.rows); }
    else if e.RowWalked? { WalkingIsOff(c, m, e.config, e.row, e.kept); }
  }

  lemma DraftsAreOff(c: Config, m: Memory, e: Event)
    requires OnDraft(e)
    ensures UnwindPartOf(Step(c, m, e)) == UnwindPartOf(m)
  {
  }

  lemma RestIsOff(c: Config, m: Memory, e: Event)
    requires !OnUnwindSide(e) && !OnReads(e) && !OnDraft(e) && !e.FillPlanned? && !e.FillReturned?
    ensures UnwindPartOf(Step(c, m, e)) == UnwindPartOf(m)
  {
  }

  lemma UnwindSideOf(c: Config, m: Memory, e: Event)
    ensures UnwindSide(c, m, e, Step(c, m, e))
  {
    if e.FillPlanned? { ConsideringIsOff(m, e.row, e.auction, e.planned); }
    else if e.FillReturned? { ReturningIsOff(m, e.account, e.filled); }
    else if OnReads(e) { ReadsAreOff(c, m, e); }
    else if OnDraft(e) { DraftsAreOff(c, m, e); }
    else if !OnUnwindSide(e) { RestIsOff(c, m, e); }
  }

  datatype WalkPart = WalkPart(
    tick: u32, execute: bool, walk: Walk, recorded: set<Version>, gone: Option<(Pool, Account)>)

  function WalkPartOf(m: Memory): WalkPart {
    WalkPart(m.tick, m.execute, m.walk, m.mind.recorded, m.gone)
  }

  /** The walk's side of a step: the walk itself, dry runs recorded and the last entry found gone. */
  predicate WalkSide(c: Config, m: Memory, e: Event, n: Memory) {
    match e
    case TickBegan(sequence, execute) => n == Begun(c, m, sequence, execute)
    case RowsRead(pool, rows) => n == Pruned(m, pool, rows)
    case EntryRead(pool, account, entry) => n == EntrySeen(m, pool, account, entry)
    case RowDeleted(pool, account) => n == Closed(m, pool, account)
    case FillPlanned(row, auction, _, planned) => n == Considered(m, row, auction, planned)
    case PlanWritten(row, _, written) => n == PlanKept(m, row, written)
    case FillHanded(row, _) => n == Handed(m, row)
    case RowRecorded(_, _, dryRun, version) => n == Audited(m, dryRun, version)
    case FillEnqueued(plan, _, spend, answer) => n == FillSent(m, plan.pool, spend, answer)
    case FillReturned(_, account, answer) => n == FillDone(m, account, answer)
    case _ => WalkPartOf(n) == WalkPartOf(m)
  }

  lemma BuildingWalksNothing(m: Memory, pool: Pool, snapshot: Snapshot, built: Option<UnwindPlan>)
    ensures WalkPartOf(UnwindBuilt(m, pool, snapshot, built)) == WalkPartOf(m)
  {
  }

  lemma UnwindingWalksNothing(c: Config, m: Memory, pool: Pool, answer: UnwindAnswer)
    ensures WalkPartOf(UnwindDone(c, m, pool, answer)) == WalkPartOf(m)
  {
  }

  lemma PassesWalkNothing(c: Config, m: Memory, e: Event)
    requires OnUnwindSide(e) && !e.TickBegan? && !e.FillEnqueued? && !e.UnwindPlanned? && !e.UnwindReturned?
    ensures WalkPartOf(Step(c, m, e)) == WalkPartOf(m)
  {
  }

  lemma RestWalksNothing(c: Config, m: Memory, e: Event)
    requires !OnUnwindSide(e) && !e.FillPlanned? && !e.FillReturned? && !e.PlanWritten? && !e.FillHanded?
    requires !e.RowsRead? && !e.EntryRead? && !e.RowDeleted? && !e.RowRecorded?
    ensures WalkPartOf(Step(c, m, e)) == WalkPartOf(m)
  {
  }

  lemma WalkSideOf(c: Config, m: Memory, e: Event)
    ensures WalkSide(c, m, e, Step(c, m, e))
  {
    if e.UnwindPlanned? {
      BuildingWalksNothing(m, e.config.address, e.snapshot, e.built);
    } else if e.UnwindReturned? {
      UnwindingWalksNothing(c, m, e.pool, e.unwound);
    } else if OnUnwindSide(e) {
      if !e.TickBegan? && !e.FillEnqueued? { PassesWalkNothing(c, m, e); }
    } else if !(e.FillPlanned? || e.FillReturned? || e.PlanWritten? || e.FillHanded?
                || e.RowsRead? || e.EntryRead? || e.RowDeleted? || e.RowRecorded?) {
      RestWalksNothing(c, m, e);
    }
  }

  datatype RestPart = RestPart(tick: u32, execute: bool, recorded: set<Version>, gone: Option<(Pool, Account)>)

  function RestPartOf(m: Memory): RestPart { RestPart(m.tick, m.execute, m.mind.recorded, m.gone) }

  /** Planning one auction, and being answered about it, move only its walk. */
  lemma ConsideringKeepsTheRest(m: Memory, row: Row, auction: Auction, planned: PlannedFill)
    ensures RestPartOf(Considered(m, row, auction, planned)) == RestPartOf(m)
  {
  }

  lemma ReturningKeepsTheRest(m: Memory, account: Account, answer: FillAnswer)
    ensures RestPartOf(FillDone(m, account, answer)) == RestPartOf(m)
  {
  }

  /** Off the walk's own questions, the rest of its side stays. */
  lemma RestStays(c: Config, m: Memory, e: Event, n: Memory)
    requires WalkSide(c, m, e, n)
    requires !e.TickBegan? && !e.RowsRead? && !e.EntryRead? && !e.RowDeleted? && !e.RowRecorded?
    ensures RestPartOf(n) == RestPartOf(m)
  {
    if e.FillPlanned? { ConsideringKeepsTheRest(m, e.row, e.auction, e.planned); }
    else if e.FillReturned? { ReturningKeepsTheRest(m, e.account, e.filled); }
    else if !e.PlanWritten? && !e.FillHanded? && !e.FillEnqueued? { assert WalkPartOf(n) == WalkPartOf(m); }
  }

  datatype SkipPart = SkipPart(counted: set<SkipKey>, totals: multiset<SkipLabel>)

  function SkipPartOf(m: Memory): SkipPart { SkipPart(m.mind.counted, m.skipTotals) }

  /** The counters' side of a step: the skip keys remembered and the totals. */
  predicate SkipSide(c: Config, m: Memory, e: Event, n: Memory) {
    match e
    case RowsRead(pool, rows) => n == Pruned(m, pool, rows)
    case RowWalked(pool, row, kept) => n == Walked(c, m, pool, row, kept)
    case FillPlanned(row, auction, _, planned) => n == Considered(m, row, auction, planned)
    case FeeUncomputed(row) => n == GivenUp(m, row, LabelContractError)
    case SpendRefused(row) => n == GivenUp(m, row, LabelUnfunded)
    case FillReturned(_, account, answer) => n == FillDone(m, account, answer)
    case _ => SkipPartOf(n) == SkipPartOf(m)
  }

  predicate OnSkipSide(e: Event) {
    e.RowsRead? || e.RowWalked? || e.FillPlanned? || e.FeeUncomputed? || e.SpendRefused? || e.FillReturned?
  }

  lemma BuildingSkipsNothing(m: Memory, pool: Pool, snapshot: Snapshot, built: Option<UnwindPlan>)
    ensures SkipPartOf(UnwindBuilt(m, pool, snapshot, built)) == SkipPartOf(m)
  {
  }

  lemma UnwindingSkipsNothing(c: Config, m: Memory, pool: Pool, answer: UnwindAnswer)
    ensures SkipPartOf(UnwindDone(c, m, pool, answer)) == SkipPartOf(m)
  {
  }

  lemma PassesSkipNothing(c: Config, m: Memory, e: Event)
    requires OnUnwindSide(e) && !e.UnwindPlanned? && !e.UnwindReturned?
    ensures SkipPartOf(Step(c, m, e)) == SkipPartOf(m)
  {
  }

  lemma UnwindsSkipNothing(c: Config, m: Memory, e: Event)
    requires OnUnwindSide(e)
    ensures SkipPartOf(Step(c, m, e)) == SkipPartOf(m)
  {
    if e.UnwindPlanned? {
      BuildingSkipsNothing(m, e.config.address, e.snapshot, e.built);
    } else if e.UnwindReturned? {
      UnwindingSkipsNothing(c, m, e.pool, e.unwound);
    } else {
      PassesSkipNothing(c, m, e);
    }
  }

  lemma RestSkipsNothing(c: Config, m: Memory, e: Event)
    requires !OnSkipSide(e) && !OnUnwindSide(e)
    ensures SkipPartOf(Step(c, m, e)) == SkipPartOf(m)
  {
  }

  lemma SkipSideOf(c: Config, m: Memory, e: Event)
    ensures SkipSide(c, m, e, Step(c, m, e))
  {
    if OnUnwindSide(e) { UnwindsSkipNothing(c, m, e); }
    else if !OnSkipSide(e) { RestSkipsNothing(c, m, e); }
  }

  datatype WalletPart = WalletPart(wallet: Amounts, covered: set<Asset>)

  function WalletPartOf(m: Memory): WalletPart { WalletPart(m.wallet, m.mind.covered) }

  function Paid(m: Memory, spend: Amounts, answer: QueueAnswer): WalletPart {
    WalletPart(if LandedAnswer(answer) then Spent(m.wallet, spend) else m.wallet, m.mind.covered)
  }

  /** The wallet's side of a step: the balances and what the last read covered. */
  predicate WalletSide(m: Memory, e: Event, n: Memory) {
    match e
    case BalancesRead(assets, balances) => n == WalletRead(m, assets, balances)
    case FillEnqueued(_, _, spend, answer) => WalletPartOf(n) == Paid(m, spend, answer)
    case UnwindEnqueued(_, _, _, spend, answer) => WalletPartOf(n) == Paid(m, spend, answer)
    case _ => WalletPartOf(n) == WalletPartOf(m)
  }

  lemma PlanningPaysNothing(m: Memory, row: Row, auction: Auction, planned: PlannedFill)
    ensures WalletPartOf(Considered(m, row, auction, planned)) == WalletPartOf(m)
  {
  }

  lemma ReturningPaysNothing(m: Memory, account: Account, answer: FillAnswer)
    ensures WalletPartOf(FillDone(m, account, answer)) == WalletPartOf(m)
  {
  }

  lemma BuildingPaysNothing(m: Memory, pool: Pool, snapshot: Snapshot, built: Option<UnwindPlan>)
    ensures WalletPartOf(UnwindBuilt(m, pool, snapshot, built)) == WalletPartOf(m)
  {
  }

  lemma UnwindingPaysNothing(c: Config, m: Memory, pool: Pool, answer: UnwindAnswer)
    ensures WalletPartOf(UnwindDone(c, m, pool, answer)) == WalletPartOf(m)
  {
  }

  lemma PassesPayNothing(c: Config, m: Memory, e: Event)
    requires OnUnwindSide(e) && !e.FillEnqueued? && !e.UnwindEnqueued? && !e.UnwindPlanned? && !e.UnwindReturned?
    ensures WalletPartOf(Step(c, m, e)) == WalletPartOf(m)
  {
  }

  lemma RestPaysNothing(c: Config, m: Memory, e: Event)
    requires !OnUnwindSide(e) && !e.BalancesRead? && !e.FillPlanned? && !e.FillReturned?
    ensures WalletPartOf(Step(c, m, e)) == WalletPartOf(m)
  {
  }

  lemma WalletSideOf(c: Config, m: Memory, e: Event)
    ensures WalletSide(m, e, Step(c, m, e))
  {
    if e.FillPlanned? { PlanningPaysNothing(m, e.row, e.auction, e.planned); }
    else if e.FillReturned? { ReturningPaysNothing(m, e.account, e.filled); }
    else if e.UnwindPlanned? { BuildingPaysNothing(m, e.config.address, e.snapshot, e.built); }
    else if e.UnwindReturned? { UnwindingPaysNothing(c, m, e.pool, e.unwound); }
    else if OnUnwindSide(e) {
      if !e.FillEnqueued? && !e.UnwindEnqueued? { PassesPayNothing(c, m, e); }
    } else if !e.BalancesRead? {
      RestPaysNothing(c, m, e);
    }
  }

  // ----- what is owed -----------------------------------------------------

  /** A telling of the unwind passes. */
  predicate TellsOfUnwinds(duty: Option<Duty>) {
    duty.Some? && duty.value.Tell? && (duty.value.notice.UnwindStuck? || duty.value.notice.UnwindLeftovers?)
  }

  lemma SkipsOweNoTellings(c: Config, m: Memory, e: Event)
    requires m.duty.None? || Discharges(m.duty.value, e)
    requires OnSkipSide(e)
    ensures !TellsOfUnwinds(Step(c, m, e).duty)
  {
  }

  /** Only an unwind's return, or its plan, owes one; and nothing but the telling comes next. */
  lemma OnlyPassesOweTellings(c: Config, m: Memory, e: Event)
    requires m.duty.None? || Discharges(m.duty.value, e)
    requires !e.UnwindReturned? && !e.UnwindPlanned? && !e.LandedLate?
    ensures !TellsOfUnwinds(Step(c, m, e).duty)
  {
    if OnSkipSide(e) { SkipsOweNoTellings(c, m, e); }
  }

  // ----- what every kept run maintains ------------------------------------

  /** The queue's answer in flight landed, or may have. */
  predicate LandedAloft(f: Flight) {
    f.stage.Answered? && LandedAnswer(f.stage.answer)
  }

  /** A pass under way is for a pool whose turn it is, against a snapshot that passed the gate. */
  predicate PassHolds(c: Config, m: Memory) {
    !m.pass.NoPass? ==>
      && c.signer.Some? && Ready(m, m.pass.pool)
      && GatePasses(m.mind.after, m.pass.pool, m.pass.snapshot.ledger) && !m.pass.snapshot.empty
  }

  /** With nothing handed over nothing is under way; a fill handed over is the draft the walk made. */
  predicate FillLoadHolds(m: Memory, f: Flight) {
    match f.load
    case NoLoad => f.stage.Idle?
    case UnwindLoad(_, _) => true
    case FillLoad(pool, account, draft) =>
      && m.execute && m.walk.Walk? && m.walk.pool == pool && m.walk.draft.Some?
      && m.walk.draft.value.row.pool == pool && m.walk.draft.value.row.account == account
      && m.walk.draft.value.draft == draft && m.Tries(account) > 0
      && m.walk.landed == LandedAloft(f)
  }

  /** An unwind handed over is the plan the pass built, until it lands. */
  predicate UnwindLoadHolds(m: Memory, f: Flight) {
    f.load.UnwindLoad? ==>
      && m.execute
      && (LandedAloft(f) || (m.pass.Built? && m.pass.pool == f.load.pool && m.pass.plan == f.load.plan))
  }

  /** An open claim the chain has not answered for is still funded by the wallet. */
  predicate ClaimHolds(c: Config, m: Memory, f: Flight) {
    f.claim.Some? && !LandedAloft(f) ==> Funded(c, m.wallet, f.claim.value)
  }

  predicate Sound(c: Config, m: Memory, f: Flight) {
    && PassHolds(c, m) && FillLoadHolds(m, f) && UnwindLoadHolds(m, f) && ClaimHolds(c, m, f)
    && (!m.mind.seeded ==> !m.execute)
  }

  lemma PassOpens(c: Config, m: Memory, e: Event, n: Memory)
    requires PassHolds(c, m) && UnwindSide(c, m, e, n) && (e.SnapshotRead? || e.UnwindPlanned?)
    requires e.SnapshotRead? ==> c.signer.Some? && Ready(m, e.pool)
    requires e.UnwindPlanned? ==> m.pass == Looking(e.config.address, e.snapshot)
    ensures PassHolds(c, n)
  {
  }

  lemma PassStays(c: Config, m: Memory, e: Event, n: Memory)
    requires PassHolds(c, m) && UnwindSide(c, m, e, n) && !e.SnapshotRead? && !e.UnwindPlanned?
    ensures PassHolds(c, n)
  {
  }

  lemma BuildingKeepsTheTick(m: Memory, pool: Pool, snapshot: Snapshot, built: Option<UnwindPlan>)
    ensures var n := UnwindBuilt(m, pool, snapshot, built); n.execute == m.execute && n.mind.seeded == m.mind.seeded
  {
  }

  lemma UnwindingKeepsTheTick(c: Config, m: Memory, pool: Pool, answer: UnwindAnswer)
    ensures var n := UnwindDone(c, m, pool, answer); n.execute == m.execute && n.mind.seeded == m.mind.seeded
  {
  }

  lemma SeededStays(c: Config, m: Memory, e: Event, n: Memory)
    requires UnwindSide(c, m, e, n) && (!m.mind.seeded ==> !m.execute)
    ensures !n.mind.seeded ==> !n.execute
  {
    if e.UnwindPlanned? { BuildingKeepsTheTick(m, e.config.address, e.snapshot, e.built); }
    else if e.UnwindReturned? { UnwindingKeepsTheTick(c, m, e.pool, e.unwound); }
    else if OnUnwindSide(e) { PassesKeepTheTick(c, m, e, n); }
    else { assert UnwindPartOf(n) == UnwindPartOf(m); }
  }

  lemma PassesKeepTheTick(c: Config, m: Memory, e: Event, n: Memory)
    requires UnwindSide(c, m, e, n) && OnUnwindSide(e) && !e.UnwindPlanned? && !e.UnwindReturned?
    ensures n.mind.seeded == (m.mind.seeded || e.TickBegan?)
    ensures !e.TickBegan? ==> n.execute == m.execute
  {
  }

  lemma FillLoadStays(c: Config, m: Memory, f: Flight, e: Event, n: Memory)
    requires FillLoadHolds(m, f) && f.load.FillLoad? && Allowed(c, m, f, e) && WalkSide(c, m, e, n)
    requires Aboard(e) && !e.FillReturned?
    ensures FillLoadHolds(n, Fly(f, e))
  {
  }

  lemma FillLoadStep(c: Config, m: Memory, f: Flight, e: Event, n: Memory)
    requires FillLoadHolds(m, f) && Allowed(c, m, f, e) && WalkSide(c, m, e, n)
    ensures FillLoadHolds(n, Fly(f, e))
  {
    if f.load.FillLoad? {
      assert Aboard(e);
      if !e.FillReturned? { FillLoadStays(c, m, f, e, n); }
    }
  }

  lemma UnwindLoadStays(c: Config, m: Memory, f: Flight, e: Event, n: Memory)
    requires UnwindLoadHolds(m, f) && f.load.UnwindLoad? && Aboard(e) && UnwindSide(c, m, e, n)
    requires !e.FillHanded? && !e.UnwindHanded? && !e.RowRecorded? && !e.FillEnqueued?
    requires !e.FillReturned? && !e.UnwindReturned? && (e.Simulated? || e.UnwindEnqueued? ==> !LandedAloft(f))
    ensures UnwindLoadHolds(n, Fly(f, e))
  {
  }

  lemma UnwindLoadStep(c: Config, m: Memory, f: Flight, e: Event, n: Memory)
    requires UnwindLoadHolds(m, f) && Allowed(c, m, f, e) && UnwindSide(c, m, e, n)
    ensures UnwindLoadHolds(n, Fly(f, e))
  {
    if f.load.UnwindLoad? && !e.FillReturned? && !e.UnwindReturned? { UnwindLoadStays(c, m, f, e, n); }
  }

  /** Nothing but a claim, a submission or a return moves a claim; and nothing else moves the wallet under one. */
  lemma ClaimRests(c: Config, m: Memory, f: Flight, e: Event, n: Memory)
    requires ClaimHolds(c, m, f) && Allowed(c, m, f, e) && WalletSide(m, e, n)
    requires !e.SpendReserved? && !e.FillEnqueued? && !e.UnwindEnqueued? && !e.FillReturned? && !e.UnwindReturned?
    ensures ClaimHolds(c, n, Fly(f, e))
  {
    if f != GROUNDED { assert WalletPartOf(n) == WalletPartOf(m); }
  }

  lemma ClaimStep(c: Config, m: Memory, f: Flight, e: Event, n: Memory)
    requires ClaimHolds(c, m, f) && Allowed(c, m, f, e) && WalletSide(m, e, n)
    requires f.load.NoLoad? ==> f.stage.Idle?
    ensures ClaimHolds(c, n, Fly(f, e))
  {
    if !(e.SpendReserved? || e.FillEnqueued? || e.UnwindEnqueued? || e.FillReturned? || e.UnwindReturned?) {
      ClaimRests(c, m, f, e, n);
    }
  }

  /** What every kept run maintains. */
  lemma {:induction false} KeptIsSound(c: Config, r: Run)
    requires Kept(c, r)
    ensures Sound(c, Now(r), Aloft(r))
  {
    if r.Then? {
      KeptPast(c, r);
      KeptIsSound(c, r.past);
      var m, f, e := Now(r.past), Aloft(r.past), r.event;
      UnwindSideOf(c, m, e);
      WalkSideOf(c, m, e);
      WalletSideOf(c, m, e);
      if e.SnapshotRead? || e.UnwindPlanned? { PassOpens(c, m, e, Now(r)); }
      else { PassStays(c, m, e, Now(r)); }
      SeededStays(c, m, e, Now(r));
      FillLoadStep(c, m, f, e, Now(r));
      UnwindLoadStep(c, m, f, e, Now(r));
      ClaimStep(c, m, f, e, Now(r));
    }
  }
}
