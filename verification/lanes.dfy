/**
 One pool at a time: what the filler remembers of a single pool, and how one
 event moves it. Pools never move each other's lanes, so every statement
 about a pool's unwinds is proved on its own lane.
 */
module Lanes {
  import opened Types
  import opened Machine
  import opened Runs

  datatype Lane = Lane(
    seeded: bool,
    pending: bool,
    after: Option<Option<u32>>,
    setback: Option<Setback>,
    told: bool)

  function LaneOf(m: Memory, pool: Pool): Lane {
    Lane(m.mind.seeded,
         pool in m.mind.pending,
         if pool in m.mind.after then Some(m.mind.after[pool]) else None,
         if pool in m.mind.setbacks then Some(m.mind.setbacks[pool]) else None,
         pool in m.mind.leftovers)
  }

  /** Whether a snapshot at `ledger` provably holds this submission, if there was one. */
  predicate Contains(ledger: u32, newest: Option<Option<u32>>) {
    newest.Some? ==> newest.value.Some? && newest.value.value <= ledger
  }

  /** A pass's answer that moved nothing. */
  predicate MovedNothing(answer: UnwindAnswer) {
    !answer.PlannedOnly? && !(answer.Submitted? && MayHaveLanded(answer.outcome))
  }

  function AfterReturn(c: Config, lane: Lane, tick: u32, answer: UnwindAnswer): Lane {
    if MovedNothing(answer) then
      lane.(setback := Some(NextSetback(if lane.setback.Some? then lane.setback.value else NO_SETBACK, tick)))
    else if answer.PlannedOnly? then
      lane.(setback := None, pending := lane.pending && !c.dryRun)
    else lane
  }

  /** What one event means for `pool`. */
  function LaneStep(c: Config, lane: Lane, pool: Pool, tick: u32, e: Event): Lane {
    match e
    case TickBegan(_, _) =>
      lane.(seeded := true, pending := lane.pending || (!lane.seeded && pool in c.Addresses()))
    case FillEnqueued(plan, _, _, answer) =>
      if plan.pool != pool || !LandedAnswer(answer) then lane
      else lane.(pending := true, after := Some(LandingLedger(answer.outcome)), setback := None)
    case UnwindEnqueued(at, _, _, _, answer) =>
      if at != pool || !LandedAnswer(answer) then lane
      else lane.(after := Some(LandingLedger(answer.outcome)), setback := None)
    case UnwindsBegan =>
      if c.signer.None? then lane.(pending := false, after := None) else lane
    case SnapshotRead(at, read) =>
      if at == pool && read.Some? && Contains(read.value.ledger, lane.after) && read.value.empty
      then Lane(lane.seeded, false, None, None, false) else lane
    case UnwindPlanned(config, _, _, built) =>
      if config.address != pool || built.None? || !built.value.IsIdle() then lane
      else lane.(pending := false, setback := None, told := lane.told && built.value.remaining != [])
    case UnwindReturned(at, answer) =>
      if at != pool then lane else AfterReturn(c, lane, tick, answer)
    case Notified(notice, at, delivery) =>
      if at == pool && notice.UnwindLeftovers? && !delivery.Dropped? then lane.(told := true) else lane
    case _ => lane
  }

  // ----- the memory's step, pool by pool ----------------------------------

  lemma LandedLane(m: Memory, at: Pool, spend: Amounts, outcome: TxOutcome, pool: Pool)
    ensures LaneOf(Landed(m, at, spend, outcome), pool) ==
      if at != pool then LaneOf(m, pool)
      else LaneOf(m, pool).(after := Some(LandingLedger(outcome)), setback := None)
    ensures LaneOf(FillLanded(m, at, spend, outcome), pool) ==
      if at != pool then LaneOf(m, pool)
      else LaneOf(m, pool).(pending := true, after := Some(LandingLedger(outcome)), setback := None)
  {
  }

  lemma BegunLane(c: Config, m: Memory, sequence: u32, execute: bool, pool: Pool)
    ensures LaneOf(Begun(c, m, sequence, execute), pool) ==
      LaneStep(c, LaneOf(m, pool), pool, m.tick, TickBegan(sequence, execute))
  {
  }

  lemma PassingLane(c: Config, m: Memory, pool: Pool)
    requires c.signer.None? ==> pool !in m.mind.after
    ensures LaneOf(Passing(c, m), pool) == LaneStep(c, LaneOf(m, pool), pool, m.tick, UnwindsBegan)
  {
  }

  lemma PositionLane(c: Config, m: Memory, at: Pool, read: Option<Snapshot>, pool: Pool)
    ensures LaneOf(PositionRead(m, at, read), pool) ==
      LaneStep(c, LaneOf(m, pool), pool, m.tick, SnapshotRead(at, read))
  {
  }

  lemma IdleLane(m: Memory, at: Pool, snapshot: Snapshot, plan: UnwindPlan, pool: Pool)
    requires plan.IsIdle()
    ensures LaneOf(UnwindBuilt(m, at, snapshot, Some(plan)), pool) ==
      if at != pool then LaneOf(m, pool)
      else
        LaneOf(m, pool).(pending := false, setback := None, told := LaneOf(m, pool).told && plan.remaining != [])
  {
  }

  lemma BuiltLane(c: Config, m: Memory, config: PoolConfig, snapshot: Snapshot, rate: int,
                  built: Option<UnwindPlan>, pool: Pool)
    ensures LaneOf(UnwindBuilt(m, config.address, snapshot, built), pool) ==
      LaneStep(c, LaneOf(m, pool), pool, m.tick, UnwindPlanned(config, snapshot, rate, built))
  {
    if built.Some? && built.value.IsIdle() { IdleLane(m, config.address, snapshot, built.value, pool); }
  }

  lemma StuckLane(m: Memory, at: Pool, pool: Pool)
    ensures LaneOf(m.Stuck(at), pool) ==
      if at != pool then LaneOf(m, pool)
      else
        var run := LaneOf(m, pool).setback;
        LaneOf(m, pool).(setback := Some(NextSetback(if run.Some? then run.value else NO_SETBACK, m.tick)))
  {
  }

  lemma DoneLane(c: Config, m: Memory, at: Pool, answer: UnwindAnswer, pool: Pool)
    ensures LaneOf(UnwindDone(c, m, at, answer), pool) ==
      if at != pool then LaneOf(m, pool) else AfterReturn(c, LaneOf(m, pool), m.tick, answer)
  {
    if MovedNothing(answer) { StuckLane(m.(pass := NoPass), at, pool); }
  }

  lemma ToldLane(c: Config, m: Memory, notice: Notice, at: Pool, delivery: Delivery, pool: Pool)
    ensures LaneOf(Told(m, notice, at, delivery), pool) ==
      LaneStep(c, LaneOf(m, pool), pool, m.tick, Notified(notice, at, delivery))
  {
  }

  lemma StepLane(c: Config, m: Memory, e: Event, n: Memory, pool: Pool)
    requires UnwindSide(c, m, e, n)
    requires c.signer.None? ==> pool !in m.mind.after
    ensures LaneOf(n, pool) == LaneStep(c, LaneOf(m, pool), pool, m.tick, e)
  {
    match e {
      case TickBegan(sequence, execute) => BegunLane(c, m, sequence, execute, pool);
      case FillEnqueued(plan, _, spend, answer) =>
        if LandedAnswer(answer) { LandedLane(m, plan.pool, spend, answer.outcome, pool); }
      case UnwindEnqueued(at, _, _, spend, answer) =>
        if LandedAnswer(answer) { LandedLane(m, at, spend, answer.outcome, pool); }
      case UnwindsBegan => PassingLane(c, m, pool);
      case SnapshotRead(at, read) => PositionLane(c, m, at, read, pool);
      case UnwindPlanned(config, snapshot, rate, built) => BuiltLane(c, m, config, snapshot, rate, built, pool);
      case UnwindUnfunded(_) =>
      case PassBlocked(_) =>
      case UnwindReturned(at, answer) => DoneLane(c, m, at, answer, pool);
      case Notified(notice, at, delivery) => ToldLane(c, m, notice, at, delivery, pool);
      case _ => assert UnwindPartOf(n) == UnwindPartOf(m);
    }
  }

  /** Without a key nothing ever lands, so no pool is ever gated. */
  lemma {:induction false} UnsignedIsUngated(c: Config, r: Run, pool: Pool)
    requires Kept(c, r) && c.signer.None?
    ensures pool !in Now(r).mind.after
  {
    if r.Then? {
      KeptPast(c, r);
      UnsignedIsUngated(c, r.past, pool);
      UnwindSideOf(c, Now(r.past), r.event);
      StepLane(c, Now(r.past), r.event, Now(r), pool);
      assert LaneOf(Now(r), pool).after.None?;
    }
  }

  /** In a kept run every pool moves by its own lane's step alone. */
  lemma LaneMoves(c: Config, r: Run, pool: Pool)
    requires Kept(c, r) && r.Then?
    ensures LaneOf(Now(r), pool) == LaneStep(c, LaneOf(Now(r.past), pool), pool, Now(r.past).tick, r.event)
  {
    KeptPast(c, r);
    if c.signer.None? { UnsignedIsUngated(c, r.past, pool); }
    UnwindSideOf(c, Now(r.past), r.event);
    StepLane(c, Now(r.past), r.event, Now(r), pool);
  }
}
