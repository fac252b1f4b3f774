/**
 The high-water gate and the pending set, over whole runs. What landed in a
 pool, and what each pool is still owed, are read off the run's events alone;
 the filler's `unwind_after` and `unwind_pending` are proved to say the same.
 */
module Gates {
  import opened Types
  import opened Machine
  import opened Runs
  import opened Lanes

  /** The landing an event is for `pool`: its ledger, or none known for an unresolved one. */
  function LandingOf(e: Event, pool: Pool): Option<Option<u32>> {
    match e
    case FillEnqueued(plan, _, _, answer) =>
      if plan.pool == pool && LandedAnswer(answer) then Some(LandingLedger(answer.outcome)) else None
    case UnwindEnqueued(at, _, _, _, answer) =>
      if at == pool && LandedAnswer(answer) then Some(LandingLedger(answer.outcome)) else None
    case _ => None
  }

  /** The newest submission of `pool` that landed or may have. */
  function Newest(r: Run, pool: Pool): Option<Option<u32>> {
    if r.Start? then None
    else if LandingOf(r.event, pool).Some? then LandingOf(r.event, pool)
    else Newest(r.past, pool)
  }

  /** A gate set names the newest landing, and a pending pool with none set had no landing. */
  predicate GateHolds(lane: Lane, newest: Option<Option<u32>>) {
    && (lane.after.Some? ==> newest == lane.after)
    && (lane.pending && lane.after.None? ==> newest.None?)
    && (!lane.seeded ==> newest.None?)
  }

  lemma GateStep(c: Config, lane: Lane, pool: Pool, tick: u32, e: Event, newest: Option<Option<u32>>)
    requires GateHolds(lane, newest) && (LandingOf(e, pool).Some? ==> lane.seeded)
    ensures GateHolds(LaneStep(c, lane, pool, tick, e),
                      if LandingOf(e, pool).Some? then LandingOf(e, pool) else newest)
  {
  }

  /** `unwind_after` and the run's landings agree, pool by pool. */
  lemma {:induction false} GateFollowsLandings(c: Config, r: Run, pool: Pool)
    requires Kept(c, r)
    ensures GateHolds(LaneOf(Now(r), pool), Newest(r, pool))
  {
    if r.Then? {
      KeptPast(c, r);
      KeptIsSound(c, r.past);
      GateFollowsLandings(c, r.past, pool);
      LaneMoves(c, r, pool);
      GateStep(c, LaneOf(Now(r.past), pool), pool, Now(r.past).tick, r.event, Newest(r.past, pool));
    }
  }

  /**
   An unwind is planned only against a snapshot that holds the pool's newest
   landing, and never while that one is unresolved.
   */
  lemma PlannedOnlyPastTheNewestLanding(c: Config, r: Run, s: Run)
    requires Kept(c, r) && Moment(s, r) && s.Then? && s.event.UnwindPlanned?
    ensures Contains(s.event.snapshot.ledger, Newest(s.past, s.event.config.address))
  {
    KeptMoment(c, s, r);
    KeptPast(c, s);
    KeptIsSound(c, s.past);
    GateFollowsLandings(c, s.past, s.event.config.address);
  }

  /** The ledger `t` ends in landing at, for `pool`, if it does and the ledger is known. */
  function LandedAt(t: Run, pool: Pool): Option<u32> {
    if t.Then? && LandingOf(t.event, pool).Some? then LandingOf(t.event, pool).value else None
  }

  /** The chain's side: a pool's known landing ledgers never decrease, in the order their answers came. */
  ghost predicate LandingsRise(r: Run, pool: Pool) {
    forall s, t :: Moment(s, r) && Moment(t, s) && LandedAt(s, pool).Some? && LandedAt(t, pool).Some?
      ==> LandedAt(t, pool).value <= LandedAt(s, pool).value
  }

  lemma {:induction false} NewestIsHighest(r: Run, pool: Pool, t: Run)
    requires LandingsRise(r, pool) && Moment(t, r) && LandedAt(t, pool).Some?
    ensures Newest(r, pool).Some?
    ensures Newest(r, pool).value.Some? ==> LandedAt(t, pool).value <= Newest(r, pool).value.value
  {
    if LandedAt(r, pool).Some? {
      assert Moment(r, r);
    } else if t != r && LandingOf(r.event, pool).None? {
      assert LandingsRise(r.past, pool) by {
        forall s, u | Moment(s, r.past) && Moment(u, s) && LandedAt(s, pool).Some? && LandedAt(u, pool).Some?
          ensures LandedAt(u, pool).value <= LandedAt(s, pool).value
        {
          assert Moment(s, r);
        }
      }
      NewestIsHighest(r.past, pool, t);
    }
  }

  /**
   Under the chain's promise that a pool's landing ledgers never decrease,
   a planned unwind's snapshot holds every fill and unwind of the pool that
   is known to have landed in the run, not just the newest.
   */
  lemma PlannedPastEveryLanding(c: Config, r: Run, s: Run, t: Run)
    requires Kept(c, r) && Moment(s, r) && s.Then? && s.event.UnwindPlanned?
    requires LandingsRise(s.past, s.event.config.address)
    requires Moment(t, s.past) && LandedAt(t, s.event.config.address).Some?
    ensures LandedAt(t, s.event.config.address).value <= s.event.snapshot.ledger
  {
    PlannedOnlyPastTheNewestLanding(c, r, s);
    NewestIsHighest(s.past, s.event.config.address, t);
  }

  /** The gate is dropped only where the pool also stops being pending. */
  lemma GateDropsWithThePool(c: Config, r: Run, s: Run, pool: Pool)
    requires Kept(c, r) && Moment(s, r) && s.Then?
    requires pool in Now(s.past).mind.after && pool !in Now(s).mind.after
    ensures pool !in Now(s).mind.pending
    ensures (s.event.UnwindsBegan? && c.signer.None?)
         || (s.event.SnapshotRead? && s.event.pool == pool && s.event.read.Some? && s.event.read.value.empty
             && Contains(s.event.read.value.ledger, Newest(s.past, pool)))
  {
    KeptMoment(c, s, r);
    KeptPast(c, s);
    GateFollowsLandings(c, s.past, pool);
    LaneMoves(c, s, pool);
    assert LaneOf(Now(s), pool).after.None? && LaneOf(Now(s.past), pool).after.Some?;
  }

  // ----- no stranded position ---------------------------------------------

  predicate FillLands(e: Event, pool: Pool) {
    e.FillEnqueued? && e.plan.pool == pool && LandedAnswer(e.answer)
  }

  /** Whether a tick ever began. */
  predicate Began(r: Run) {
    r.Then? && (r.event.TickBegan? || Began(r.past))
  }

  /** What ends a pool's claim to a pass. */
  predicate Releases(c: Config, past: Run, e: Event, pool: Pool) {
    match e
    case SnapshotRead(at, read) =>
      at == pool && read.Some? && read.value.empty && Contains(read.value.ledger, Newest(past, pool))
    case UnwindPlanned(config, _, _, built) => config.address == pool && built.Some? && built.value.IsIdle()
    case UnwindReturned(at, unwound) => at == pool && unwound.PlannedOnly? && c.dryRun
    case UnwindsBegan => c.signer.None?
    case _ => false
  }

  /**
   Whether `pool` is owed a pass: the run's first tick owes every configured
   pool one, a fill that landed or may have owes its pool one, and only a
   release ends it.
   */
  predicate Owed(c: Config, r: Run, pool: Pool) {
    r.Then? &&
    (|| FillLands(r.event, pool)
     || (r.event.TickBegan? && !Began(r.past) && pool in c.Addresses())
     || (Owed(c, r.past, pool) && !Releases(c, r.past, r.event, pool)))
  }

  lemma PendingStep(c: Config, lane: Lane, pool: Pool, tick: u32, past: Run, e: Event)
    requires GateHolds(lane, Newest(past, pool)) && (lane.seeded <==> Began(past))
    requires e.SnapshotRead? && e.pool == pool ==> lane.pending
    ensures LaneStep(c, lane, pool, tick, e).pending <==>
      || FillLands(e, pool)
      || (e.TickBegan? && !Began(past) && pool in c.Addresses())
      || (lane.pending && !Releases(c, past, e, pool))
    ensures LaneStep(c, lane, pool, tick, e).seeded <==> e.TickBegan? || Began(past)
  {
  }

  /** `unwind_pending` is exactly what the run's events say is owed. */
  lemma {:induction false} PendingIsWhatIsOwed(c: Config, r: Run, pool: Pool)
    requires Kept(c, r)
    ensures pool in Now(r).mind.pending <==> Owed(c, r, pool)
    ensures Now(r).mind.seeded <==> Began(r)
  {
    if r.Then? {
      KeptPast(c, r);
      PendingIsWhatIsOwed(c, r.past, pool);
      GateFollowsLandings(c, r.past, pool);
      LaneMoves(c, r, pool);
      PendingStep(c, LaneOf(Now(r.past), pool), pool, Now(r.past).tick, r.past, r.event);
    }
  }

  /**
   No stranded position: once a fill of a pool lands or may have, the pool
   is pending at every later moment with no release in between.
   */
  lemma {:induction false} NoStrandedPosition(c: Config, r: Run, t: Run, pool: Pool)
    requires Kept(c, r) && Moment(t, r) && t.Then? && FillLands(t.event, pool)
    requires forall s :: Moment(s, r) && s.Then? && Moment(t, s.past) ==> !Releases(c, s.past, s.event, pool)
    ensures pool in Now(r).mind.pending
  {
    PendingIsWhatIsOwed(c, r, pool);
    if t != r {
      KeptPast(c, r);
      assert Moment(r, r);
      forall s | Moment(s, r.past) && s.Then? && Moment(t, s.past) ensures !Releases(c, s.past, s.event, pool) {
        assert Moment(s, r);
      }
      NoStrandedPosition(c, r.past, t, pool);
      PendingIsWhatIsOwed(c, r.past, pool);
    }
  }

  /** Every release of a keyed filler's pool was decided on a snapshot that holds its newest landing, or a dry run's. */
  lemma ReleasedOnlyPastTheNewestLanding(c: Config, r: Run, s: Run, pool: Pool)
    requires Kept(c, r) && Moment(s, r) && s.Then? && c.signer.Some? && !c.dryRun
    requires pool in Now(s.past).mind.pending && pool !in Now(s).mind.pending
    ensures s.event.SnapshotRead? || s.event.UnwindPlanned?
    ensures s.event.SnapshotRead? ==>
      s.event.pool == pool && s.event.read.Some? && s.event.read.value.empty
      && Contains(s.event.read.value.ledger, Newest(s.past, pool))
    ensures s.event.UnwindPlanned? ==>
      s.event.config.address == pool && s.event.built.Some? && s.event.built.value.IsIdle()
      && Contains(s.event.snapshot.ledger, Newest(s.past, pool))
  {
    KeptMoment(c, s, r);
    KeptPast(c, s);
    PendingIsWhatIsOwed(c, s, pool);
    PendingIsWhatIsOwed(c, s.past, pool);
    if s.event.UnwindPlanned? { PlannedOnlyPastTheNewestLanding(c, r, s); }
  }
}
