/**
 The leftovers alert: debt an idle pass leaves because the wallet cannot
 repay it is told once between two clean passes of its pool, and a telling
 the notifier dropped does not count as told.
 */
module Leftovers {
  import opened Types
  import opened Machine
  import opened Runs
  import opened Lanes

  /** A pass that finds the pool holding nothing, or able to repay everything it left. */
  predicate CleanPass(lane: Lane, e: Event, pool: Pool) {
    match e
    case SnapshotRead(at, read) =>
      at == pool && read.Some? && read.value.empty && Contains(read.value.ledger, lane.after)
    case UnwindPlanned(config, _, _, built) =>
      config.address == pool && built.Some? && built.value.IsIdle() && built.value.remaining == []
    case _ => false
  }

  /** An idle pass that leaves debt behind. */
  predicate LeavesDebt(e: Event, pool: Pool) {
    e.UnwindPlanned? && e.config.address == pool && e.built.Some? && e.built.value.IsIdle()
    && e.built.value.remaining != []
  }

  predicate Delivers(e: Event, pool: Pool) {
    e.Notified? && e.notice.UnwindLeftovers? && e.pool == pool && !e.delivery.Dropped?
  }

  /** Deliveries not dropped since the pool's last clean pass. */
  function Deliveries(r: Run, pool: Pool): nat {
    if r.Start? then 0
    else if CleanPass(LaneOf(Now(r.past), pool), r.event, pool) then 0
    else Deliveries(r.past, pool) + (if Delivers(r.event, pool) then 1 else 0)
  }

  predicate ToldOnce(m: Memory, pool: Pool, deliveries: nat) {
    && deliveries == (if LaneOf(m, pool).told then 1 else 0)
    && (m.duty == Some(Tell(UnwindLeftovers, pool)) ==> deliveries == 0)
  }

  /** The telling is owed only by an idle pass that leaves debt nobody was told of. */
  lemma LeftoversAreOwed(c: Config, m: Memory, f: Flight, e: Event, pool: Pool)
    requires Allowed(c, m, f, e)
    ensures Step(c, m, e).duty == Some(Tell(UnwindLeftovers, pool)) <==>
      || (LeavesDebt(e, pool) && pool !in m.mind.leftovers)
      || (e.LandedLate? && m.duty == Some(Tell(UnwindLeftovers, pool)))
  {
    if e.UnwindReturned? {
      assert Step(c, m, e) == UnwindDone(c, m, e.pool, e.unwound);
    } else if e.UnwindPlanned? {
      assert Step(c, m, e) == UnwindBuilt(m, e.config.address, e.snapshot, e.built);
    } else if !e.LandedLate? {
      OnlyPassesOweTellings(c, m, e);
    }
  }

  lemma DeliversWhatIsOwed(c: Config, m: Memory, f: Flight, e: Event, pool: Pool)
    requires Allowed(c, m, f, e) && Delivers(e, pool)
    ensures m.duty == Some(Tell(UnwindLeftovers, pool))
  {
  }

  lemma ToldStep(c: Config, lane: Lane, pool: Pool, tick: u32, e: Event)
    ensures LaneStep(c, lane, pool, tick, e).told ==
      (!CleanPass(lane, e, pool) && (lane.told || Delivers(e, pool)))
  {
  }

  /**
   At most one delivery between two clean passes, and the filler's
   `leftovers_notified` holds a pool exactly when there was one.
   */
  lemma {:induction false} LeftoversAreToldOnce(c: Config, r: Run, pool: Pool)
    requires Kept(c, r)
    ensures ToldOnce(Now(r), pool, Deliveries(r, pool))
  {
    if r.Then? {
      KeptPast(c, r);
      LeftoversAreToldOnce(c, r.past, pool);
      LaneMoves(c, r, pool);
      ToldStep(c, LaneOf(Now(r.past), pool), pool, Now(r.past).tick, r.event);
      LeftoversAreOwed(c, Now(r.past), Aloft(r.past), r.event, pool);
      if Delivers(r.event, pool) { DeliversWhatIsOwed(c, Now(r.past), Aloft(r.past), r.event, pool); }
    }
  }

  /** Every idle pass that leaves debt owes a telling, unless one was delivered since the last clean pass. */
  lemma DroppedIsTriedAgain(c: Config, r: Run, s: Run, pool: Pool)
    requires Kept(c, r) && Moment(s, r) && s.Then? && LeavesDebt(s.event, pool)
    ensures Now(s).duty == Some(Tell(UnwindLeftovers, pool)) <==> Deliveries(s.past, pool) == 0
  {
    KeptMoment(c, s, r);
    KeptPast(c, s);
    LeftoversAreToldOnce(c, s.past, pool);
    LeftoversAreOwed(c, Now(s.past), Aloft(s.past), s.event, pool);
  }
}
