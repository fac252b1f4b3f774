/**
 The backoff of a pool whose unwind passes move nothing. An episode is an
 unbroken run of setbacks, read off the run's events: the ticks its passes
 came back empty-handed at, since the last thing that ended one.
 */
module Backoffs {
  import opened Types
  import opened Machine
  import opened Runs
  import opened Lanes

  /** A pass of `pool` that moved nothing. */
  predicate SetsBack(e: Event, pool: Pool) {
    e.UnwindReturned? && e.pool == pool && MovedNothing(e.unwound)
  }

  /** What ends an episode: a landing, an idle or empty pass, or a pass planned and held. */
  predicate Resets(lane: Lane, e: Event, pool: Pool) {
    match e
    case FillEnqueued(plan, _, _, answer) => plan.pool == pool && LandedAnswer(answer)
    case UnwindEnqueued(at, _, _, _, answer) => at == pool && LandedAnswer(answer)
    case SnapshotRead(at, read) =>
      at == pool && read.Some? && read.value.empty && Contains(read.value.ledger, lane.after)
    case UnwindPlanned(config, _, _, built) => config.address == pool && built.Some? && built.value.IsIdle()
    case UnwindReturned(at, unwound) => at == pool && unwound.PlannedOnly?
    case _ => false
  }

  /** The ticks of the open episode's setbacks, in order. */
  function Episode(r: Run, pool: Pool): seq<u32> {
    if r.Start? then []
    else if SetsBack(r.event, pool) then Episode(r.past, pool) + [Now(r.past).tick]
    else if Resets(LaneOf(Now(r.past), pool), r.event, pool) then []
    else Episode(r.past, pool)
  }

  /** How often the operator was told in the open episode that the pool is stuck. */
  function Alerts(r: Run, pool: Pool): nat {
    if r.Start? then 0
    else if Resets(LaneOf(Now(r.past), pool), r.event, pool) then 0
    else
      var told := r.event.Notified? && r.event.notice.UnwindStuck? && r.event.pool == pool;
      Alerts(r.past, pool) + (if told then 1 else 0)
  }

  /** The hold after the `n`-th setback, in ledgers. */
  function Hold(n: nat): nat { Min(Pow2(n), UNWIND_BACKOFF_MAX_LEDGERS) }

  /** The sum of the first `n` holds. */
  function Holds(n: nat): nat {
    if n == 0 then 0 else Holds(n - 1) + Hold(n)
  }

  lemma {:induction false} PowGrows(n: nat, k: nat)
    requires n <= k
    ensures Pow2(n) <= Pow2(k)
    decreases k
  {
    if n < k { PowGrows(n, k - 1); }
  }

  /** The counter saturates and the exponential does; neither changes the hold. */
  lemma SaturationKeepsTheHold(n: nat)
    ensures Backoff(Min(n, U32_MAX)) == Hold(n)
    ensures Hold(n) <= 64
  {
    if n > U32_MAX {
      PowGrows(6, n);
      PowGrows(6, U32_MAX);
      assert Pow2(6) == 64 by { assert Pow2(3) == 8; }
    }
  }

  /** What the filler keeps of an episode: its saturated length, and when the next pass is due. */
  predicate Keeps(setback: Option<Setback>, episode: seq<u32>) {
    if episode == [] then setback.None?
    else setback == Some(Setback(Min(|episode|, U32_MAX),
                                 SaturatingAdd(episode[|episode| - 1], Backoff(Min(|episode|, U32_MAX)))))
  }

  /** No setback of the episode came before the one before it allowed. */
  ghost predicate Spaced(episode: seq<u32>) {
    forall i, j :: 0 <= i < j < |episode| && j == i + 1 ==> episode[j] >= Min(episode[i] + Hold(j), U32_MAX)
  }

  lemma SetbackStep(c: Config, lane: Lane, pool: Pool, tick: u32, e: Event, episode: seq<u32>)
    requires Keeps(lane.setback, episode)
    ensures Keeps(LaneStep(c, lane, pool, tick, e).setback,
                  if SetsBack(e, pool) then episode + [tick] else if Resets(lane, e, pool) then [] else episode)
  {
  }

  lemma SpacedMore(episode: seq<u32>, tick: u32)
    requires Spaced(episode)
    requires episode != [] ==> tick >= Min(episode[|episode| - 1] + Hold(|episode|), U32_MAX)
    ensures Spaced(episode + [tick])
  {
    var longer := episode + [tick];
    forall i, j | 0 <= i < j < |longer| && j == i + 1 ensures longer[j] >= Min(longer[i] + Hold(j), U32_MAX) {
      assert longer[i] == episode[i];
      if j < |episode| { assert longer[j] == episode[j]; }
    }
  }

  lemma ReturnsToAReadyPool(c: Config, m: Memory, f: Flight, e: Event, pool: Pool)
    requires Sound(c, m, f) && Allowed(c, m, f, e) && SetsBack(e, pool)
    ensures Ready(m, pool)
  {
  }

  /** A pass that may be planned again extends the episode no sooner than its last hold allows. */
  lemma ReadyIsSpaced(m: Memory, pool: Pool, episode: seq<u32>)
    requires Ready(m, pool) && Keeps(LaneOf(m, pool).setback, episode) && Spaced(episode)
    ensures Spaced(episode + [m.tick])
  {
    SaturationKeepsTheHold(|episode|);
    SpacedMore(episode, m.tick);
  }

  /** The filler's `unwind_setbacks` entry is the open episode, and the episode is spaced by its holds. */
  lemma {:induction false} SetbacksFollowTheEpisode(c: Config, r: Run, pool: Pool)
    requires Kept(c, r)
    ensures Keeps(LaneOf(Now(r), pool).setback, Episode(r, pool)) && Spaced(Episode(r, pool))
  {
    if r.Then? {
      KeptPast(c, r);
      SetbacksFollowTheEpisode(c, r.past, pool);
      LaneMoves(c, r, pool);
      SetbackStep(c, LaneOf(Now(r.past), pool), pool, Now(r.past).tick, r.event, Episode(r.past, pool));
      if SetsBack(r.event, pool) {
        KeptIsSound(c, r.past);
        ReturnsToAReadyPool(c, Now(r.past), Aloft(r.past), r.event, pool);
        ReadyIsSpaced(Now(r.past), pool, Episode(r.past, pool));
      }
    }
  }

  lemma {:induction false} SpacedSums(episode: seq<u32>, n: nat)
    requires Spaced(episode) && n < |episode|
    ensures episode[n] >= Min(episode[0] + Holds(n), U32_MAX)
  {
    if n > 0 { SpacedSums(episode, n - 1); }
  }

  /**
   The n-th setback of an episode comes at least the sum of the holds before
   it after the first, except that a retry ledger never passes the largest
   ledger there is.
   */
  lemma SetbacksBackOff(c: Config, r: Run, pool: Pool, n: nat)
    requires Kept(c, r) && n < |Episode(r, pool)|
    ensures Episode(r, pool)[n] >= Min(Episode(r, pool)[0] + Holds(n), U32_MAX)
  {
    SetbacksFollowTheEpisode(c, r, pool);
    SpacedSums(Episode(r, pool), n);
  }

  /** The bound without the exception holds exactly while it names a ledger. */
  lemma BackoffBoundHoldsIff(c: Config, r: Run, pool: Pool, n: nat)
    requires Kept(c, r) && n < |Episode(r, pool)|
    ensures Episode(r, pool)[n] >= Episode(r, pool)[0] + Holds(n)
      <==> Episode(r, pool)[0] + Holds(n) <= U32_MAX
  {
    SetbacksBackOff(c, r, pool, n);
  }

  /** Near the last ledger the hold is cut short: one ledger where two are owed. */
  lemma SaturationShortensTheHold()
    ensures NextSetback(NO_SETBACK, U32_MAX - 1).retryAt < U32_MAX - 1 + Hold(1)
  {
    assert Pow2(1) == 2;
  }

  /** No pending pool is held back more than 64 ledgers past its last setback. */
  lemma HeldAtMostSixtyFour(c: Config, r: Run, pool: Pool)
    requires Kept(c, r) && pool in Now(r).mind.pending
    requires Episode(r, pool) != [] ==>
      Now(r).tick >= Episode(r, pool)[|Episode(r, pool)| - 1] + UNWIND_BACKOFF_MAX_LEDGERS
    ensures Ready(Now(r), pool)
  {
    SetbacksFollowTheEpisode(c, r, pool);
    SaturationKeepsTheHold(|Episode(r, pool)|);
    assert LaneOf(Now(r), pool).setback.Some? <==> pool in Now(r).mind.setbacks;
  }

  // ----- the alert --------------------------------------------------------

  /** Told once, on the third setback, unless that telling is what is owed right now. */
  predicate AlertedOnce(m: Memory, pool: Pool, setbacks: nat, alerts: nat) {
    if m.duty == Some(Tell(UnwindStuck, pool)) then setbacks == UNWIND_SETBACK_ALERT && alerts == 0
    else alerts == if setbacks >= UNWIND_SETBACK_ALERT then 1 else 0
  }

  /** The telling is owed only by the setback that makes three, and only until it is done. */
  lemma StuckIsOwedByTheThird(c: Config, m: Memory, f: Flight, e: Event, pool: Pool, setbacks: nat)
    requires Allowed(c, m, f, e)
    requires SetsBack(e, pool) ==>
      (if pool in m.mind.setbacks then m.mind.setbacks[pool] else NO_SETBACK).count == Min(setbacks, U32_MAX)
    ensures Step(c, m, e).duty == Some(Tell(UnwindStuck, pool)) <==>
      || (SetsBack(e, pool) && setbacks + 1 == UNWIND_SETBACK_ALERT)
      || (e.LandedLate? && m.duty == Some(Tell(UnwindStuck, pool)))
  {
    if e.UnwindReturned? {
      assert Step(c, m, e) == UnwindDone(c, m, e.pool, e.unwound);
    } else if e.UnwindPlanned? {
      assert Step(c, m, e) == UnwindBuilt(m, e.config.address, e.snapshot, e.built);
    } else if !e.LandedLate? {
      OnlyPassesOweTellings(c, m, e);
    }
  }

  /** Exactly one alert in an episode that reaches its third setback, none in one that does not. */
  lemma {:induction false} OneAlertPerEpisode(c: Config, r: Run, pool: Pool)
    requires Kept(c, r)
    ensures AlertedOnce(Now(r), pool, |Episode(r, pool)|, Alerts(r, pool))
  {
    if r.Then? {
      KeptPast(c, r);
      OneAlertPerEpisode(c, r.past, pool);
      SetbacksFollowTheEpisode(c, r.past, pool);
      var setbacks := |Episode(r.past, pool)|;
      assert LaneOf(Now(r.past), pool).setback.Some? <==> pool in Now(r.past).mind.setbacks;
      StuckIsOwedByTheThird(c, Now(r.past), Aloft(r.past), r.event, pool, setbacks);
    }
  }
}
