/**
 Floor safety over whole runs. The chain is whatever it is at each moment of
 the run; all that is assumed of it is named in `Honest`. Every unwind the
 chain applies was planned within the excess of the very level it finds,
 however far the snapshots lag and whenever a submission the bot never saw
 the end of lands. So it stops at the configured floor unless the rate it
 was planned at, accrued past the snapshot, ran ahead of the rate it lands
 at; and then it falls short by no more than the projection ran ahead.
 */
module FloorSafety {
  import opened Types
  import opened Rates
  import opened Machine
  import opened Runs
  import opened Lanes
  import opened Gates

  // ----- the contract's arithmetic ----------------------------------------

  lemma ProductsGrow(a: int, b: int, y: int, z: int)
    requires 0 <= a <= b && 0 <= y <= z
    ensures a * y <= b * z
  {
    assert a * y <= b * y by { assert (b - a) * y >= 0; }
    assert b * y <= b * z by { assert b * (z - y) >= 0; }
  }

  /** The later the rate, the fewer b-tokens an amount is. */
  lemma CeilDivFalls(x: int, y: int, later: int)
    requires 0 <= x && 0 < y <= later
    ensures CeilDiv(x, later) <= CeilDiv(x, y)
  {
    var q := CeilDiv(x, y);
    ProductsGrow(q, q, y, later);
    CeilDivWithin(x, later, q);
  }

  /** Withdrawing at most the excess over the floor, at the snapshot's rate or a later one, stops at the floor. */
  lemma WithdrawalStopsAtTheFloor(held: nat, amount: int, rate: int, later: int, floor: int)
    requires 0 < rate <= later && amount <= PrimaryExcess(held, rate, floor)
    ensures AfterWithdrawal(held, amount, later) >= Min(FloorTokens(floor, later), held)
  {
    var least := Max(floor, 0) * SCALAR_12;
    CeilDivFalls(least, rate, later);
    if amount > 0 {
      var goes := held - FloorTokens(floor, rate);
      QuotientCovers(goes * rate, amount);
      CeilDivWithin(amount * SCALAR_12, rate, goes);
      CeilDivFalls(amount * SCALAR_12, rate, later);
    }
  }

  lemma QuotientCovers(whole: int, amount: int)
    requires amount <= whole / SCALAR_12
    ensures amount * SCALAR_12 <= whole
  {
  }

  lemma QuotientIsCovered(whole: int, amount: int)
    requires amount * SCALAR_12 <= whole
    ensures amount <= whole / SCALAR_12
  {
  }

  lemma SomeIsBurnt(amount: int, rate: int)
    requires 0 < amount && 0 < rate
    ensures ToBTokenUp(amount, rate) > 0
  {
  }

  lemma ExcessIsSomething(held: nat, rate: int, floor: int)
    requires 0 < rate
    ensures PrimaryExcess(held, rate, floor) >= 0
  {
    var goes := held - FloorTokens(floor, rate);
    if goes > 0 { assert goes * rate >= 0; }
  }

  /** An amount burns at most what is above the floor exactly when it is within the excess at that rate. */
  lemma BurnsAboveTheFloorExactly(held: nat, amount: int, rate: int, floor: int)
    requires 0 < rate && 0 < amount && FloorTokens(floor, rate) < held
    ensures ToBTokenUp(amount, rate) <= held - FloorTokens(floor, rate)
      <==> amount <= PrimaryExcess(held, rate, floor)
  {
    var goes := held - FloorTokens(floor, rate);
    var burnt := ToBTokenUp(amount, rate);
    if amount <= PrimaryExcess(held, rate, floor) {
      QuotientCovers(goes * rate, amount);
      CeilDivWithin(amount * SCALAR_12, rate, goes);
    }
    if burnt <= goes {
      ProductsGrow(burnt, goes, rate, rate);
      QuotientIsCovered(goes * rate, amount);
    }
  }

  /**
   When one withdrawal keeps the floor, whatever rate it was planned at:
   exactly when there is no floor or nothing to take, or when the amount is
   within the excess at the rate it lands at.
   */
  lemma KeepsTheFloorExactly(held: nat, amount: int, rate: int, floor: int)
    requires 0 < rate
    ensures AfterWithdrawal(held, amount, rate) >= Min(FloorTokens(floor, rate), held)
      <==> floor <= 0 || held == 0 || amount <= PrimaryExcess(held, rate, floor)
  {
    if floor <= 0 {
      CeilDivWithin(0, rate, 0);
    } else if amount <= 0 {
      ExcessIsSomething(held, rate, floor);
    } else {
      SomeIsBurnt(amount, rate);
      SomeIsBurnt(floor, rate);
      if FloorTokens(floor, rate) < held { BurnsAboveTheFloorExactly(held, amount, rate, floor); }
    }
  }

  /**
   A projection ahead of the landing rate does break the floor: this amount
   is within the excess at the rate planned, one part in a hundred ahead.
   */
  lemma AProjectionAheadBreaksTheFloor()
    ensures var planned := 1_010_000_000_000;
      && 409_999 <= PrimaryExcess(1_000_000, planned, 600_000)
      && AfterWithdrawal(1_000_000, 409_999, SCALAR_12) == 590_001 < FloorTokens(600_000, SCALAR_12)
  {
  }

  /**
   And this is all it breaks: what is left, valued at the landing rate and
   scaled by twelve decimals, falls short of the floor, or of what was
   there, by no more than what was held gained in the projection, and one
   b-token for the rounding.
   */
  lemma ShortfallIsBounded(held: nat, amount: int, planned: int, landing: int, floor: int)
    requires 0 < landing <= planned && amount <= PrimaryExcess(held, planned, floor)
    ensures AfterWithdrawal(held, amount, landing) * landing
         > Min(Max(floor, 0) * SCALAR_12, held * planned) - held * (planned - landing) - landing
  {
    var kept := FloorTokens(floor, planned);
    assert held * (planned - landing) == held * planned - held * landing;
    if amount > 0 {
      var burnt := ToBTokenUp(amount, landing);
      QuotientCovers((held - kept) * planned, amount);
      assert (held - kept) * planned == held * planned - kept * planned;
      assert burnt * landing < amount * SCALAR_12 + landing;
      assert kept * planned >= Max(floor, 0) * SCALAR_12;
      if burnt <= held {
        assert (held - burnt) * landing == held * landing - burnt * landing;
      } else {
        ProductsGrow(held, burnt, landing, landing);
      }
    }
  }

  /** A whole unwind's effect on the primary is that of the one withdrawal it makes of it, if it makes one. */
  lemma {:induction false} UnwindTakesOnce(actions: seq<UnwindAction>, primary: Asset, held: nat, rate: int)
    requires 0 < rate && |PrimaryTakes(actions, primary)| <= 1
    ensures AfterUnwind(actions, primary, held, rate) ==
      var takes := PrimaryTakes(actions, primary);
      if takes == [] then held else AfterWithdrawal(held, takes[0], rate)
    decreases |actions|
  {
    if actions != [] {
      UnwindTakesOnce(actions[1..], primary, held, rate);
      if PrimaryTakes(actions[1..], primary) == [] {
        UnwindTakesOnce(actions[1..], primary,
          match actions[0]
          case Withdraw(asset, amount) => if asset == primary then AfterWithdrawal(held, amount, rate) else held
          case WithdrawAll(asset) => if asset == primary then AfterWithdrawal(held, WITHDRAW_ALL, rate) else held
          case Repay(_, _) => held,
          rate);
      }
    }
  }

  /** A plan within a snapshot's excess leaves the floor, or what was there, at that rate or a later one. */
  lemma UnwindStopsAtTheFloor(pool: PoolConfig, actions: seq<UnwindAction>, held: nat, rate: int, later: int)
    requires 0 < rate <= later && WithinExcess(actions, pool.primary, held, rate, pool.floor)
    ensures AfterUnwind(actions, pool.primary, held, later) >= Min(FloorTokens(pool.floor, later), held)
  {
    UnwindTakesOnce(actions, pool.primary, held, later);
    var takes := PrimaryTakes(actions, pool.primary);
    if pool.floor > 0 && |takes| == 1 {
      WithdrawalStopsAtTheFloor(held, takes[0], rate, later, pool.floor);
    }
  }

  /** The floor's b-tokens are worth at least the floor. */
  lemma FloorTokensAreWorthTheFloor(floor: int, rate: int)
    requires 0 < rate
    ensures ToAsset(FloorTokens(floor, rate), rate) >= Max(floor, 0)
  {
    var tokens := FloorTokens(floor, rate);
    assert tokens * rate >= Max(floor, 0) * SCALAR_12;
  }

  // ----- what the chain applied -------------------------------------------

  /** One of the filler's own submissions to a pool; an unwind with the rate it was planned at. */
  datatype Submission = OfFill | OfUnwind(plan: UnwindPlan, rate: int)

  datatype Sending = Sending(submission: Submission, outcome: TxOutcome)

  /** The rate the pool's last pass was planned at. */
  function PlannedRate(r: Run, pool: Pool): int {
    if r.Start? then 0
    else if r.event.UnwindPlanned? && r.event.config.address == pool then r.event.rate
    else PlannedRate(r.past, pool)
  }

  /** What a run's last event sent to `pool` and the queue answered with an outcome. */
  function SendingOf(r: Run, pool: Pool): Option<Sending> {
    if r.Start? then None
    else
      match r.event
      case FillEnqueued(plan, _, _, answer) =>
        if plan.pool == pool && answer.Outcome? then Some(Sending(OfFill, answer.outcome)) else None
      case UnwindEnqueued(at, plan, _, _, answer) =>
        if at == pool && answer.Outcome?
        then Some(Sending(OfUnwind(plan, PlannedRate(r.past, pool)), answer.outcome)) else None
      case _ => None
  }

  /**
   The pool's submissions whose fate is open, oldest first. They share one
   key's sequence numbers: one that lands kills those before it, and one
   that is known to have succeeded leaves none open.
   */
  function Limbo(r: Run, pool: Pool): seq<Submission> {
    if r.Start? then []
    else
      var sending := SendingOf(r, pool);
      if sending.Some? && sending.value.outcome.Succeeded? then []
      else if sending.Some? && sending.value.outcome.Unknown? then Limbo(r.past, pool) + [sending.value.submission]
      else if r.event.LandedLate? && r.event.pool == pool && r.event.place < |Limbo(r.past, pool)|
      then Limbo(r.past, pool)[r.event.place + 1..]
      else Limbo(r.past, pool)
  }

  datatype Landing = Landing(submission: Submission, at: u32)

  /** The submission the chain applied at this moment, and its ledger. */
  function Applied(s: Run, pool: Pool): Option<Landing> {
    if s.Start? then None
    else
      var sending := SendingOf(s, pool);
      if sending.Some? && sending.value.outcome.Succeeded?
      then Some(Landing(sending.value.submission, sending.value.outcome.ledger))
      else if s.event.LandedLate? && s.event.pool == pool && s.event.place < |Limbo(s.past, pool)|
      then Some(Landing(Limbo(s.past, pool)[s.event.place], s.event.at))
      else None
  }

  /** The moment at which the chain applied an unwind. */
  predicate AppliesUnwind(s: Run, pool: Pool) {
    Applied(s, pool).Some? && Applied(s, pool).value.submission.OfUnwind?
  }

  function UnwindApplied(s: Run, pool: Pool): Submission
    requires AppliesUnwind(s, pool)
  {
    Applied(s, pool).value.submission
  }

  /** The filler's primary collateral in b-tokens, and their rate, at every moment. */
  datatype Chain = Chain(level: Run -> nat, rate: Run -> int)

  /** The contract moves the primary by an unwind as it moves it by any withdrawal, at its own rate. */
  ghost predicate UnwindsMoveIt(pool: PoolConfig, chain: Chain, s: Run) {
    AppliesUnwind(s, pool.address) ==>
      && chain.rate(s) > 0
      && chain.level(s) == AfterUnwind(UnwindApplied(s, pool.address).plan.actions, pool.primary,
                                       chain.level(s.past), chain.rate(s))
  }

  /** Nothing but the filler's own submissions moves its primary collateral. */
  ghost predicate MovesOnlyByLandings(pool: PoolConfig, chain: Chain, r: Run) {
    forall s :: Moment(s, r) && s.Then? ==>
      && (Applied(s, pool.address).None? ==> chain.level(s) == chain.level(s.past))
      && UnwindsMoveIt(pool, chain, s)
  }

  /** Successive submissions of the pool land in ledgers that never decrease. */
  ghost predicate LedgersRise(pool: Pool, r: Run) {
    forall s, t :: Moment(s, r) && Moment(t, s) && Applied(s, pool).Some? && Applied(t, pool).Some?
      ==> Applied(t, pool).value.at <= Applied(s, pool).value.at
  }

  /** The moment a snapshot shows: one no later than its reading, past every landing up to its ledger. */
  ghost predicate Shows(pool: Pool, chain: Chain, s: Run, snapshot: Snapshot, t: Run) {
    && Moment(t, s) && chain.level(t) == snapshot.primary
    && forall u :: Moment(u, s) && Applied(u, pool).Some? && Applied(u, pool).value.at <= snapshot.ledger
         ==> Moment(u, t)
  }

  /** A snapshot may lag, but shows what the primary was at some moment of the run past all its ledger holds. */
  ghost predicate SnapshotsAreTrue(pool: Pool, chain: Chain, r: Run) {
    forall s :: Moment(s, r) && s.Then? && s.event.SnapshotRead? && s.event.pool == pool && s.event.read.Some? ==>
      exists t :: Shows(pool, chain, s.past, s.event.read.value, t)
  }

  ghost predicate Honest(pool: PoolConfig, chain: Chain, r: Run) {
    && MovesOnlyByLandings(pool, chain, r)
    && LedgersRise(pool.address, r) && SnapshotsAreTrue(pool.address, chain, r)
  }

  lemma HonestPast(pool: PoolConfig, chain: Chain, r: Run)
    requires Honest(pool, chain, r) && r.Then?
    ensures Honest(pool, chain, r.past)
  {
    forall s | Moment(s, r.past) ensures Moment(s, r) {}
  }

  // ----- the newest landing, and what came after a snapshot ---------------

  /** The ledger of the pool's last applied submission. */
  function LastLanding(r: Run, pool: Pool): Option<u32> {
    if r.Start? then None
    else if Applied(r, pool).Some? then Some(Applied(r, pool).value.at)
    else LastLanding(r.past, pool)
  }

  /** With the newest landing known, nothing is open and it is the last applied. */
  lemma {:induction false} KnownMeansSettled(r: Run, pool: Pool)
    ensures Newest(r, pool) != Some(None) ==> Limbo(r, pool) == []
    ensures Newest(r, pool).None? ==> LastLanding(r, pool).None?
    ensures Newest(r, pool).Some? && Newest(r, pool).value.Some? ==> LastLanding(r, pool) == Newest(r, pool).value
  {
    if r.Then? { KnownMeansSettled(r.past, pool); }
  }

  lemma {:induction false} LastLandingIsHighest(r: Run, pool: Pool, u: Run)
    requires LedgersRise(pool, r) && Moment(u, r) && Applied(u, pool).Some?
    ensures LastLanding(r, pool).Some? && Applied(u, pool).value.at <= LastLanding(r, pool).value
  {
    assert Moment(r, r);
    if Applied(r, pool).None? {
      assert LedgersRise(pool, r.past) by {
        forall s | Moment(s, r.past) ensures Moment(s, r) {}
      }
      LastLandingIsHighest(r.past, pool, u);
    }
  }

  /** The level has not moved since a moment that every landing came before. */
  lemma {:induction false} LevelStands(pool: PoolConfig, chain: Chain, r: Run, t: Run)
    requires MovesOnlyByLandings(pool, chain, r) && Moment(t, r)
    requires forall u :: Moment(u, r) && Applied(u, pool.address).Some? ==> Moment(u, t)
    ensures chain.level(t) == chain.level(r)
  {
    if t != r {
      assert Moment(r, r);
      LaterIsNotBefore(r, t);
      assert Applied(r, pool.address).None?;
      forall s | Moment(s, r.past) ensures Moment(s, r) {}
      LevelStands(pool, chain, r.past, t);
    }
  }

  function Length(r: Run): nat { if r.Start? then 0 else 1 + Length(r.past) }

  lemma {:induction false} MomentsAreShorter(s: Run, r: Run)
    requires Moment(s, r)
    ensures Length(s) <= Length(r) && (Length(s) == Length(r) ==> s == r)
  {
    if s != r { MomentsAreShorter(s, r.past); }
  }

  lemma LaterIsNotBefore(r: Run, t: Run)
    requires Moment(t, r) && t != r
    ensures !Moment(r, t)
  {
    if Moment(r, t) {
      MomentsAreShorter(t, r);
      MomentsAreShorter(r, t);
    }
  }

  /** A snapshot past the newest landing shows the level the chain has now. */
  lemma SnapshotIsCurrent(pool: PoolConfig, chain: Chain, r: Run, snapshot: Snapshot)
    requires Honest(pool, chain, r)
    requires exists t :: Shows(pool.address, chain, r, snapshot, t)
    requires Contains(snapshot.ledger, Newest(r, pool.address))
    ensures Limbo(r, pool.address) == []
    ensures snapshot.primary == chain.level(r)
  {
    KnownMeansSettled(r, pool.address);
    var t :| Shows(pool.address, chain, r, snapshot, t);
    forall u | Moment(u, r) && Applied(u, pool.address).Some? ensures Moment(u, t) {
      LastLandingIsHighest(r, pool.address, u);
    }
    LevelStands(pool, chain, r, t);
  }

  // ----- every unwind takes the primary at most once ----------------------

  ghost predicate UniqueAddresses(c: Config) {
    forall p, q :: p in c.pools && q in c.pools && p.address == q.address ==> p == q
  }

  predicate TakesOnce(pool: PoolConfig, actions: seq<UnwindAction>) {
    |PrimaryTakes(actions, pool.primary)| <= 1
  }

  /** What these actions withdraw of the primary is within the excess at the rate they were planned at. */
  ghost predicate Within(pool: PoolConfig, actions: seq<UnwindAction>, held: nat, planned: int) {
    planned > 0 && WithinExcess(actions, pool.primary, held, planned, pool.floor)
  }

  /** What a step does to the pass of one pool, short of opening it: builds its plan, ends it, or leaves it. */
  ghost predicate PassMoves(c: Config, pool: PoolConfig, before: Pass, e: Event, after: Pass) {
    || after.NoPass? || after.pool != pool.address
    || (after == before && !(e.UnwindPlanned? && e.config.address == pool.address))
    || (&& e.UnwindPlanned? && e.config == pool && before == Looking(pool.address, e.snapshot)
        && e.built.Some? && after == Built(pool.address, e.snapshot, e.built.value)
        && Within(pool, e.built.value.actions, e.snapshot.primary, e.rate))
  }

  lemma PassMovesSo(c: Config, pool: PoolConfig, m: Memory, f: Flight, e: Event, n: Memory)
    requires UniqueAddresses(c) && pool in c.pools && Allowed(c, m, f, e) && UnwindSide(c, m, e, n)
    requires e.SnapshotRead? ==> e.pool != pool.address
    ensures PassMoves(c, pool, m.pass, e, n.pass)
  {
  }

  /** So the pass builds, and so is every submission left open. */
  ghost predicate AllTakeOnce(pool: PoolConfig, pass: Pass, limbo: seq<Submission>) {
    && (pass.Built? && pass.pool == pool.address ==> TakesOnce(pool, pass.plan.actions))
    && forall i :: 0 <= i < |limbo| && limbo[i].OfUnwind? ==> TakesOnce(pool, limbo[i].plan.actions)
  }

  lemma ReadingBuildsNothing(c: Config, m: Memory, e: Event, n: Memory)
    requires UnwindSide(c, m, e, n) && e.SnapshotRead?
    ensures !n.pass.Built?
  {
  }

  /** A landing ends the pass. */
  lemma LandingEndsThePass(c: Config, pool: PoolConfig, m: Memory, e: Event, n: Memory)
    requires UnwindSide(c, m, e, n) && LandingOf(e, pool.address).Some?
    ensures n.pass.NoPass?
  {
  }

  /** How a kept run's last event moved the pass. */
  lemma KeptPassMoves(c: Config, pool: PoolConfig, r: Run)
    requires Kept(c, r) && r.Then? && UniqueAddresses(c) && pool in c.pools
    ensures r.event.SnapshotRead? ==> !Now(r).pass.Built?
    ensures !(r.event.SnapshotRead? && r.event.pool == pool.address) ==>
      PassMoves(c, pool, Now(r.past).pass, r.event, Now(r).pass)
    ensures LandingOf(r.event, pool.address).Some? ==> Now(r).pass.NoPass?
  {
    KeptPast(c, r);
    UnwindSideOf(c, Now(r.past), r.event);
    if r.event.SnapshotRead? { ReadingBuildsNothing(c, Now(r.past), r.event, Now(r)); }
    if !(r.event.SnapshotRead? && r.event.pool == pool.address) {
      PassMovesSo(c, pool, Now(r.past), Aloft(r.past), r.event, Now(r));
    }
    if LandingOf(r.event, pool.address).Some? { LandingEndsThePass(c, pool, Now(r.past), r.event, Now(r)); }
  }

  /** An unwind sent is the plan the pass built. */
  lemma SendsWhatThePassBuilt(c: Config, r: Run)
    requires Kept(c, r) && r.Then? && r.event.UnwindEnqueued?
    ensures var pass := Now(r.past).pass; pass.Built? && pass.pool == r.event.pool && pass.plan == r.event.unwind
  {
    KeptPast(c, r);
    KeptIsSound(c, r.past);
  }

  lemma {:induction false} PlansTakeOnce(c: Config, pool: PoolConfig, r: Run)
    requires Kept(c, r) && UniqueAddresses(c) && pool in c.pools
    ensures AllTakeOnce(pool, Now(r).pass, Limbo(r, pool.address))
    ensures AppliesUnwind(r, pool.address) ==> TakesOnce(pool, UnwindApplied(r, pool.address).plan.actions)
  {
    if r.Then? {
      KeptEarlier(c, r);
      PlansTakeOnce(c, pool, r.past);
      KeptPassMoves(c, pool, r);
      if r.event.UnwindEnqueued? { SendsWhatThePassBuilt(c, r); }
    }
  }

  /** A step leaves at least the floor's b-tokens, or all there were. */
  ghost predicate KeepsIt(pool: PoolConfig, chain: Chain, s: Run)
    requires s.Then? && chain.rate(s) > 0
  {
    chain.level(s) >= Min(FloorTokens(pool.floor, chain.rate(s)), chain.level(s.past))
  }

  /**
   When an unwind keeps the floor, whatever the snapshots showed and
   whatever else moved the position: exactly when there is no floor, or
   nothing to take, or the one amount it takes of the primary is within the
   excess of what it finds at the rate it lands at.
   */
  lemma KeepsTheFloorIff(c: Config, pool: PoolConfig, chain: Chain, r: Run, s: Run)
    requires Kept(c, r) && UniqueAddresses(c) && pool in c.pools && Moment(s, r)
    requires AppliesUnwind(s, pool.address) && UnwindsMoveIt(pool, chain, s)
    ensures var takes := PrimaryTakes(UnwindApplied(s, pool.address).plan.actions, pool.primary);
      KeepsIt(pool, chain, s) <==>
        (|| pool.floor <= 0 || chain.level(s.past) == 0 || takes == []
         || takes[0] <= PrimaryExcess(chain.level(s.past), chain.rate(s), pool.floor))
  {
    KeptMoment(c, s, r);
    PlansTakeOnce(c, pool, s);
    var actions := UnwindApplied(s, pool.address).plan.actions;
    UnwindTakesOnce(actions, pool.primary, chain.level(s.past), chain.rate(s));
    var takes := PrimaryTakes(actions, pool.primary);
    if takes != [] { KeepsTheFloorExactly(chain.level(s.past), takes[0], chain.rate(s), pool.floor); }
  }

  // ----- every unwind is within the excess of what it finds ---------------

  /** The pass under way looks at the chain's own level, and what it built is within that level's excess. */
  ghost predicate PassIsCurrent(pool: PoolConfig, pass: Pass, level: nat, planned: int, limbo: seq<Submission>) {
    !pass.NoPass? && pass.pool == pool.address ==>
      && limbo == [] && pass.snapshot.primary == level
      && (pass.Built? ==> Within(pool, pass.plan.actions, level, planned))
  }

  /** Of the submissions still open only the oldest may be an unwind, one within the excess of the level now. */
  ghost predicate LimboIsSafe(pool: PoolConfig, level: nat, limbo: seq<Submission>) {
    && (forall i :: 1 <= i < |limbo| ==> limbo[i].OfFill?)
    && (limbo != [] && limbo[0].OfUnwind? ==> Within(pool, limbo[0].plan.actions, level, limbo[0].rate))
  }

  /** The invariant, and the moment's own conclusion. */
  ghost predicate FloorHolds(pool: PoolConfig, chain: Chain, r: Run) {
    && PassIsCurrent(pool, Now(r).pass, chain.level(r), PlannedRate(r, pool.address), Limbo(r, pool.address))
    && LimboIsSafe(pool, chain.level(r), Limbo(r, pool.address))
  }

  /** What the chain applies at this moment, if it is an unwind, is within the excess of the level before. */
  lemma AppliedIsWithin(c: Config, pool: PoolConfig, chain: Chain, r: Run)
    requires Kept(c, r) && r.Then? && FloorHolds(pool, chain, r.past) && AppliesUnwind(r, pool.address)
    ensures var applied := UnwindApplied(r, pool.address);
      Within(pool, applied.plan.actions, chain.level(r.past), applied.rate)
  {
    if r.event.UnwindEnqueued? { SendsWhatThePassBuilt(c, r); }
  }

  /** A pass opens on a snapshot that shows the level the chain has now. */
  lemma PassOpensCurrent(c: Config, pool: PoolConfig, chain: Chain, r: Run)
    requires Kept(c, r) && r.Then? && r.event.SnapshotRead? && r.event.pool == pool.address
    requires Honest(pool, chain, r)
    ensures PassIsCurrent(pool, Now(r).pass, chain.level(r), PlannedRate(r, pool.address), Limbo(r, pool.address))
  {
    KeptEarlier(c, r);
    assert Moment(r, r);
    HonestPast(pool, chain, r);
    GateFollowsLandings(c, r.past, pool.address);
    ReadsPastTheGate(c, r);
    if !Now(r).pass.NoPass? {
      SnapshotIsCurrent(pool, chain, r.past, r.event.read.value);
    }
  }

  /** A pass that a position's reading opens is of that snapshot, which the gate let through. */
  lemma ReadsPastTheGate(c: Config, r: Run)
    requires Kept(c, r) && r.Then? && r.event.SnapshotRead?
    ensures r.event.pool in Now(r.past).mind.pending
    ensures !Now(r).pass.NoPass? ==>
      && r.event.read.Some? && Now(r).pass == Looking(r.event.pool, r.event.read.value)
      && GatePasses(Now(r.past).mind.after, r.event.pool, r.event.read.value.ledger)
  {
    KeptPast(c, r);
  }

  /** Nothing the pass outlives moves the level. */
  lemma PassStaysCurrent(c: Config, pool: PoolConfig, chain: Chain, r: Run)
    requires r.Then? && PassMoves(c, pool, Now(r.past).pass, r.event, Now(r).pass)
    requires LandingOf(r.event, pool.address).Some? ==> Now(r).pass.NoPass?
    requires MovesOnlyByLandings(pool, chain, r)
    requires PassIsCurrent(pool, Now(r.past).pass, chain.level(r.past), PlannedRate(r.past, pool.address),
                           Limbo(r.past, pool.address))
    ensures PassIsCurrent(pool, Now(r).pass, chain.level(r), PlannedRate(r, pool.address), Limbo(r, pool.address))
  {
    assert Moment(r, r);
  }

  lemma LimboStaysSafe(c: Config, pool: PoolConfig, chain: Chain, r: Run)
    requires Kept(c, r) && r.Then? && MovesOnlyByLandings(pool, chain, r) && FloorHolds(pool, chain, r.past)
    ensures LimboIsSafe(pool, chain.level(r), Limbo(r, pool.address))
  {
    if r.event.UnwindEnqueued? { SendsWhatThePassBuilt(c, r); }
    assert Moment(r, r);
  }

  lemma {:induction false} FloorIsKept(c: Config, pool: PoolConfig, chain: Chain, r: Run)
    requires Kept(c, r) && UniqueAddresses(c) && pool in c.pools && Honest(pool, chain, r)
    ensures FloorHolds(pool, chain, r)
  {
    if r.Then? {
      KeptEarlier(c, r);
      HonestPast(pool, chain, r);
      FloorIsKept(c, pool, chain, r.past);
      if r.event.SnapshotRead? && r.event.pool == pool.address {
        PassOpensCurrent(c, pool, chain, r);
      } else {
        KeptPassMoves(c, pool, r);
        PassStaysCurrent(c, pool, chain, r);
      }
      LimboStaysSafe(c, pool, chain, r);
    }
  }

  /**
   Every unwind the chain applies, whenever it applies it, was planned
   within the excess, at its own planning rate, of the very level it finds.
   No rate of the chain's is assumed anything about.
   */
  lemma EveryUnwindIsWithinItsExcess(c: Config, pool: PoolConfig, chain: Chain, r: Run, s: Run)
    requires Kept(c, r) && UniqueAddresses(c) && pool in c.pools && Honest(pool, chain, s)
    requires Moment(s, r) && AppliesUnwind(s, pool.address)
    ensures var applied := UnwindApplied(s, pool.address);
      Within(pool, applied.plan.actions, chain.level(s.past), applied.rate)
  {
    KeptMoment(c, s, r);
    KeptEarlier(c, s);
    HonestPast(pool, chain, s);
    FloorIsKept(c, pool, chain, s.past);
    AppliedIsWithin(c, pool, chain, s);
  }

  /**
   Floor safety: an unwind planned at a rate no higher than the one it lands
   at leaves at least the floor's b-tokens, or all there were; and so at
   least the floor's worth of the primary asset, or all there was.
   */
  lemma EveryUnwindKeepsTheFloor(c: Config, pool: PoolConfig, chain: Chain, r: Run, s: Run)
    requires Kept(c, r) && UniqueAddresses(c) && pool in c.pools && Honest(pool, chain, s)
    requires Moment(s, r) && AppliesUnwind(s, pool.address)
    requires UnwindApplied(s, pool.address).rate <= chain.rate(s)
    ensures chain.rate(s) > 0
    ensures KeepsIt(pool, chain, s)
    ensures ToAsset(chain.level(s), chain.rate(s))
         >= Min(Max(pool.floor, 0), ToAsset(chain.level(s.past), chain.rate(s)))
  {
    EveryUnwindIsWithinItsExcess(c, pool, chain, r, s);
    assert Moment(s, s);
    var applied, before, rate := UnwindApplied(s, pool.address), chain.level(s.past), chain.rate(s);
    UnwindStopsAtTheFloor(pool, applied.plan.actions, before, applied.rate, rate);
    WorthTheFloor(pool.floor, before, chain.level(s), rate);
  }

  lemma WorthTheFloor(floor: int, before: nat, now: nat, rate: int)
    requires 0 < rate && now >= Min(FloorTokens(floor, rate), before)
    ensures ToAsset(now, rate) >= Min(Max(floor, 0), ToAsset(before, rate))
  {
    FloorTokensAreWorthTheFloor(floor, rate);
    if FloorTokens(floor, rate) <= before {
      ToAssetGrows(FloorTokens(floor, rate), now, rate);
    } else {
      ToAssetGrows(before, now, rate);
    }
  }

  /**
   And one planned at a higher rate falls short of the floor, or of what was
   there, by no more than the projection ran ahead of the chain, and one
   b-token.
   */
  lemma EveryShortfallIsBounded(c: Config, pool: PoolConfig, chain: Chain, r: Run, s: Run)
    requires Kept(c, r) && UniqueAddresses(c) && pool in c.pools && Honest(pool, chain, s)
    requires Moment(s, r) && AppliesUnwind(s, pool.address) && pool.floor > 0
    requires UnwindApplied(s, pool.address).rate >= chain.rate(s)
    ensures var planned, landing := UnwindApplied(s, pool.address).rate, chain.rate(s);
      chain.level(s) * landing > Min(pool.floor * SCALAR_12, chain.level(s.past) * planned)
                               - chain.level(s.past) * (planned - landing) - landing
  {
    EveryUnwindIsWithinItsExcess(c, pool, chain, r, s);
    assert Moment(s, s);
    var applied, before, rate := UnwindApplied(s, pool.address), chain.level(s.past), chain.rate(s);
    UnwindTakesOnce(applied.plan.actions, pool.primary, before, rate);
    var takes := PrimaryTakes(applied.plan.actions, pool.primary);
    ExcessIsSomething(before, applied.rate, pool.floor);
    ShortfallIsBounded(before, if takes == [] then 0 else takes[0], applied.rate, rate, pool.floor);
  }

  /**
   Why the gate is there: the same plan applied a second time, as a pass
   planned against the first one's snapshot would, goes below the floor.
   */
  lemma AStaleSnapshotWouldBreakTheFloor()
    ensures var pool := PoolConfig("", "", 60, [], []); var take := [Withdraw("", 40)];
      && WithinExcess(take, pool.primary, 100, SCALAR_12, pool.floor)
      && AfterUnwind(take, pool.primary, 100, SCALAR_12) == 60 == FloorTokens(pool.floor, SCALAR_12)
      && AfterUnwind(take, pool.primary, 60, SCALAR_12) == 20
  {
    assert [Withdraw("", 40)][1..] == [];
  }
}
