/**
 Runs that happen, event by event as the filler makes them: one in which a
 pass is planned, sent and landed, on a chain as honest as the floor theorem
 asks; two on chains that are not, each leaving less than the floor; and one
 in which two passes are refused at the last two ledgers there are, closer
 than the backoff means.
 */
module Witness {
  import opened Types
  import opened Rates
  import opened Requests
  import opened Machine
  import opened Runs
  import opened Lanes
  import opened Gates
  import opened FloorSafety
  import opened Backoffs

  const POOL := PoolConfig("pool", "primary", 60, [], [])
  const BOT := Config([POOL], false, false, Some("filler"), {}, 10, 2, "native", 0)
  const SEEN := Snapshot(9, {}, false, 100)

  /** A plan that takes `amount` of the primary, and the operation it becomes. */
  function PlanOf(amount: int): UnwindPlan { UnwindPlan([Withdraw("primary", amount)], map[], []) }

  function SentOf(amount: int): Operation {
    Operation("pool", "filler", [Request(WithdrawCollateral, "primary", amount)])
  }

  /** What a run made of these events has to say: where the tick, the pass, the duty and the flight stand. */
  datatype View = View(tick: u32, execute: bool, pass: Pass, duty: Option<Duty>, flight: Flight, covered: set<Asset>,
                       lane: Lane)

  function ViewOf(r: Run): View {
    View(Now(r).tick, Now(r).execute, Now(r).pass, Now(r).duty, Aloft(r), Now(r).mind.covered, LaneOf(Now(r), "pool"))
  }

  /** A kept run that says so, with this episode of setbacks open, and nothing of the pool's landed in it. */
  ghost predicate Stands(r: Run, view: View, episode: seq<u32>) {
    Kept(BOT, r) && ViewOf(r) == view && Episode(r, "pool") == episode && Calm(r)
  }

  /** Nothing of the pool's landed in this run, and every snapshot read was `SEEN`. */
  predicate Calm(r: Run) {
    r.Then? ==>
      SendingOf(r, "pool").None? && !r.event.LandedLate? && (r.event.SnapshotRead? ==> r.event.read == Some(SEEN))
      && Calm(r.past)
  }

  /** A kept run goes on by any event it allows. */
  lemma KeptNext(c: Config, r: Run, e: Event)
    requires Kept(c, r) && Allowed(c, Now(r), Aloft(r), e)
    ensures Kept(c, After(c, r, e))
  {
    var next := After(c, r, e);
    forall s | Moment(s, next) ensures Lawful(c, s) {
      if s != next { assert Moment(s, r) && Lawful(c, s); }
    }
  }

  // ----- one tick, event by event -----------------------------------------

  /** Between ticks or inside one, with nothing owed, in flight or landed. */
  predicate Quiet(view: View) {
    view.duty.None? && view.flight == GROUNDED && view.covered == {} && view.lane.after.None?
  }

  lemma Begins(r: Run, view: View, episode: seq<u32>, sequence: u32) returns (q: Run)
    requires Stands(r, view, episode) && Quiet(view)
    ensures Stands(q, view.(tick := sequence, execute := true, pass := NoPass,
                            lane := view.lane.(seeded := true, pending := view.lane.pending || !view.lane.seeded)),
                   episode)
  {
    assert POOL in BOT.pools && "pool" in BOT.Addresses();
    KeptNext(BOT, r, TickBegan(sequence, true));
    q := After(BOT, r, TickBegan(sequence, true));
  }

  /** The walk over the pool's open auctions, of which there are none. */
  lemma ReadsNoRows(r: Run, view: View, episode: seq<u32>) returns (q: Run)
    requires Stands(r, view, episode) && Quiet(view)
    ensures Stands(q, view, episode)
  {
    KeptNext(BOT, r, RowsRead("pool", []));
    q := After(BOT, r, RowsRead("pool", []));
  }

  lemma BeginsUnwinds(r: Run, view: View, episode: seq<u32>) returns (q: Run)
    requires Stands(r, view, episode) && Quiet(view)
    ensures Stands(q, view, episode)
  {
    KeptNext(BOT, r, UnwindsBegan);
    q := After(BOT, r, UnwindsBegan);
  }

  lemma ReadsPosition(r: Run, view: View, episode: seq<u32>) returns (q: Run)
    requires Stands(r, view, episode) && Quiet(view) && view.lane.pending
    requires view.lane.setback.Some? ==> view.lane.setback.value.retryAt <= view.tick
    ensures Stands(q, view.(pass := Looking("pool", SEEN), duty := Some(PassOwed("pool"))), episode)
  {
    KeptNext(BOT, r, SnapshotRead("pool", Some(SEEN)));
    q := After(BOT, r, SnapshotRead("pool", Some(SEEN)));
  }

  /** The wallet's balances, asked for because they were never read, and unanswered. */
  lemma ReadsNoBalances(r: Run, view: View, episode: seq<u32>) returns (q: Run)
    requires Stands(r, view, episode) && view.covered == {} && view.flight == GROUNDED
    requires view.duty == Some(PassOwed("pool"))
    ensures Stands(q, view, episode)
  {
    KeptNext(BOT, r, BalancesRead({"native"}, None));
    q := After(BOT, r, BalancesRead({"native"}, None));
  }

  lemma PlanIsWithin(rate: int, amount: int)
    requires 0 < rate && amount <= PrimaryExcess(100, rate, 60)
    ensures WithinExcess(PlanOf(amount).actions, POOL.primary, SEEN.primary, rate, POOL.floor)
  {
    assert [Withdraw("primary", amount)][1..] == [];
    assert PrimaryTakes(PlanOf(amount).actions, "primary") == [amount];
  }

  lemma Plans(r: Run, view: View, episode: seq<u32>, rate: int, amount: int) returns (q: Run)
    requires Stands(r, view, episode) && view.execute && view.flight == GROUNDED
    requires view.pass == Looking("pool", SEEN) && view.duty == Some(PassOwed("pool"))
    requires 0 < rate && amount <= PrimaryExcess(100, rate, 60)
    ensures Stands(q, view.(pass := Built("pool", SEEN, PlanOf(amount)),
                            duty := Some(SendOwed("pool", PlanOf(amount)))),
                   episode)
    ensures PlannedRate(q, "pool") == rate
  {
    PlanIsWithin(rate, amount);
    KeptNext(BOT, r, UnwindPlanned(POOL, SEEN, rate, Some(PlanOf(amount))));
    q := After(BOT, r, UnwindPlanned(POOL, SEEN, rate, Some(PlanOf(amount))));
  }

  lemma Claims(r: Run, view: View, episode: seq<u32>, amount: int) returns (q: Run)
    requires Stands(r, view, episode) && view.flight == GROUNDED
    requires view.duty == Some(SendOwed("pool", PlanOf(amount)))
    ensures Stands(q, view.(flight := GROUNDED.(claim := Some(map[]))), episode)
    ensures PlannedRate(q, "pool") == PlannedRate(r, "pool")
  {
    KeptNext(BOT, r, SpendReserved(map[]));
    q := After(BOT, r, SpendReserved(map[]));
  }

  lemma HandsOver(r: Run, view: View, episode: seq<u32>, amount: int) returns (q: Run)
    requires Stands(r, view, episode) && view.flight == GROUNDED.(claim := Some(map[])) && view.execute
    requires view.duty == Some(SendOwed("pool", PlanOf(amount))) && view.pass == Built("pool", SEEN, PlanOf(amount))
    ensures Stands(q, view.(duty := None, flight := Flight(Some(map[]), UnwindLoad("pool", PlanOf(amount)), Idle)),
                   episode)
    ensures PlannedRate(q, "pool") == PlannedRate(r, "pool")
  {
    KeptNext(BOT, r, UnwindHanded("pool", PlanOf(amount)));
    q := After(BOT, r, UnwindHanded("pool", PlanOf(amount)));
  }

  lemma IsJudged(r: Run, view: View, episode: seq<u32>, amount: int, judgment: Judgment) returns (q: Run)
    requires Stands(r, view, episode) && view.duty.None?
    requires view.flight == Flight(Some(map[]), UnwindLoad("pool", PlanOf(amount)), Idle)
    ensures Stands(q, view.(flight := view.flight.(stage := Asked(SentOf(amount), judgment))), episode)
    ensures PlannedRate(q, "pool") == PlannedRate(r, "pool")
  {
    assert UnwindRequestsOf(PlanOf(amount).actions) == SentOf(amount).requests;
    KeptNext(BOT, r, Simulated(SentOf(amount), judgment));
    q := After(BOT, r, Simulated(SentOf(amount), judgment));
  }

  /** A tick from quiet to a plan in the contract's judgment, as the filler makes it: all there is to read is read. */
  lemma TicksToJudgment(r: Run, view: View, episode: seq<u32>, sequence: u32, rate: int, amount: int,
                        judgment: Judgment)
    returns (q: Run)
    requires Stands(r, view, episode) && Quiet(view) && (view.lane.pending || !view.lane.seeded)
    requires view.lane.setback.Some? ==> view.lane.setback.value.retryAt <= sequence
    requires 0 < rate && amount <= PrimaryExcess(100, rate, 60)
    ensures Stands(q, View(sequence, true, Built("pool", SEEN, PlanOf(amount)), None,
                           Flight(Some(map[]), UnwindLoad("pool", PlanOf(amount)), Asked(SentOf(amount), judgment)),
                           {}, view.lane.(seeded := true, pending := true)),
                   episode)
    ensures PlannedRate(q, "pool") == rate
  {
    q := Begins(r, view, episode, sequence);
    q := ReadsNoRows(q, ViewOf(q), episode);
    q := BeginsUnwinds(q, ViewOf(q), episode);
    q := ReadsPosition(q, ViewOf(q), episode);
    q := ReadsNoBalances(q, ViewOf(q), episode);
    q := Plans(q, ViewOf(q), episode, rate, amount);
    q := Claims(q, ViewOf(q), episode, amount);
    q := HandsOver(q, ViewOf(q), episode, amount);
    q := IsJudged(q, ViewOf(q), episode, amount, judgment);
  }

  lemma StartStands()
    ensures Stands(Start, ViewOf(Start), []) && Quiet(ViewOf(Start)) && !ViewOf(Start).lane.seeded
    ensures ViewOf(Start).lane.setback.None?
  {
    assert forall s :: Moment(s, Start) ==> Lawful(BOT, s);
  }

  // ----- one unwind, planned, sent and landed -----------------------------

  /** What the run shows: a plan for `amount`, made at `rate`, that lands in a run with nothing else landed. */
  ghost predicate LandsOnce(r: Run, rate: int, amount: int) {
    && Kept(BOT, r) && r.Then? && Calm(r.past) && !r.event.SnapshotRead?
    && Applied(r, "pool") == Some(Landing(OfUnwind(PlanOf(amount), rate), 11))
  }

  lemma OneLanding(rate: int, amount: int) returns (r: Run)
    requires 0 < rate && amount <= PrimaryExcess(100, rate, 60)
    ensures LandsOnce(r, rate, amount)
  {
    StartStands();
    r := TicksToJudgment(Start, ViewOf(Start), [], 10, rate, amount, Accepts);
    r := Lands(r, ViewOf(r), [], rate, amount);
  }

  lemma Lands(r: Run, view: View, episode: seq<u32>, rate: int, amount: int) returns (q: Run)
    requires Stands(r, view, episode) && view.duty.None? && PlannedRate(r, "pool") == rate
    requires view.flight ==
      Flight(Some(map[]), UnwindLoad("pool", PlanOf(amount)), Asked(SentOf(amount), Accepts))
    ensures LandsOnce(q, rate, amount)
  {
    var sent := UnwindEnqueued("pool", PlanOf(amount), SentOf(amount), map[], Outcome(Succeeded(1, 11)));
    KeptNext(BOT, r, sent);
    q := After(BOT, r, sent);
  }

  /** A chain that moves from one level to another as the unwind lands, at the rate of one. */
  ghost function ChainOf(before: nat, after: nat): Chain {
    Chain(s => if Applied(s, "pool").Some? then after else before, s => SCALAR_12)
  }

  lemma {:induction false} CalmMoments(r: Run, s: Run)
    requires Calm(r) && Moment(s, r)
    ensures Calm(s) && Applied(s, "pool").None?
    ensures s.Then? ==> Moment(s.past, r)
  {
    if s != r { CalmMoments(r.past, s); }
  }

  lemma WhatItLeaves(amount: int, before: nat)
    ensures AfterUnwind(PlanOf(amount).actions, "primary", before, SCALAR_12)
         == AfterWithdrawal(before, amount, SCALAR_12)
  {
    assert [Withdraw("primary", amount)][1..] == [];
    assert PrimaryTakes(PlanOf(amount).actions, "primary") == [amount];
    UnwindTakesOnce(PlanOf(amount).actions, "primary", before, SCALAR_12);
  }

  /** One landing after a calm run moves the chain as the contract does, and the landings' ledgers rise. */
  lemma ChainMoves(r: Run, rate: int, amount: int, before: nat)
    requires LandsOnce(r, rate, amount)
    ensures var chain := ChainOf(before, AfterWithdrawal(before, amount, SCALAR_12));
      MovesOnlyByLandings(POOL, chain, r) && LedgersRise("pool", r)
  {
    WhatItLeaves(amount, before);
    assert Moment(r.past, r.past);
    CalmMoments(r.past, r.past);
    forall s | Moment(s, r) && s != r
      ensures Applied(s, "pool").None? && (s.Then? ==> Applied(s.past, "pool").None?)
    {
      CalmMoments(r.past, s);
      if s.Then? { CalmMoments(r.past, s.past); }
    }
  }

  /** Every snapshot of such a run is true of a chain that held what it shows. */
  lemma SnapshotsShowIt(r: Run, rate: int, amount: int, after: nat)
    requires LandsOnce(r, rate, amount)
    ensures SnapshotsAreTrue("pool", ChainOf(100, after), r)
  {
    forall s | Moment(s, r) && s.Then? && s.event.SnapshotRead? && s.event.pool == "pool" && s.event.read.Some?
      ensures exists t :: Shows("pool", ChainOf(100, after), s.past, s.event.read.value, t)
    {
      CalmMoments(r.past, s);
      CalmMoments(r.past, s.past);
      forall u | Moment(u, s.past) ensures Applied(u, "pool").None? {
        CalmMoments(s.past, u);
      }
      assert Shows("pool", ChainOf(100, after), s.past, SEEN, s.past);
    }
  }

  /** The unwind of `r` lands at the chain's rate of one, finding `before` and leaving `after`. */
  ghost predicate Finds(r: Run, chain: Chain, before: nat, after: nat) {
    && r.Then? && chain.rate(r) == SCALAR_12 && chain.level(r.past) == before && chain.level(r) == after
    && AppliesUnwind(r, "pool") && UnwindsMoveIt(POOL, chain, r)
  }

  lemma ItFinds(r: Run, rate: int, amount: int, before: nat)
    requires LandsOnce(r, rate, amount)
    ensures var after := AfterWithdrawal(before, amount, SCALAR_12); Finds(r, ChainOf(before, after), before, after)
  {
    ChainMoves(r, rate, amount, before);
    CalmMoments(r.past, r.past);
    assert Moment(r, r);
  }

  /** A kept run over an honest chain in which an unwind lands, down to exactly the floor. */
  lemma AnUnwindLandsOnTheFloor() returns (r: Run, chain: Chain)
    ensures Kept(BOT, r) && UniqueAddresses(BOT) && POOL in BOT.pools && Honest(POOL, chain, r)
    ensures Finds(r, chain, 100, 60) && KeepsIt(POOL, chain, r)
    ensures UnwindApplied(r, "pool").rate == chain.rate(r)
    ensures FloorTokens(POOL.floor, chain.rate(r)) == 60
  {
    r := OneLanding(SCALAR_12, 40);
    chain := ChainOf(100, 60);
    assert AfterWithdrawal(100, 40, SCALAR_12) == 60;
    ChainMoves(r, SCALAR_12, 40, 100);
    SnapshotsShowIt(r, SCALAR_12, 40, 60);
    ItFinds(r, SCALAR_12, 40, 100);
  }

  /**
   The floor's first assumption is needed: over a chain honest in all else,
   an unwind planned at half as much again as the rate it lands at leaves
   ten of the sixty.
   */
  lemma AnUnwindPlannedAheadBreaksTheFloor() returns (r: Run, chain: Chain)
    ensures Kept(BOT, r) && UniqueAddresses(BOT) && POOL in BOT.pools && Honest(POOL, chain, r)
    ensures Finds(r, chain, 100, 10) && !KeepsIt(POOL, chain, r)
    ensures UnwindApplied(r, "pool").rate > chain.rate(r)
  {
    var ahead := 1_500_000_000_000;
    r := OneLanding(ahead, 90);
    chain := ChainOf(100, 10);
    assert AfterWithdrawal(100, 90, SCALAR_12) == 10;
    ChainMoves(r, ahead, 90, 100);
    SnapshotsShowIt(r, ahead, 90, 10);
    ItFinds(r, ahead, 90, 100);
  }

  /**
   And so is the second: when an earlier run's unwind landed past the ledger
   a lagging node still serves, nothing in this run holds its snapshot back.
   The chain begins at sixty, the snapshot shows the hundred there were
   before, and an unwind planned at the very rate it lands at leaves twenty.
   */
  lemma ASnapshotFromBeforeBreaksTheFloor() returns (r: Run, chain: Chain)
    ensures Kept(BOT, r) && UniqueAddresses(BOT) && POOL in BOT.pools
    ensures MovesOnlyByLandings(POOL, chain, r) && LedgersRise("pool", r)
    ensures Finds(r, chain, 60, 20) && !KeepsIt(POOL, chain, r)
    ensures UnwindApplied(r, "pool").rate == chain.rate(r)
  {
    r := OneLanding(SCALAR_12, 40);
    chain := ChainOf(60, 20);
    assert AfterWithdrawal(60, 40, SCALAR_12) == 20;
    ChainMoves(r, SCALAR_12, 40, 60);
    ItFinds(r, SCALAR_12, 40, 60);
  }

  // ----- the backoff at the last ledger -----------------------------------

  lemma IsRefused(r: Run, view: View, episode: seq<u32>, amount: int) returns (q: Run)
    requires Stands(r, view, episode) && view.duty.None? && view.lane.after.None? && view.covered == {}
    requires view.lane.setback.Some? ==> view.lane.setback.value.count < 2
    requires view.flight ==
      Flight(Some(map[]), UnwindLoad("pool", PlanOf(amount)), Asked(SentOf(amount), Refuses(None)))
    ensures var run := if view.lane.setback.Some? then view.lane.setback.value else NO_SETBACK;
      Stands(q, view.(pass := NoPass, flight := GROUNDED,
                      lane := view.lane.(setback := Some(NextSetback(run, view.tick)))),
             episode + [view.tick])
  {
    KeptNext(BOT, r, UnwindReturned("pool", UnwindRefused(None)));
    q := After(BOT, r, UnwindReturned("pool", UnwindRefused(None)));
  }

  lemma FirstSetbackNearTheEnd()
    ensures NextSetback(NO_SETBACK, U32_MAX - 1) == Setback(1, U32_MAX) && Holds(1) == 2
  {
    assert Pow2(1) == 2 * Pow2(0);
  }

  /** A tick whose plan the contract refuses. */
  lemma TicksToRefusal(r: Run, view: View, episode: seq<u32>, sequence: u32) returns (q: Run)
    requires Stands(r, view, episode) && Quiet(view) && (view.lane.pending || !view.lane.seeded)
    requires view.lane.setback.Some? ==>
      view.lane.setback.value.retryAt <= sequence && view.lane.setback.value.count < 2
    ensures var run := if view.lane.setback.Some? then view.lane.setback.value else NO_SETBACK;
      Stands(q, View(sequence, true, NoPass, None, GROUNDED, {},
                     view.lane.(seeded := true, pending := true, setback := Some(NextSetback(run, sequence)))),
             episode + [sequence])
  {
    q := TicksToJudgment(r, view, episode, sequence, SCALAR_12, 40, Refuses(None));
    q := IsRefused(q, ViewOf(q), episode, 40);
  }

  /** A run whose second setback comes one ledger after its first, where two are owed: the last ledger there is. */
  lemma TheBackoffBoundFails() returns (r: Run)
    ensures Kept(BOT, r) && Episode(r, "pool") == [U32_MAX - 1, U32_MAX]
    ensures Episode(r, "pool")[1] < Episode(r, "pool")[0] + Holds(1)
  {
    StartStands();
    FirstSetbackNearTheEnd();
    r := TicksToRefusal(Start, ViewOf(Start), [], U32_MAX - 1);
    r := TicksToRefusal(r, ViewOf(r), [U32_MAX - 1], U32_MAX);
  }
}
