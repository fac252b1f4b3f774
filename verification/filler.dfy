/**
 The filler's tick: the fill walk over every pool's open auctions and, after
 it, one unwind pass per pending pool. `FillerState` is what the filler
 remembers between ticks; after every tick that did not lose the store it is
 exactly what the run remembers.
 */
module Filling {
  import opened Types
  import opened Machine
  import opened Environment
  import opened Inventories
  import opened Execution

  const WHOLE_AUCTION: Percent := 100

  class FillerState {
    var lastPlanned: map<(Pool, Account), u32>
    var recordedDryRun: set<Version>
    var countedSkips: set<SkipKey>
    var inventoryStale: bool
    var knownAssets: set<Asset>
    var coveredAssets: set<Asset>
    var unwindPending: set<Pool>
    var unwindSeeded: bool
    var leftoversNotified: set<Pool>
    var unwindSetbacks: map<Pool, Setback>
    var unwindAfter: map<Pool, Option<u32>>

    constructor ()
      ensures Agrees(FRESH)
    {
      lastPlanned, recordedDryRun, countedSkips := map[], {}, {};
      inventoryStale, knownAssets, coveredAssets := false, {}, {};
      unwindPending, unwindSeeded, leftoversNotified := {}, false, {};
      unwindSetbacks, unwindAfter := map[], map[];
    }

    ghost function Held(): Mind
      reads this
    {
      Mind(lastPlanned, recordedDryRun, countedSkips, inventoryStale, coveredAssets, unwindSeeded,
           unwindPending, leftoversNotified, unwindSetbacks, unwindAfter)
    }

    /** Whether this is exactly what a run that remembers `m` left behind. */
    ghost predicate Agrees(m: Memory)
      reads this
    {
      Held() == m.mind && coveredAssets <= knownAssets
    }

    method Forget(pool: Pool, account: Account)
      modifies `lastPlanned
      ensures lastPlanned == old(lastPlanned) - {(pool, account)}
    {
      lastPlanned := lastPlanned - {(pool, account)};
    }

    method Closed(pool: Pool, account: Account)
      modifies `lastPlanned, `recordedDryRun
      ensures lastPlanned == old(lastPlanned) - {(pool, account)}
      ensures recordedDryRun == WithoutAccount(old(recordedDryRun), pool, account)
    {
      Forget(pool, account);
      recordedDryRun := set v | v in recordedDryRun && (v.pool != pool || v.account != account);
    }

    /** Drops what `rows`, the pool's open auctions, no longer name. */
    method PruneRecorded(pool: Pool, rows: seq<Row>)
      modifies `recordedDryRun, `countedSkips
      ensures recordedDryRun == OpenVersions(old(recordedDryRun), pool, rows)
      ensures countedSkips == OpenKeys(old(countedSkips), pool, rows)
    {
      var open: map<Account, u32> := map[];
      for i := 0 to |rows|
        invariant open == OpenStarts(rows[..i])
      {
        assert rows[..i + 1][..i] == rows[..i];
        if rows[i].userLiquidation {
          open := open[rows[i].account := rows[i].start];
        }
      }
      assert rows[..|rows|] == rows;
      recordedDryRun := set v | v in recordedDryRun && StillOpen(open, pool, v.pool, v.account, v.start);
      countedSkips := set k | k in countedSkips && StillOpen(open, pool, k.pool, k.account, k.start);
    }
  }

  /** What one tick carries across the pools it walks. */
  class TickPass {
    const tick: u32
    const state: FillerState
    var summary: Summary

    constructor (tick: u32, state: FillerState)
      ensures this.tick == tick && this.state == state && summary == NOTHING
    {
      this.tick, this.state, summary := tick, state, NOTHING;
    }
  }

  /** What a fill's call left, read off the answer alone: every answer but a lost store says it. */
  function FillNet(m: Memory, pool: Pool, version: Version, spend: Amounts, answer: FillAnswer): Memory {
    if !answer.Recorded? then m
    else
      var m := Audited(m, answer.dryRun, version);
      if answer.submission.Some? && MayHaveLanded(answer.submission.value)
      then FillLanded(m, pool, spend, answer.submission.value) else m
  }

  function UnwindNet(m: Memory, pool: Pool, spend: Amounts, answer: UnwindAnswer): Memory {
    if answer.Submitted? && MayHaveLanded(answer.outcome) then Landed(m, pool, spend, answer.outcome) else m
  }

  lemma FillAnswerTells(c: Config, live: bool, armed: bool, talk: Talk, m: Memory, plan: FillPlan, version: Version,
                        spend: Amounts)
    requires FillTalk(c, live, armed, talk)
    requires FillAnswerOf(c, live, armed, talk) != FillFailed(StoreError)
    ensures FillEffect(c, m, plan, version, spend, talk)
         == FillNet(m, plan.pool, version, spend, FillAnswerOf(c, live, armed, talk))
  {
  }

  lemma UnwindAnswerTells(c: Config, live: bool, armed: bool, plan: UnwindPlan, talk: Talk, m: Memory, pool: Pool,
                          spend: Amounts)
    requires UnwindTalk(c, live, armed, plan, talk)
    ensures UnwindEffect(m, pool, spend, talk)
         == UnwindNet(m, pool, spend, UnwindAnswerOf(c, live, armed, plan, talk))
    ensures UnwindAnswerOf(c, live, armed, plan, talk) != UnwindFailed(StoreError)
  {
  }

  /** The walk went on: the same pool and tick, and no other account's tries. */
  predicate WalksOn(before: Memory, after: Memory, account: Account) {
    && before.walk.Walk? && after.walk.Walk? && after.walk.pool == before.walk.pool
    && after.tick == before.tick && after.execute == before.execute
    && (after.walk.tries == before.walk.tries
        || after.walk.tries == before.walk.tries[account := after.Tries(account)])
    && (after.tally == before.tally
        || after.tally == Planning(before.tally, account))
    && before.mind.recorded <= after.mind.recorded
  }

  /** A pool that is ready after a pass of another was ready before it. */
  ghost predicate OthersAsReady(before: Memory, after: Memory, pool: Pool) {
    forall other :: other != pool && Ready(after, other) ==> Ready(before, other)
  }

  /** What one pool's pass leaves of the tick. */
  ghost predicate PassGoesOn(before: Memory, after: Memory, pool: Pool) {
    SameTick(before, after) && after.tally == before.tally && OthersAsReady(before, after, pool)
  }

  function Planning(tally: Tally, account: Account): Tally { tally.(planned := tally.planned + {account}) }

  function Seeing(tally: Tally, account: Account, entry: EntryAnswer): Tally {
    tally.(seen := tally.seen[account := entry])
  }

  /** Only the rows walked, the entries seen and the accounts planned moved. */
  predicate SameTally(before: Tally, after: Tally) {
    after == before.(seen := after.seen, planned := after.planned)
  }

  /** Only the draft under consideration changed. */
  predicate SameWalk(before: Memory, after: Memory) {
    && before.walk.Walk? && after.walk.Walk?
    && after.walk.(draft := None) == before.walk.(draft := None)
    && after.tick == before.tick && after.execute == before.execute
    && after.mind.recorded == before.mind.recorded
  }

  /** What one call to the executor leaves when it handed `row`'s draft over at `m`. */
  function AfterCall(m: Memory, row: Row, auction: Auction, spend: Amounts, answer: FillAnswer): Memory {
    FillDone(FillNet(Handed(m, row), row.pool, VersionOfEntry(row, auction), spend, answer), row.account, answer)
  }

  /** The walk's side of an outcome: one more try for this account, and its fate. */
  predicate Tried(before: Memory, after: Memory, row: Row, landed: bool) {
    && before.walk.Walk? && after.walk.Walk? && after.walk.pool == before.walk.pool
    && after.walk.landed == landed && after.walk.draft == before.walk.draft
    && after.walk.tries == before.walk.tries[row.account := before.Tries(row.account) + 1]
    && after.tick == before.tick && after.execute == before.execute && after.tally == before.tally
  }

  predicate MayHaveFilled(answer: FillAnswer) {
    answer.Recorded? && answer.submission.Some? && MayHaveLanded(answer.submission.value)
  }

  /** What a recorded fill means for the filler's own memory. */
  function MindAfterFill(mind: Mind, row: Row, auction: Auction, recorded: FillAnswer): Mind
    requires recorded.Recorded?
  {
    var mind := if recorded.dryRun then mind.(recorded := mind.recorded + {VersionOfEntry(row, auction)}) else mind;
    if !MayHaveFilled(recorded) then mind
    else
      mind.(stale := true,
            pending := mind.pending + {row.pool},
            after := mind.after[row.pool := LandingLedger(recorded.submission.value)],
            setbacks := mind.setbacks - {row.pool})
  }

  function TellingOf(pool: Pool, submission: Option<TxOutcome>): Option<Duty> {
    if submission.None? then None
    else if submission.value.Succeeded? then Some(Tell(FillConfirmed, pool))
    else if submission.value.Failed? then Some(Tell(FillNotLanded, pool))
    else None
  }

  /** A draft given up on before it reached the executor moves neither the walk nor its tally. */
  lemma GivingUpWalksOn(m: Memory, row: Row, reason: SkipLabel)
    requires m.walk.Walk?
    ensures WalksOn(m, GivenUp(m, row, reason), row.account) && GivenUp(m, row, reason).walk == m.walk
  {
  }

  /** A plan considered and not drafted, or drafted and its writing answered, moves only its draft. */
  lemma UndraftedWalksOn(m: Memory, row: Row, auction: Auction, planned: PlannedFill)
    requires m.walk.Walk? && !planned.Drafted?
    ensures var n := Considered(m, row, auction, planned).(duty := None);
      SameWalk(m, n) && n.tally == Planning(m.tally, row.account)
  {
  }

  lemma DraftedWalksOn(m: Memory, row: Row, auction: Auction, draft: FillDraft, written: bool)
    requires m.walk.Walk?
    ensures var n := PlanKept(Considered(m, row, auction, Drafted(draft)), row, written);
      && SameWalk(m, n) && n.tally == Planning(m.tally, row.account)
      && n.duty == (if written && n.execute && LandsBy(draft.fillLedger, n.tick)
                    then Some(ExecuteOwed(row, draft)) else None)
      && (written ==> n.walk.draft == Some(Draft(row, auction, draft, true)))
  {
  }

  /** What a call leaves that found its plan stale: one more try, the plan's date forgotten, its clearing owed. */
  predicate LeftStale(before: Memory, after: Memory, row: Row) {
    && Tried(before, after, row, false)
    && after.mind == before.mind.(lastPlanned := before.mind.lastPlanned - {(row.pool, row.account)})
    && after.skipTotals == before.skipTotals
    && after.summary == before.summary.(skipped := before.summary.skipped + 1)
    && after.duty == Some(Clear(row.pool, row.account))
  }

  /** One that recorded a fill: what its outcome means, and the telling it owes. */
  predicate LeftRecorded(before: Memory, after: Memory, row: Row, auction: Auction, recorded: FillAnswer)
    requires recorded.Recorded?
  {
    && Tried(before, after, row, MayHaveFilled(recorded))
    && after.mind == MindAfterFill(before.mind, row, auction, recorded)
    && after.skipTotals == before.skipTotals
    && after.summary == before.summary.(executed := before.summary.executed + 1)
    && after.duty == TellingOf(row.pool, recorded.submission)
  }

  /** One refused for its health the first time: the re-plan owed, at half the percent refused. */
  predicate LeftToReplan(before: Memory, after: Memory, row: Row)
    requires before.walk.Walk? && before.walk.draft.Some?
  {
    var refused := before.walk.draft.value;
    && Tried(before, after, row, false)
    && after.mind == before.mind && after.skipTotals == before.skipTotals && after.summary == before.summary
    && after.duty == Some(ReplanOwed(row, refused.auction, HalfPercent(refused.draft.percent)))
    && row.account in after.walk.refused && after.walk.refused[row.account] == refused.draft.percent
  }

  /** One refused for good: a skip, counted once. */
  predicate LeftRefused(before: Memory, after: Memory, row: Row, auction: Auction) {
    var key := SkipKey(row.pool, row.account, auction.block, LabelContractError);
    && Tried(before, after, row, false)
    && after.mind == before.mind.(counted := before.mind.counted + {key})
    && after.skipTotals ==
         (if key in before.mind.counted then before.skipTotals else before.skipTotals + multiset{LabelContractError})
    && after.summary == before.summary.(skipped := before.summary.skipped + 1)
    && after.duty.None?
  }

  /** One that failed for this auction alone: told of when the queue's chain dropped it. */
  predicate LeftFailed(before: Memory, after: Memory, row: Row, error: ExecError) {
    && Tried(before, after, row, before.walk.Walk? && before.walk.landed)
    && after.mind == before.mind && after.skipTotals == before.skipTotals && after.summary == before.summary
    && after.duty == if error.QueueChain? then Some(Tell(FillDropped, row.pool)) else None
  }

  /** The draft in the walk is this row's, of this auction's entry, and nothing in the walk has landed. */
  predicate DraftOf(m: Memory, row: Row, auction: Auction) {
    m.walk.Walk? && !m.walk.landed && m.walk.draft.Some?
    && m.walk.draft.value.row == row && m.walk.draft.value.auction == auction
  }

  lemma OutcomeOfStale(before: Memory, row: Row, auction: Auction, spend: Amounts)
    requires DraftOf(before, row, auction)
    ensures LeftStale(before, AfterCall(before, row, auction, spend, StalePlan), row)
  {
  }

  lemma NetOfRecorded(before: Memory, row: Row, auction: Auction, spend: Amounts, answer: FillAnswer)
    requires DraftOf(before, row, auction) && answer.Recorded?
    ensures var net := FillNet(Handed(before, row), row.pool, VersionOfEntry(row, auction), spend, answer);
      && Tried(before, net, row, MayHaveFilled(answer))
      && net.mind == MindAfterFill(before.mind, row, auction, answer)
      && net.skipTotals == before.skipTotals && net.summary == before.summary
  {
  }

  lemma OutcomeOfRecorded(before: Memory, row: Row, auction: Auction, spend: Amounts, answer: FillAnswer)
    requires DraftOf(before, row, auction) && answer.Recorded?
    ensures LeftRecorded(before, AfterCall(before, row, auction, spend, answer), row, auction, answer)
  {
    NetOfRecorded(before, row, auction, spend, answer);
  }

  lemma OutcomeOfReplan(before: Memory, row: Row, auction: Auction, spend: Amounts, answer: FillAnswer)
    requires DraftOf(before, row, auction) && before.Tries(row.account) == 0 && answer.Replan?
    ensures LeftToReplan(before, AfterCall(before, row, auction, spend, answer), row)
  {
  }

  lemma OutcomeOfRefused(before: Memory, row: Row, auction: Auction, spend: Amounts, answer: FillAnswer)
    requires DraftOf(before, row, auction)
    requires answer.Refused? || (answer.Replan? && before.Tries(row.account) > 0)
    ensures LeftRefused(before, AfterCall(before, row, auction, spend, answer), row, auction)
  {
    var handed := Handed(before, row);
    assert AfterCall(before, row, auction, spend, answer) == FillDone(handed, row.account, answer);
    if answer.Replan? {
      assert handed.Tries(row.account) == before.Tries(row.account) + 1;
    }
  }

  lemma OutcomeOfFailed(before: Memory, row: Row, auction: Auction, spend: Amounts, error: ExecError)
    requires DraftOf(before, row, auction) && before.duty.Some?
    ensures LeftFailed(before, AfterCall(before, row, auction, spend, FillFailed(error)), row, error)
  {
  }

  /**
   What one call to the executor left, whatever it answered: every answer
   but a lost store leaves one of these.
   */
  ghost predicate Left(before: Memory, after: Memory, row: Row, auction: Auction, answer: FillAnswer)
    requires before.walk.Walk? && before.walk.draft.Some?
  {
    match answer
    case Recorded(_, _, _, _) => LeftRecorded(before, after, row, auction, answer)
    case Replan(_) =>
      if before.Tries(row.account) == 0 then LeftToReplan(before, after, row)
      else LeftRefused(before, after, row, auction)
    case Refused(_) => LeftRefused(before, after, row, auction)
    case StalePlan => LeftStale(before, after, row)
    case FillFailed(error) => LeftFailed(before, after, row, error)
  }

  lemma OutcomeOf(before: Memory, row: Row, auction: Auction, spend: Amounts, answer: FillAnswer)
    requires DraftOf(before, row, auction) && before.duty.Some?
    ensures Left(before, AfterCall(before, row, auction, spend, answer), row, auction, answer)
  {
    match answer
    case Recorded(_, _, _, _) => OutcomeOfRecorded(before, row, auction, spend, answer);
    case Replan(_) =>
      if before.Tries(row.account) == 0 { OutcomeOfReplan(before, row, auction, spend, answer); }
      else { OutcomeOfRefused(before, row, auction, spend, answer); }
    case Refused(_) => OutcomeOfRefused(before, row, auction, spend, answer);
    case StalePlan => OutcomeOfStale(before, row, auction, spend);
    case FillFailed(error) => OutcomeOfFailed(before, row, auction, spend, error);
  }

  /** And of the wallet: what it claimed is spent exactly when the fill landed or may have. */
  function WalletLeft(before: Memory, spend: Amounts, answer: FillAnswer): Amounts {
    if MayHaveFilled(answer) then Spent(before.wallet, spend) else before.wallet
  }

  lemma DonePaysNothing(m: Memory, account: Account, answer: FillAnswer)
    ensures FillDone(m, account, answer).wallet == m.wallet
  {
  }

  lemma FillingPays(c: Config, live: bool, armed: bool, talk: Talk, m: Memory, plan: FillPlan, version: Version,
                    spend: Amounts)
    requires FillTalk(c, live, armed, talk) && FillAnswerOf(c, live, armed, talk) != FillFailed(StoreError)
    ensures FillEffect(c, m, plan, version, spend, talk).wallet ==
      WalletLeft(m, spend, FillAnswerOf(c, live, armed, talk))
    ensures Spends(talk) <==> MayHaveFilled(FillAnswerOf(c, live, armed, talk))
  {
  }

  /** What the executor's call leaves, read off its answer alone. */
  lemma CallLeaves(c: Config, live: bool, armed: bool, talk: Talk, m: Memory, row: Row, auction: Auction,
                   plan: FillPlan, spend: Amounts)
    requires DraftOf(m, row, auction) && m.duty.Some?
    requires FillTalk(c, live, armed, talk) && plan.pool == row.pool && plan.user == row.account
    requires FillAnswerOf(c, live, armed, talk) != FillFailed(StoreError)
    ensures var answer := FillAnswerOf(c, live, armed, talk);
      var effect := FillEffect(c, Handed(m, row), plan, VersionOfEntry(row, auction), spend, talk);
      var left := FillDone(effect, plan.user, answer);
      && Left(m, left, row, auction, answer) && left.wallet == WalletLeft(m, spend, answer)
      && (Spends(talk) <==> MayHaveFilled(answer))
  {
    var answer, version := FillAnswerOf(c, live, armed, talk), VersionOfEntry(row, auction);
    FillAnswerTells(c, live, armed, talk, Handed(m, row), plan, version, spend);
    FillingPays(c, live, armed, talk, Handed(m, row), plan, version, spend);
    DonePaysNothing(FillEffect(c, Handed(m, row), plan, version, spend, talk), plan.user, answer);
    OutcomeOf(m, row, auction, spend, answer);
  }

  function AddressesOf(pools: seq<PoolConfig>): seq<Pool> {
    seq(|pools|, i requires 0 <= i < |pools| => pools[i].address)
  }

  /** Some of `all`, each at its own place, in order. */
  predicate Selects(all: seq<Pool>, some: seq<Pool>)
    decreases |all|
  {
    if all == [] then some == []
    else
      var rest, last := all[..|all| - 1], all[|all| - 1];
      Selects(rest, some) || (some != [] && some[|some| - 1] == last && Selects(rest, some[..|some| - 1]))
  }

  lemma {:induction false} SelectsAmongMore(all: seq<Pool>, i: nat, some: seq<Pool>)
    requires i <= |all| && Selects(all[..i], some)
    ensures Selects(all, some)
    decreases |all| - i
  {
    if i < |all| {
      SelectsOneMore(all, i, some);
      SelectsAmongMore(all, i + 1, some);
    } else {
      assert all[..i] == all;
    }
  }

  lemma SelectsOneMore(all: seq<Pool>, i: nat, some: seq<Pool>)
    requires i < |all| && Selects(all[..i], some)
    ensures Selects(all[..i + 1], some) && Selects(all[..i + 1], some + [all[i]])
  {
    assert all[..i + 1][..i] == all[..i];
    assert (some + [all[i]])[..|some|] == some;
  }

  /** Of the first `n` pools, every one still pending and not held back was looked at this tick. */
  ghost predicate ReadyIsLooked(pools: seq<Pool>, m: Memory) {
    forall pool :: pool in pools && Ready(m, pool) ==> pool in m.tally.looked
  }

  /** The passes so far: the first pools' in order, and none that is ready among them left out. */
  ghost predicate PassesDone(all: seq<Pool>, n: nat, m: Memory)
    requires n <= |all|
  {
    Selects(all[..n], m.tally.looked) && ReadyIsLooked(all[..n], m)
  }

  lemma PassesOneMore(all: seq<Pool>, i: nat, before: Memory, after: Memory)
    requires i < |all| && PassesDone(all, i, before) && OthersAsReady(before, after, all[i])
    requires after.tally.looked == if Ready(before, all[i]) then before.tally.looked + [all[i]] else before.tally.looked
    requires Ready(after, all[i]) ==> all[i] in after.tally.looked
    ensures PassesDone(all, i + 1, after)
  {
    SelectsOneMore(all, i, before.tally.looked);
    assert all[..i + 1] == all[..i] + [all[i]];
  }

  predicate DistinctAccounts(rows: seq<Row>) {
    forall i, j :: 0 <= i < j < |rows| ==> rows[i].account != rows[j].account
  }

  function AccountsOf(rows: seq<Row>): set<Account> { set row | row in rows :: row.account }

  lemma AccountsOneMore(rows: seq<Row>, row: Row)
    ensures AccountsOf(rows + [row]) == AccountsOf(rows) + {row.account}
  {
    forall account ensures account in AccountsOf(rows + [row]) <==> account in AccountsOf(rows) + {row.account} {
      if account in AccountsOf(rows) {
        var known :| known in rows && known.account == account;
        assert known in rows + [row];
      }
      assert row in rows + [row];
    }
  }

  predicate SameTick(before: Memory, after: Memory) {
    after.tick == before.tick && after.execute == before.execute
  }

  /** The live auctions are the candidates whose entries the chain was seen to hold, each with its entry. */
  predicate LiveIsHeld(live: seq<(Row, Auction)>, seen: map<Account, EntryAnswer>) {
    && (forall i :: 0 <= i < |live| ==>
          live[i].0.account in seen && seen[live[i].0.account] == Held(live[i].1))
    && (forall account :: account in seen && seen[account].Held? ==>
          exists i :: 0 <= i < |live| && live[i].0.account == account)
  }

  /** Every auction seen held was planned, or is of a version a dry run recorded. */
  predicate HeldIsPlanned(pool: Pool, m: Memory) {
    forall account :: account in m.tally.seen && m.tally.seen[account].Held? ==>
      || account in m.tally.planned
      || (var auction := m.tally.seen[account].auction;
          Version(pool, account, auction.block, auction.bid, auction.lot) in m.mind.recorded)
  }

  function RowsOf(live: seq<(Row, Auction)>): seq<Row> {
    seq(|live|, i requires 0 <= i < |live| => live[i].0)
  }

  lemma NewAccount(rows: seq<Row>, i: nat)
    requires i < |rows| && DistinctAccounts(rows)
    ensures rows[i].account !in AccountsOf(rows[..i])
  {
  }

  lemma LiveOneMore(live: seq<(Row, Auction)>, seen: map<Account, EntryAnswer>, row: Row, entry: EntryAnswer)
    requires LiveIsHeld(live, seen) && row.account !in seen
    ensures LiveIsHeld(if entry.Held? then live + [(row, entry.auction)] else live, seen[row.account := entry])
  {
    var longer := if entry.Held? then live + [(row, entry.auction)] else live;
    var more := seen[row.account := entry];
    forall account | account in more && more[account].Held?
      ensures exists i :: 0 <= i < |longer| && longer[i].0.account == account
    {
      if account == row.account {
        assert longer[|live|].0.account == account;
      } else {
        var i :| 0 <= i < |live| && live[i].0.account == account;
        assert longer[i].0.account == account;
      }
    }
  }

  /** What the walk has after reading the first `i` candidates. */
  ghost predicate ReadSoFar(candidates: seq<Row>, i: nat, live: seq<(Row, Auction)>, seen: map<Account, EntryAnswer>)
    requires i <= |candidates|
  {
    && LiveIsHeld(live, seen) && seen.Keys == AccountsOf(candidates[..i])
    && DistinctAccounts(RowsOf(live)) && forall row :: row in RowsOf(live) ==> row in candidates[..i]
  }

  lemma ReadOneMore(candidates: seq<Row>, i: nat, live: seq<(Row, Auction)>, seen: map<Account, EntryAnswer>,
                    entry: EntryAnswer)
    requires i < |candidates| && DistinctAccounts(candidates) && ReadSoFar(candidates, i, live, seen)
    ensures var row := candidates[i];
      ReadSoFar(candidates, i + 1, if entry.Held? then live + [(row, entry.auction)] else live,
                seen[row.account := entry])
  {
    var row := candidates[i];
    assert candidates[..i + 1] == candidates[..i] + [row];
    AccountsOneMore(candidates[..i], row);
    assert seen[row.account := entry].Keys == seen.Keys + {row.account};
    NewAccount(candidates, i);
    LiveOneMore(live, seen, row, entry);
    RowsOneMore(candidates, i, live, entry);
  }

  lemma RowsOneMore(candidates: seq<Row>, i: nat, live: seq<(Row, Auction)>, entry: EntryAnswer)
    requires i < |candidates| && DistinctAccounts(candidates) && DistinctAccounts(RowsOf(live))
    requires forall row :: row in RowsOf(live) ==> row in candidates[..i]
    ensures var longer := if entry.Held? then live + [(candidates[i], entry.auction)] else live;
      && DistinctAccounts(RowsOf(longer)) && forall row :: row in RowsOf(longer) ==> row in candidates[..i + 1]
  {
    assert candidates[..i + 1] == candidates[..i] + [candidates[i]];
    if entry.Held? {
      OneMoreDistinct(candidates, i, RowsOf(live));
      assert RowsOf(live + [(candidates[i], entry.auction)]) == RowsOf(live) + [candidates[i]];
    }
  }

  lemma OneMoreDistinct(rows: seq<Row>, i: nat, kept: seq<Row>)
    requires i < |rows| && DistinctAccounts(rows) && DistinctAccounts(kept)
    requires forall row :: row in kept ==> row in rows[..i]
    ensures DistinctAccounts(kept + [rows[i]])
    ensures forall row :: row in kept + [rows[i]] ==> row in rows[..i + 1]
  {
    forall k | 0 <= k < |kept| ensures kept[k].account != rows[i].account {
      assert kept[k] in rows[..i];
    }
    assert rows[..i + 1] == rows[..i] + [rows[i]];
  }

  lemma OneMore(rows: seq<Row>, i: nat, kept: seq<Row>)
    requires i < |rows| && UniqueAccounts(rows) && DistinctAccounts(kept) && rows[i].userLiquidation
    requires forall row :: row in kept ==> row.userLiquidation && row in rows[..i]
    ensures DistinctAccounts(kept + [rows[i]])
    ensures forall row :: row in kept + [rows[i]] ==> row in rows[..i + 1]
  {
    forall k | 0 <= k < |kept| ensures kept[k].account != rows[i].account {
      assert kept[k] in rows[..i];
    }
    assert rows[..i + 1] == rows[..i] + [rows[i]];
  }

  /** Only accounts the walk is past were handed to the executor. */
  ghost predicate TriedBefore(live: seq<(Row, Auction)>, i: nat, m: Memory)
    requires i <= |live|
  {
    m.walk.Walk? &&
    forall account :: account in m.walk.tries ==> exists k :: 0 <= k < i && live[k].0.account == account
  }

  /** Every auction the walk is past was planned, or is of a version a dry run recorded. */
  ghost predicate PlannedBefore(live: seq<(Row, Auction)>, i: nat, m: Memory)
    requires i <= |live|
  {
    forall k :: 0 <= k < i ==>
      live[k].0.account in m.tally.planned || VersionOfEntry(live[k].0, live[k].1) in m.mind.recorded
  }

  lemma StillBefore(live: seq<(Row, Auction)>, i: nat, before: Memory, after: Memory)
    requires i < |live| && TriedBefore(live, i, before) && PlannedBefore(live, i, before)
    requires WalksOn(before, after, live[i].0.account) && live[i].0.account in after.tally.planned
    ensures TriedBefore(live, i + 1, after) && PlannedBefore(live, i + 1, after)
  {
    forall account | account in after.walk.tries ensures exists k :: 0 <= k < i + 1 && live[k].0.account == account {
      if account != live[i].0.account {
        assert account in before.walk.tries;
        var k :| 0 <= k < i && live[k].0.account == account;
      }
    }
  }

  lemma StillBeforeRecorded(live: seq<(Row, Auction)>, i: nat, m: Memory)
    requires i < |live| && TriedBefore(live, i, m) && PlannedBefore(live, i, m)
    requires VersionOfEntry(live[i].0, live[i].1) in m.mind.recorded
    ensures TriedBefore(live, i + 1, m) && PlannedBefore(live, i + 1, m)
  {
    forall account | account in m.walk.tries ensures exists k :: 0 <= k < i + 1 && live[k].0.account == account {
      var k :| 0 <= k < i && live[k].0.account == account;
    }
  }

  lemma PlannedIsHeldPlanned(pool: Pool, live: seq<(Row, Auction)>, m: Memory)
    requires LiveIsHeld(live, m.tally.seen) && PlannedBefore(live, |live|, m)
    requires forall row :: row in RowsOf(live) ==> row.pool == pool
    ensures HeldIsPlanned(pool, m)
  {
    forall account | account in m.tally.seen && m.tally.seen[account].Held?
      ensures account in m.tally.planned
        || (var auction := m.tally.seen[account].auction;
            Version(pool, account, auction.block, auction.bid, auction.lot) in m.mind.recorded)
    {
      var i :| 0 <= i < |live| && live[i].0.account == account;
      assert RowsOf(live)[i] in RowsOf(live);
    }
  }

  /** An account no earlier auction of the walk named was not tried yet. */
  lemma Untried(live: seq<(Row, Auction)>, i: nat, m: Memory)
    requires i < |live| && DistinctAccounts(RowsOf(live)) && TriedBefore(live, i, m)
    ensures m.Tries(live[i].0.account) == 0
  {
    forall k | 0 <= k < i ensures live[k].0.account != live[i].0.account {
      assert RowsOf(live)[k].account != RowsOf(live)[i].account;
    }
  }

  class Filler {
    const world: World
    const config: Config
    const executor: Executor
    const inventory: Inventory

    constructor (world: World)
      ensures Valid() && this.world == world && fresh(inventory)
      ensures inventory.balances == map[] && inventory.reserved == map[]
    {
      var wallet := new Inventory(world.config.native, world.config.feeReserve);
      var hands := new Executor(world, wallet);
      this.world, config, inventory, executor := world, world.config, wallet, hands;
    }

    ghost predicate Valid()
      reads this, executor
    {
      && config == world.config
      && executor.world == world && executor.inventory == inventory && executor.Valid()
      && inventory.native == config.native && inventory.feeReserve == config.feeReserve
    }

    /** Everything the filler holds is what `m` remembers. */
    ghost predicate Holds(pass: TickPass, m: Memory)
      reads world, pass, pass.state
    {
      && pass.state.Agrees(m)
      && pass.tick == m.tick && pass.summary == m.summary
      && world.skips == m.skipTotals
    }

    /** The wallet is what the run remembers, and no claim on it is open. */
    ghost predicate WalletSynced()
      reads world, inventory
    {
      inventory.balances == world.memory.wallet && NothingHeld(inventory.reserved)
    }

    /** Everything held in memory is what the run remembers, and nothing is in flight. */
    ghost predicate Owing(pass: TickPass)
      reads world, inventory, pass, pass.state
    {
      world.Valid() && world.flight == GROUNDED && Holds(pass, world.memory) && WalletSynced()
    }

    /** And nothing is owed. */
    ghost predicate Synced(pass: TickPass)
      reads world, inventory, pass, pass.state
    {
      Owing(pass) && world.memory.duty.None?
    }

    // ----- the fill walk --------------------------------------------------

    /** Counts one skip of this auction for this reason, once. */
    method CountSkip(row: Row, start: u32, reason: SkipLabel, pass: TickPass)
      modifies pass.state`countedSkips, world`skips
      ensures var key := SkipKey(row.pool, row.account, start, reason);
        && pass.state.countedSkips == old(pass.state.countedSkips) + {key}
        && world.skips ==
             if key in old(pass.state.countedSkips) then old(world.skips) else old(world.skips) + multiset{reason}
    {
      var key := SkipKey(row.pool, row.account, start, reason);
      if key !in pass.state.countedSkips {
        pass.state.countedSkips := pass.state.countedSkips + {key};
        world.CountSkip(reason);
      }
    }

    method Skipped(pass: TickPass)
      modifies pass`summary
      ensures pass.summary == old(pass.summary).(skipped := old(pass.summary).skipped + 1)
    {
      pass.summary := pass.summary.(skipped := pass.summary.skipped + 1);
    }

    /** Step 1: whether this row is worth a chain read at all. */
    method IsConsidered(pool: PoolConfig, row: Row, pass: TickPass) returns (kept: bool)
      requires Valid() && Synced(pass) && world.memory.walk.Walk? && world.memory.walk.pool == row.pool
      requires world.memory.tally.unwalked != [] && world.memory.tally.unwalked[0] == row
      modifies world`run, world`memory, world`flight, world`skips, pass.state`countedSkips
      ensures Synced(pass) && world.memory == Walked(config, old(world.memory), pool, row, kept)
      ensures kept <==> Worth(config, old(world.memory), pool, row)
    {
      kept := IsWorth(pool, row, pass);
      world.WalksOver(pool, row, kept);
      if row.userLiquidation && row.account != pool.address && row.account !in config.own
        && !pool.Supports(row.bid.Keys, row.lot.Keys)
      {
        CountSkip(row, row.start, LabelUnsupported, pass);
      }
    }

    /** The filter itself, in the order the source asks. */
    method IsWorth(pool: PoolConfig, row: Row, pass: TickPass) returns (kept: bool)
      requires Valid() && Synced(pass)
      ensures kept <==> Worth(config, world.memory, pool, row)
    {
      if !row.userLiquidation { return false; }
      if row.account == pool.address || row.account in config.own { return false; }
      if !pool.Supports(row.bid.Keys, row.lot.Keys) { return false; }
      if VersionOfRow(row) in pass.state.recordedDryRun { return false; }
      var key := (row.pool, row.account);
      var plannedAt := if key in pass.state.lastPlanned then Some(pass.state.lastPlanned[key]) else None;
      kept := Due(config, row, plannedAt, pass.tick);
    }

    /** A planner's refusal: counted, told when it is the wallet's, and the row's plan cleared. */
    method NoteDeclined(row: Row, auction: Auction, reason: FillSkip, pass: TickPass, ghost before: Memory)
      returns (ok: bool)
      requires Valid() && world.Valid() && world.flight == GROUNDED && WalletSynced() && Holds(pass, before)
      requires before.walk.Walk?
      requires world.memory == Considered(before, row, auction, Declined(reason))
      modifies world`run, world`memory, world`flight, world`lost, world`skips, pass`summary, pass.state`countedSkips
      ensures world.Valid() && world.lost == (old(world.lost) || !ok)
      ensures ok ==> Synced(pass) && world.memory == old(world.memory).(duty := None)
    {
      CountSkip(row, auction.block, LabelOf(reason), pass);
      if reason.Unfunded? {
        var _ := world.Notify(UnfundedFill, row.pool);
      }
      ok := world.ClearFillPlan(row);
      if ok { Skipped(pass); }
    }

    /** One planning attempt: the draft, or the row's plan cleared and the skip counted. */
    method TryDraft(row: Row, auction: Auction, maxPercent: Percent, pass: TickPass)
      returns (ok: bool, draft: Option<FillDraft>, ghost planned: PlannedFill)
      requires Valid() && Owing(pass) && MayPlan(world.memory, row, auction, maxPercent)
      requires world.memory.duty.None? || world.memory.duty == Some(ReplanOwed(row, auction, maxPercent))
      modifies world`run, world`memory, world`flight, world`lost, world`skips, pass`summary, pass.state`countedSkips
      ensures world.Valid() && world.lost == (old(world.lost) || !ok)
      ensures ok ==> draft == (if planned.Drafted? then Some(planned.draft) else None)
      ensures ok ==> Owing(pass)
      ensures ok && draft.Some? ==> world.memory == Considered(old(world.memory), row, auction, planned)
      ensures ok && draft.None? ==> world.memory == Considered(old(world.memory), row, auction, planned).(duty := None)
      ensures ok && draft.Some? ==> draft.value.percent <= maxPercent
    {
      var answer := world.PlanFill(row, auction, maxPercent);
      planned := answer;
      match answer {
        case Drafted(made) => return true, Some(made), planned;
        case Declined(reason) =>
          ok := NoteDeclined(row, auction, reason, pass, old(world.memory));
          return ok, None, planned;
        case Uncomputed => return true, None, planned;
      }
    }

    /** Writes a draft onto its row; the row may have gone. */
    method WritePlan(row: Row, draft: FillDraft, pass: TickPass) returns (ok: bool, written: bool)
      requires Valid() && Owing(pass) && IsDraftOf(world.memory.walk, row, draft)
      requires world.memory.duty == Some(WriteOwed(row, draft))
      modifies world`run, world`memory, world`flight, world`lost, pass`summary, pass.state`lastPlanned
      ensures world.Valid() && world.lost == (old(world.lost) || !ok)
      ensures ok ==> Owing(pass) && world.memory == PlanKept(old(world.memory), row, written)
    {
      var answer := world.SetFillPlan(row, draft);
      if answer.PlanWriteFailed? { return false, false; }
      if answer.NoRow? { return true, false; }
      pass.state.lastPlanned := pass.state.lastPlanned[(row.pool, row.account) := pass.tick];
      pass.summary := pass.summary.(planned := pass.summary.planned + 1);
      return true, true;
    }

    /** A draft of this auction, made and written in this walk, whose ledger has come. */
    ghost predicate Executable(row: Row, auction: Auction, draft: FillDraft)
      reads world
    {
      && world.memory.duty == Some(ExecuteOwed(row, draft))
      && MayHand(world.memory, row, draft)
      && world.memory.walk.draft.value.auction == auction
      && VersionOfEntry(row, auction) !in world.memory.mind.recorded
    }

    /** The fee tier, or a skip when its threshold does not compute. */
    method FeeTier(row: Row, auction: Auction, draft: FillDraft, pass: TickPass) returns (ok: bool, priority: Priority)
      requires Valid() && Owing(pass) && Executable(row, auction, draft)
      modifies world`run, world`memory, world`flight, world`skips, pass`summary, pass.state`countedSkips
      ensures Owing(pass)
      ensures ok <==> world.fees(pass.tick, row).Some?
      ensures ok ==> (priority.High? <==> draft.estProfit >= world.fees(pass.tick, row).value)
      ensures world.memory == if ok then old(world.memory) else GivenUp(old(world.memory), row, LabelContractError)
    {
      var threshold := world.HighFeeProfit(pass.tick, row);
      if !threshold.Some? {
        CountSkip(row, auction.block, LabelContractError, pass);
        Skipped(pass);
        return false, Normal;
      }
      return true, if draft.estProfit >= threshold.value then High else Normal;
    }

    /** The settlement this mode demands, or a skip when the wallet cannot fund the spend. */
    method TakeSettlement(row: Row, auction: Auction, draft: FillDraft, pass: TickPass)
      returns (settlement: Option<Settlement>)
      requires Valid() && Owing(pass) && Executable(row, auction, draft)
      modifies world`run, world`memory, world`flight, world`skips, pass`summary, pass.state`countedSkips
      modifies inventory`reserved
      ensures settlement.Some? <==> config.dryRun || old(inventory.Affords(draft.spend))
      ensures settlement.Some? ==> (settlement.value.Live? <==> !config.dryRun)
      ensures world.Valid() && Holds(pass, world.memory) && inventory.balances == world.memory.wallet
      ensures settlement.None? ==>
        Synced(pass) && world.memory == GivenUp(old(world.memory), row, LabelUnfunded)
      ensures settlement.Some? ==> world.memory == old(world.memory) && Settles(settlement.value, draft.spend)
      ensures settlement.Some? && settlement.value.Live? ==> fresh(settlement.value.reservation)
    {
      if config.dryRun { return Some(DryRun); }
      inventory.AffordedIsFunded(config, draft.spend);
      var claim := inventory.Reserve(draft.spend);
      if claim.None? {
        world.CannotFund(row);
        CountSkip(row, auction.block, LabelUnfunded, pass);
        Skipped(pass);
        return None;
      }
      world.Claims(draft.spend);
      SettledClaimLeavesNothing(old(inventory.reserved), draft.spend);
      return Some(Live(claim.value));
    }

    /** A settlement taken for `spend`, which once settled leaves nothing held. */
    ghost predicate Settles(settlement: Settlement, spend: Amounts)
      reads world, inventory, if settlement.Live? then {settlement.reservation} else {}
    {
      && world.flight == GROUNDED.(claim := if settlement.Live? then Some(spend) else None)
      && (settlement.Live? ==>
            && settlement.reservation.ledger == inventory && !settlement.reservation.settled
            && settlement.reservation.amounts == spend)
      && NothingHeld(Spent(inventory.reserved, Spend(settlement)))
    }

    /** The executor's call itself. */
    method Carry(plan: FillPlan, row: Row, auction: Auction, settlement: Settlement, armed: bool)
      returns (answer: FillAnswer)
      requires Valid() && world.Valid() && Executable(row, auction, plan.draft)
      requires plan.pool == row.pool && plan.user == row.account
      requires Settles(settlement, plan.draft.spend) && inventory.balances == world.memory.wallet
      modifies world`run, world`memory, world`flight, world`lost, inventory
      modifies if settlement.Live? then {settlement.reservation} else {}
      ensures world.Valid() && world.flight == GROUNDED
      ensures world.lost == (old(world.lost) || answer == FillFailed(StoreError))
      ensures answer != FillFailed(StoreError) ==>
        && WalletSynced() && Left(old(world.memory), world.memory, row, auction, answer)
        && world.memory.wallet == WalletLeft(old(world.memory), Spend(settlement), answer)
    {
      world.HandsOver(row, plan.draft);
      ghost var talk;
      answer, talk := executor.Execute(plan, settlement, armed, VersionOfEntry(row, auction));
      if answer != FillFailed(StoreError) {
        CallLeaves(config, settlement.Live?, armed, talk, old(world.memory), row, auction, plan, Spend(settlement));
      }
    }

    /** Hands one draft to the executor with the settlement its mode demands. */
    method ExecuteOnce(row: Row, auction: Auction, draft: FillDraft, armed: bool, pass: TickPass)
      returns (ok: bool, outcome: Option<FillAnswer>)
      requires Valid() && Owing(pass) && Executable(row, auction, draft)
      modifies world`run, world`memory, world`flight, world`lost, world`skips
      modifies pass`summary, pass.state`countedSkips, inventory
      ensures world.Valid() && world.lost == (old(world.lost) || !ok)
      ensures ok && outcome.None? ==>
        && Synced(pass) && WalksOn(old(world.memory), world.memory, row.account)
        && !world.memory.walk.landed
      ensures ok && outcome.Some? ==>
        && world.flight == GROUNDED && WalletSynced() && Holds(pass, old(world.memory))
        && !outcome.value.FillFailed? && Left(old(world.memory), world.memory, row, auction, outcome.value)
        && world.memory.wallet ==
             WalletLeft(old(world.memory), if config.dryRun then map[] else draft.spend, outcome.value)
    {
      GivingUpWalksOn(world.memory, row, LabelContractError);
      var priority;
      ok, priority := FeeTier(row, auction, draft, pass);
      if !ok { return true, None; }
      ok, outcome := ExecuteAt(FillPlan(row.pool, row.account, draft, priority), row, auction, armed, pass);
    }

    /** The settlement, or a skip, and the call under it. */
    method ExecuteAt(plan: FillPlan, row: Row, auction: Auction, armed: bool, pass: TickPass)
      returns (ok: bool, outcome: Option<FillAnswer>)
      requires Valid() && Owing(pass) && Executable(row, auction, plan.draft)
      requires plan.pool == row.pool && plan.user == row.account
      modifies world`run, world`memory, world`flight, world`lost, world`skips
      modifies pass`summary, pass.state`countedSkips, inventory
      ensures world.Valid() && world.lost == (old(world.lost) || !ok)
      ensures ok && outcome.None? ==>
        && Synced(pass) && WalksOn(old(world.memory), world.memory, row.account)
        && !world.memory.walk.landed
      ensures ok && outcome.Some? ==>
        && world.flight == GROUNDED && WalletSynced() && Holds(pass, old(world.memory))
        && !outcome.value.FillFailed? && Left(old(world.memory), world.memory, row, auction, outcome.value)
        && world.memory.wallet ==
             WalletLeft(old(world.memory), if config.dryRun then map[] else plan.draft.spend, outcome.value)
    {
      GivingUpWalksOn(world.memory, row, LabelUnfunded);
      var settlement := TakeSettlement(row, auction, plan.draft, pass);
      if settlement.None? { return true, None; }
      ok, outcome := ExecuteUnder(plan, row, auction, settlement.value, armed, pass);
    }

    /** The call under the settlement taken, and what a failure of it means. */
    method ExecuteUnder(plan: FillPlan, row: Row, auction: Auction, settlement: Settlement, armed: bool, pass: TickPass)
      returns (ok: bool, outcome: Option<FillAnswer>)
      requires Valid() && world.Valid() && Holds(pass, world.memory) && Executable(row, auction, plan.draft)
      requires plan.pool == row.pool && plan.user == row.account
      requires Settles(settlement, plan.draft.spend) && inventory.balances == world.memory.wallet
      modifies world`run, world`memory, world`flight, world`lost, inventory
      modifies if settlement.Live? then {settlement.reservation} else {}
      ensures world.Valid() && world.lost == (old(world.lost) || !ok)
      ensures ok && outcome.None? ==>
        && Synced(pass) && WalksOn(old(world.memory), world.memory, row.account)
        && !world.memory.walk.landed
      ensures ok && outcome.Some? ==>
        && world.flight == GROUNDED && WalletSynced() && Holds(pass, old(world.memory))
        && !outcome.value.FillFailed? && Left(old(world.memory), world.memory, row, auction, outcome.value)
        && world.memory.wallet == WalletLeft(old(world.memory), Spend(settlement), outcome.value)
    {
      var answer := Carry(plan, row, auction, settlement, armed);
      if !answer.FillFailed? { return true, Some(answer); }
      if answer.error.StoreError? { return false, None; }
      NoteFailure(row, answer.error, pass, old(world.memory));
      return true, None;
    }

    /** A call that failed for this auction alone: told when the queue dropped it. */
    method NoteFailure(row: Row, error: ExecError, pass: TickPass, ghost before: Memory)
      requires world.Valid() && world.flight == GROUNDED && WalletSynced() && Holds(pass, before)
      requires LeftFailed(before, world.memory, row, error)
      modifies world`run, world`memory, world`flight
      ensures Synced(pass) && WalksOn(before, world.memory, row.account)
      ensures world.memory.walk.landed == before.walk.landed
    {
      if error.QueueChain? {
        var _ := world.Notify(FillDropped, row.pool);
      }
    }

    /**
     What a recorded fill leaves behind. Answers whether the chain applied
     it or may yet, which ends this pool's walk.
     */
    method NoteRecorded(row: Row, auction: Auction, recorded: FillAnswer, pass: TickPass, ghost before: Memory)
      returns (landed: bool)
      requires Valid() && world.Valid() && world.flight == GROUNDED && WalletSynced() && Holds(pass, before)
      requires recorded.Recorded? && LeftRecorded(before, world.memory, row, auction, recorded)
      modifies world`run, world`memory, world`flight, pass`summary
      modifies pass.state`recordedDryRun, pass.state`inventoryStale, pass.state`unwindPending
      modifies pass.state`unwindAfter, pass.state`unwindSetbacks
      ensures Synced(pass) && WalksOn(before, world.memory, row.account)
      ensures landed <==> recorded.submission.Some? && MayHaveLanded(recorded.submission.value)
      ensures landed <==> world.memory.walk.landed
      ensures landed ==>
        && row.pool in pass.state.unwindPending && pass.state.inventoryStale
        && row.pool !in pass.state.unwindSetbacks
        && row.pool in pass.state.unwindAfter
        && pass.state.unwindAfter[row.pool] == LandingLedger(recorded.submission.value)
    {
      pass.summary := pass.summary.(executed := pass.summary.executed + 1);
      TellOf(row.pool, recorded.submission);
      landed := Remember(row, auction, recorded, pass.state);
    }

    /** A recorded fill's place in memory: once for a dry run, and an unwind owed if it may have landed. */
    method Remember(row: Row, auction: Auction, recorded: FillAnswer, state: FillerState) returns (landed: bool)
      requires recorded.Recorded?
      modifies state`recordedDryRun, state`inventoryStale, state`unwindPending
      modifies state`unwindAfter, state`unwindSetbacks
      ensures landed == MayHaveFilled(recorded)
      ensures state.Held() == MindAfterFill(old(state.Held()), row, auction, recorded)
    {
      if recorded.dryRun {
        state.recordedDryRun := state.recordedDryRun + {VersionOfEntry(row, auction)};
      }
      landed := recorded.submission.Some? && MayHaveLanded(recorded.submission.value);
      if landed {
        state.inventoryStale := true;
        state.unwindPending := state.unwindPending + {row.pool};
        state.unwindAfter := state.unwindAfter[row.pool := LandingLedger(recorded.submission.value)];
        ClearSetback(row.pool, state);
      }
    }

    /** Tells the operator of a fill the chain applied, whether it succeeded or failed. */
    method TellOf(pool: Pool, submission: Option<TxOutcome>)
      requires world.Valid() && world.flight == GROUNDED && world.memory.duty == TellingOf(pool, submission)
      modifies world`run, world`memory, world`flight
      ensures world.Valid() && world.flight == old(world.flight)
      ensures world.memory == old(world.memory).(duty := None)
    {
      if submission.Some? {
        match submission.value {
          case Succeeded(_, _) => var _ := world.Notify(FillConfirmed, pool);
          case Failed(_, _) => var _ := world.Notify(FillNotLanded, pool);
          case Expired(_) =>
          case Unknown(_) =>
        }
      }
    }

    method ClearSetback(pool: Pool, state: FillerState)
      modifies state`unwindSetbacks
      ensures state.unwindSetbacks == old(state.unwindSetbacks) - {pool}
    {
      state.unwindSetbacks := state.unwindSetbacks - {pool};
    }

    /** A stale plan is cleared and forgotten, so the next tick plans from fresh state. */
    method NoteStale(row: Row, pass: TickPass, ghost before: Memory) returns (ok: bool)
      requires Valid() && world.Valid() && world.flight == GROUNDED && WalletSynced() && Holds(pass, before)
      requires LeftStale(before, world.memory, row)
      modifies world`run, world`memory, world`flight, world`lost, pass`summary, pass.state`lastPlanned
      ensures world.Valid() && world.lost == (old(world.lost) || !ok)
      ensures ok ==> Synced(pass) && WalksOn(before, world.memory, row.account) && !world.memory.walk.landed
    {
      ok := world.ClearFillPlan(row);
      if !ok { return false; }
      pass.state.Forget(row.pool, row.account);
      Skipped(pass);
    }

    /** A refusal is a skip, counted once. */
    method NoteRefused(row: Row, auction: Auction, pass: TickPass, ghost before: Memory)
      requires Valid() && world.Valid() && world.flight == GROUNDED && WalletSynced() && Holds(pass, before)
      requires LeftRefused(before, world.memory, row, auction)
      modifies world`skips, pass`summary, pass.state`countedSkips
      ensures Synced(pass) && WalksOn(before, world.memory, row.account) && !world.memory.walk.landed
    {
      CountSkip(row, auction.block, LabelContractError, pass);
      Skipped(pass);
    }

    /** Step 5: one execution and what its answer means; a health refusal is planned once more. */
    method ExecuteDraft(row: Row, auction: Auction, draft: FillDraft, armed: bool, pass: TickPass)
      returns (ok: bool, landed: bool)
      requires Valid() && Owing(pass) && Executable(row, auction, draft)
      requires world.memory.Tries(row.account) == 0
      modifies world`run, world`memory, world`flight, world`lost, world`skips, pass`summary, pass.state, inventory
      ensures world.Valid() && world.lost == (old(world.lost) || !ok)
      ensures ok ==> Synced(pass) && WalksOn(old(world.memory), world.memory, row.account)
      ensures ok ==> (landed <==> world.memory.walk.landed)
    {
      var outcome;
      ok, outcome := ExecuteOnce(row, auction, draft, armed, pass);
      if !ok || outcome.None? { return ok, false; }
      ok, landed := NoteFirst(row, auction, draft, outcome.value, armed, pass, old(world.memory));
    }

    /** What the first answer for an auction means. */
    method NoteFirst(row: Row, auction: Auction, draft: FillDraft, answer: FillAnswer, armed: bool, pass: TickPass,
                     ghost before: Memory)
      returns (ok: bool, landed: bool)
      requires Valid() && world.Valid() && world.flight == GROUNDED && WalletSynced() && Holds(pass, before)
      requires before.Tries(row.account) == 0 && MayHand(before, row, draft)
      requires before.walk.draft.value.auction == auction && VersionOfEntry(row, auction) !in before.mind.recorded
      requires !answer.FillFailed? && Left(before, world.memory, row, auction, answer)
      modifies world`run, world`memory, world`flight, world`lost, world`skips, pass`summary, pass.state, inventory
      ensures world.Valid() && world.lost == (old(world.lost) || !ok)
      ensures ok ==> Synced(pass) && WalksOn(before, world.memory, row.account)
      ensures ok ==> (landed <==> world.memory.walk.landed)
    {
      ok, landed := true, false;
      match answer {
        case Recorded(_, _, _, _) => landed := NoteRecorded(row, auction, answer, pass, before);
        case Replan(_) => ok, landed := PlanAgain(row, auction, draft, armed, pass, before);
        case Refused(_) => NoteRefused(row, auction, pass, before);
        case StalePlan => ok := NoteStale(row, pass, before);
      }
    }

    /** Step 4: a draft, written onto its row; one to be executed now is then owed. */
    method DraftWritten(row: Row, auction: Auction, maxPercent: Percent, pass: TickPass)
      returns (ok: bool, draft: Option<FillDraft>)
      requires Valid() && Owing(pass) && MayPlan(world.memory, row, auction, maxPercent)
      requires world.memory.duty.None? || world.memory.duty == Some(ReplanOwed(row, auction, maxPercent))
      modifies world`run, world`memory, world`flight, world`lost, world`skips
      modifies pass`summary, pass.state`countedSkips, pass.state`lastPlanned
      ensures world.Valid() && world.lost == (old(world.lost) || !ok)
      ensures ok ==> Owing(pass) && SameWalk(old(world.memory), world.memory)
      ensures ok ==> world.memory.tally == Planning(old(world.memory.tally), row.account)
      ensures ok && draft.None? ==> Synced(pass)
      ensures ok && draft.Some? ==>
        && world.memory.walk.draft == Some(Draft(row, auction, draft.value, true))
        && draft.value.percent <= maxPercent
        && world.memory.duty ==
             (if world.memory.execute && LandsBy(draft.value.fillLedger, world.memory.tick)
              then Some(ExecuteOwed(row, draft.value)) else None)
    {
      ghost var planned;
      ok, draft, planned := TryDraft(row, auction, maxPercent, pass);
      if !ok { return false, None; }
      if draft.None? {
        UndraftedWalksOn(old(world.memory), row, auction, planned);
        return true, None;
      }
      var written;
      ok, written := WritePlan(row, draft.value, pass);
      DraftedWalksOn(old(world.memory), row, auction, draft.value, written);
      if !ok || !written { return ok, None; }
    }

    /** The one re-plan, at half the refused percent; a second refusal is a skip. */
    method PlanAgain(row: Row, auction: Auction, refused: FillDraft, armed: bool, pass: TickPass, ghost before: Memory)
      returns (ok: bool, landed: bool)
      requires Valid() && world.Valid() && world.flight == GROUNDED && WalletSynced() && Holds(pass, before)
      requires before.Tries(row.account) == 0 && MayHand(before, row, refused)
      requires before.walk.draft.value.auction == auction && VersionOfEntry(row, auction) !in before.mind.recorded
      requires LeftToReplan(before, world.memory, row)
      modifies world`run, world`memory, world`flight, world`lost, world`skips, pass`summary, pass.state, inventory
      ensures world.Valid() && world.lost == (old(world.lost) || !ok)
      ensures ok ==> Synced(pass) && WalksOn(before, world.memory, row.account)
      ensures ok ==> (landed <==> world.memory.walk.landed)
    {
      var draft;
      ok, draft := DraftWritten(row, auction, HalfPercent(refused.percent), pass);
      if !ok || draft.None? || draft.value.fillLedger > pass.tick + 1 { return ok, false; }
      ok, landed := ExecuteAgain(row, auction, draft.value, armed, pass);
    }

    /** The re-plan's execution: whatever else the contract answers now is a skip. */
    method ExecuteAgain(row: Row, auction: Auction, draft: FillDraft, armed: bool, pass: TickPass)
      returns (ok: bool, landed: bool)
      requires Valid() && Owing(pass) && Executable(row, auction, draft)
      requires world.memory.Tries(row.account) == 1
      modifies world`run, world`memory, world`flight, world`lost, world`skips, pass`summary, pass.state, inventory
      ensures world.Valid() && world.lost == (old(world.lost) || !ok)
      ensures ok ==> Synced(pass) && WalksOn(old(world.memory), world.memory, row.account)
      ensures ok ==> (landed <==> world.memory.walk.landed)
    {
      var outcome;
      ok, outcome := ExecuteOnce(row, auction, draft, armed, pass);
      if !ok || outcome.None? { return ok, false; }
      ok, landed := NoteAgain(row, auction, outcome.value, pass, old(world.memory));
    }

    /** And the second: recorded, stale, or refused for good. */
    method NoteAgain(row: Row, auction: Auction, answer: FillAnswer, pass: TickPass, ghost before: Memory)
      returns (ok: bool, landed: bool)
      requires Valid() && world.Valid() && world.flight == GROUNDED && WalletSynced() && Holds(pass, before)
      requires before.walk.Walk? && before.walk.draft.Some? && before.Tries(row.account) == 1
      requires !answer.FillFailed? && Left(before, world.memory, row, auction, answer)
      modifies world`run, world`memory, world`flight, world`lost, world`skips, pass`summary, pass.state
      ensures world.Valid() && world.lost == (old(world.lost) || !ok)
      ensures ok ==> Synced(pass) && WalksOn(before, world.memory, row.account)
      ensures ok ==> (landed <==> world.memory.walk.landed)
    {
      ok, landed := true, false;
      match answer {
        case Recorded(_, _, _, _) => landed := NoteRecorded(row, auction, answer, pass, before);
        case Replan(_) => NoteRefused(row, auction, pass, before);
        case Refused(_) => NoteRefused(row, auction, pass, before);
        case StalePlan => ok := NoteStale(row, pass, before);
      }
    }

    /** Steps 4 and 5 for one auction. */
    method PlanAndAct(row: Row, auction: Auction, execute: bool, armed: bool, pass: TickPass)
      returns (ok: bool, landed: bool)
      requires Valid() && Synced(pass) && execute == world.memory.execute
      requires MayPlan(world.memory, row, auction, WHOLE_AUCTION) && world.memory.Tries(row.account) == 0
      modifies world`run, world`memory, world`flight, world`lost, world`skips, pass`summary, pass.state, inventory
      ensures world.Valid() && world.lost == (old(world.lost) || !ok)
      ensures ok ==> Synced(pass) && WalksOn(old(world.memory), world.memory, row.account)
      ensures ok ==> row.account in world.memory.tally.planned
      ensures ok ==> (landed <==> world.memory.walk.landed)
    {
      var draft;
      ok, draft := DraftWritten(row, auction, WHOLE_AUCTION, pass);
      if !ok || draft.None? { return ok, false; }
      if !execute || draft.value.fillLedger > pass.tick + 1 { return true, false; }
      ok, landed := ExecuteDraft(row, auction, draft.value, armed, pass);
    }

    /** Step 1 over a pool's open auctions, in order. */
    method Consider(pool: PoolConfig, rows: seq<Row>, pass: TickPass) returns (candidates: seq<Row>)
      requires Valid() && Synced(pass) && OnWalk(pool.address)
      requires UniqueAccounts(rows) && forall row :: row in rows ==> row.pool == pool.address
      requires world.memory.tally.unwalked == rows && world.memory.tally.worth == {}
      modifies world`run, world`memory, world`flight, world`skips, pass.state`countedSkips
      ensures Synced(pass) && SameTick(old(world.memory), world.memory)
      ensures world.memory.walk == old(world.memory.walk)
      ensures world.memory.tally == old(world.memory.tally).(unwalked := [], worth := AccountsOf(candidates))
      ensures DistinctAccounts(candidates) && forall row :: row in candidates ==> row.pool == pool.address
    {
      candidates := [];
      for i := 0 to |rows|
        invariant Synced(pass) && SameTick(old(world.memory), world.memory)
        invariant world.memory.walk == old(world.memory.walk)
        invariant world.memory.tally ==
          old(world.memory.tally).(unwalked := rows[i..], worth := AccountsOf(candidates))
        invariant DistinctAccounts(candidates)
        invariant forall row :: row in candidates ==> row.userLiquidation && row in rows[..i]
      {
        assert rows[i..][0] == rows[i] && rows[i..][1..] == rows[i + 1..];
        var kept := IsConsidered(pool, rows[i], pass);
        if kept {
          OneMore(rows, i, candidates);
          AccountsOneMore(candidates, rows[i]);
          candidates := candidates + [rows[i]];
        }
      }
      assert rows[|rows|..] == [];
    }

    /** The walk is this pool's and nothing in it has landed. */
    ghost predicate OnWalk(pool: Pool)
      reads world
    {
      world.memory.walk.Walk? && world.memory.walk.pool == pool && !world.memory.walk.landed
    }

    /** Closes the row of an auction the chain no longer holds. */
    method CloseRow(row: Row, pass: TickPass) returns (ok: bool)
      requires Valid() && Synced(pass) && world.memory.gone == Some((row.pool, row.account))
      modifies world`run, world`memory, world`flight, world`lost
      modifies pass`summary, pass.state`lastPlanned, pass.state`recordedDryRun
      ensures world.Valid() && world.lost == (old(world.lost) || !ok)
      ensures ok ==> Synced(pass) && world.memory == Machine.Closed(old(world.memory), row.pool, row.account)
    {
      ok := world.DeleteAuction(row);
      if ok {
        pass.state.Closed(row.pool, row.account);
        pass.summary := pass.summary.(closed := pass.summary.closed + 1);
      }
    }

    /** One candidate's entry: what the chain answered, with a row it holds no auction for closed. */
    method ReadEntry(row: Row, pass: TickPass) returns (ok: bool, entry: EntryAnswer)
      requires Valid() && Synced(pass)
      modifies world`run, world`memory, world`flight, world`lost
      modifies pass`summary, pass.state`lastPlanned, pass.state`recordedDryRun
      ensures world.Valid() && world.lost == (old(world.lost) || !ok)
      ensures ok ==> Synced(pass) && SameTick(old(world.memory), world.memory)
      ensures ok ==> world.memory.walk == old(world.memory.walk)
      ensures ok ==> world.memory.tally == Seeing(old(world.memory.tally), row.account, entry)
      ensures ok && entry.Gone? ==> world.memory.mind == Machine.Closed(old(world.memory), row.pool, row.account).mind
    {
      ok := true;
      entry := world.ReadEntry(row);
      if entry.Gone? {
        ok := CloseRow(row, pass);
      }
    }

    /** Step 2: the chain's own entry for each kept row, until a shutdown. */
    method ReadEntries(pool: Pool, candidates: seq<Row>, pass: TickPass) returns (ok: bool, live: seq<(Row, Auction)>)
      requires Valid() && Synced(pass) && world.memory.tally.seen == map[]
      requires DistinctAccounts(candidates) && forall row :: row in candidates ==> row.pool == pool
      modifies world`run, world`memory, world`flight, world`lost, world`stopped
      modifies pass`summary, pass.state`lastPlanned, pass.state`recordedDryRun
      ensures world.Valid() && world.lost == (old(world.lost) || !ok) && (old(world.stopped) ==> world.stopped)
      ensures ok ==> Synced(pass) && SameTick(old(world.memory), world.memory)
      ensures ok ==> world.memory.walk == old(world.memory.walk)
      ensures ok ==> world.memory.tally == old(world.memory.tally).(seen := world.memory.tally.seen)
      ensures ok ==> LiveIsHeld(live, world.memory.tally.seen)
      ensures ok && !world.stopped ==> world.memory.tally.seen.Keys == AccountsOf(candidates)
      ensures DistinctAccounts(RowsOf(live)) && forall row :: row in RowsOf(live) ==> row.pool == pool
    {
      live := [];
      for i := 0 to |candidates|
        invariant Synced(pass) && SameTick(old(world.memory), world.memory)
        invariant world.lost == old(world.lost) && world.stopped == old(world.stopped)
        invariant world.memory.walk == old(world.memory.walk)
        invariant world.memory.tally == old(world.memory.tally).(seen := world.memory.tally.seen)
        invariant ReadSoFar(candidates, i, live, world.memory.tally.seen)
      {
        var stopping := world.ShuttingDown();
        if stopping { return true, live; }
        ghost var before := world.memory.tally.seen;
        var entry;
        ok, entry := ReadEntry(candidates[i], pass);
        if !ok { return false, live; }
        ReadOneMore(candidates, i, live, before, entry);
        if entry.Held? {
          live := live + [(candidates[i], entry.auction)];
        }
      }
      assert candidates[..|candidates|] == candidates;
      ok := true;
    }

    /**
     The wallet, when there is one and the balances are stale, aged, or do
     not cover what this pool names. A read covers everything any pool named
     so far, so no pool's read blanks another's balances. `read` is what the
     chain answered, if it was asked.
     */
    method RefreshInventory(assets: set<Asset>, pass: TickPass) returns (ghost read: Option<Option<Amounts>>)
      requires Valid() && Owing(pass) && (world.memory.duty.None? || world.memory.duty.value.PassOwed?)
      modifies world`run, world`memory, world`flight, inventory`balances
      modifies pass.state`inventoryStale, pass.state`knownAssets, pass.state`coveredAssets
      ensures Owing(pass)
      ensures config.signer.None? ==> read.None?
      ensures config.signer.Some? && read.None? ==>
        assets <= pass.state.coveredAssets && !old(pass.state.inventoryStale)
      ensures config.signer.Some? ==>
        pass.state.knownAssets == old(pass.state.knownAssets) + assets + {config.native}
      ensures world.memory ==
        if read.Some? then WalletRead(old(world.memory), pass.state.knownAssets, read.value) else old(world.memory)
    {
      read := None;
      if config.signer.None? { return; }
      pass.state.knownAssets := pass.state.knownAssets + assets + {config.native};
      var aged := world.BalancesAged();
      if !pass.state.inventoryStale && assets <= pass.state.coveredAssets && !aged { return; }
      ghost var balances := ReadWallet(pass);
      read := Some(balances);
    }

    /** One read of the balances of every known asset; one that failed changes nothing. */
    method ReadWallet(pass: TickPass) returns (ghost read: Option<Amounts>)
      requires Valid() && Owing(pass) && (world.memory.duty.None? || world.memory.duty.value.PassOwed?)
      requires config.signer.Some?
      modifies world`run, world`memory, world`flight, inventory`balances
      modifies pass.state`inventoryStale, pass.state`coveredAssets
      ensures Owing(pass)
      ensures world.memory == WalletRead(old(world.memory), pass.state.knownAssets, read)
    {
      var balances := world.ReadBalances(pass.state.knownAssets);
      read := balances;
      if balances.Some? {
        inventory.RecordBalances(balances.value);
        pass.state.inventoryStale := false;
        pass.state.coveredAssets := pass.state.knownAssets;
      }
    }

    /** Steps 4 and 5 over a pool's live auctions, until one lands or may have. */
    method WalkLive(pool: Pool, live: seq<(Row, Auction)>, execute: bool, armed: bool, pass: TickPass)
      returns (ok: bool)
      requires Valid() && Synced(pass) && execute == world.memory.execute && OnWalk(pool)
      requires DistinctAccounts(RowsOf(live)) && forall row :: row in RowsOf(live) ==> row.pool == pool
      requires world.memory.walk.tries == map[] && LiveIsHeld(live, world.memory.tally.seen)
      modifies world`run, world`memory, world`flight, world`lost, world`stopped, world`skips
      modifies pass`summary, pass.state, inventory
      ensures world.Valid() && world.lost == (old(world.lost) || !ok) && (old(world.stopped) ==> world.stopped)
      ensures ok ==> Synced(pass) && SameTick(old(world.memory), world.memory)
      ensures ok ==> world.memory.tally == old(world.memory.tally).(planned := world.memory.tally.planned)
      ensures ok ==> world.memory.walk.Walk? && world.memory.walk.pool == pool
      ensures ok && !world.stopped ==> world.memory.walk.landed || HeldIsPlanned(pool, world.memory)
    {
      for i := 0 to |live|
        invariant Synced(pass) && OnWalk(pool) && SameTick(old(world.memory), world.memory)
        invariant world.lost == old(world.lost) && world.stopped == old(world.stopped)
        invariant world.memory.tally == old(world.memory.tally).(planned := world.memory.tally.planned)
        invariant TriedBefore(live, i, world.memory) && PlannedBefore(live, i, world.memory)
      {
        var stopping := world.ShuttingDown();
        if stopping { return true; }
        var landed;
        ok, landed := WalkNext(pool, live, i, execute, armed, pass);
        if !ok || landed { return ok; }
      }
      PlannedIsHeldPlanned(pool, live, world.memory);
      ok := true;
    }

    /** The next live auction's steps 4 and 5, unless a dry run recorded this version of it. */
    method WalkNext(pool: Pool, live: seq<(Row, Auction)>, i: nat, execute: bool, armed: bool, pass: TickPass)
      returns (ok: bool, landed: bool)
      requires Valid() && Synced(pass) && execute == world.memory.execute && OnWalk(pool) && i < |live|
      requires DistinctAccounts(RowsOf(live)) && forall row :: row in RowsOf(live) ==> row.pool == pool
      requires TriedBefore(live, i, world.memory) && PlannedBefore(live, i, world.memory)
      modifies world`run, world`memory, world`flight, world`lost, world`skips
      modifies pass`summary, pass.state, inventory
      ensures world.Valid() && world.lost == (old(world.lost) || !ok)
      ensures ok ==> Synced(pass) && SameTick(old(world.memory), world.memory)
      ensures ok ==> world.memory.tally == old(world.memory.tally).(planned := world.memory.tally.planned)
      ensures ok ==> world.memory.walk.Walk? && world.memory.walk.pool == pool
      ensures ok ==> (landed <==> world.memory.walk.landed)
      ensures ok ==> TriedBefore(live, i + 1, world.memory) && PlannedBefore(live, i + 1, world.memory)
    {
      var (row, auction) := live[i];
      assert row == RowsOf(live)[i] && row in RowsOf(live);
      if VersionOfEntry(row, auction) in pass.state.recordedDryRun {
        StillBeforeRecorded(live, i, world.memory);
        return true, false;
      }
      Untried(live, i, world.memory);
      ok, landed := PlanAndAct(row, auction, execute, armed, pass);
      if ok { StillBefore(live, i, old(world.memory), world.memory); }
    }

    /** One pool's steps 1 to 5. */
    method TickPool(pool: PoolConfig, execute: bool, armed: bool, pass: TickPass) returns (ok: bool)
      requires Valid() && Synced(pass) && execute == world.memory.execute
      modifies world, pass`summary, pass.state, inventory
      ensures world.Valid() && world.lost == (old(world.lost) || !ok) && (old(world.stopped) ==> world.stopped)
      ensures ok ==> Synced(pass) && SameTick(old(world.memory), world.memory)
      ensures ok ==>
        && world.memory.tally.walked == old(world.memory.tally).walked + [pool.address]
        && world.memory.tally.looked == old(world.memory.tally).looked
        && world.memory.tally.unwalked == []
      ensures ok && !world.stopped ==> WalkIsDone(pool.address, old(world.balks))
    {
      var rows := world.OpenAuctions(pool.address);
      if rows.None? { return false; }
      pass.state.PruneRecorded(pool.address, rows.value);
      ok := WalkRows(pool, rows.value, execute, armed, pass);
    }

    /** Steps 1 to 5 over the rows read. */
    method WalkRows(pool: PoolConfig, rows: seq<Row>, execute: bool, armed: bool, pass: TickPass) returns (ok: bool)
      requires Valid() && Synced(pass) && execute == world.memory.execute && OnWalk(pool.address)
      requires UniqueAccounts(rows) && forall row :: row in rows ==> row.pool == pool.address
      requires world.memory.walk.tries == map[]
      requires world.memory.tally.unwalked == rows && world.memory.tally.worth == {}
      requires world.memory.tally.seen == map[]
      modifies world, pass`summary, pass.state, inventory
      ensures world.Valid() && world.lost == (old(world.lost) || !ok) && (old(world.stopped) ==> world.stopped)
      ensures ok ==> Synced(pass) && SameTick(old(world.memory), world.memory)
      ensures ok ==>
        && world.memory.tally.walked == old(world.memory.tally).walked
        && world.memory.tally.looked == old(world.memory.tally).looked
        && world.memory.tally.unwalked == []
      ensures ok && !world.stopped ==> WalkIsDone(pool.address, old(world.balks))
    {
      var candidates := Consider(pool, rows, pass);
      if candidates == [] { return true; }
      ok := PlanCandidates(pool.address, candidates, execute, armed, pass);
    }

    /**
     Every row worth a chain read was read, and, unless a fill landed or the
     pool could not be read or planned, everything the chain holds was planned.
     */
    ghost predicate WalkIsDone(pool: Pool, balks: nat)
      reads world
    {
      && world.memory.walk.Walk? && world.memory.walk.pool == pool
      && world.memory.tally.worth <= world.memory.tally.seen.Keys
      && (world.balks == balks && world.memory.tick < U32_MAX ==>
            world.memory.walk.landed || HeldIsPlanned(pool, world.memory))
    }

    /** Steps 2 to 5 over the rows worth a chain read. */
    method PlanCandidates(pool: Pool, candidates: seq<Row>, execute: bool, armed: bool, pass: TickPass)
      returns (ok: bool)
      requires Valid() && Synced(pass) && execute == world.memory.execute && OnWalk(pool)
      requires world.memory.walk.tries == map[]
      requires world.memory.tally.seen == map[] && world.memory.tally.worth == AccountsOf(candidates)
      requires DistinctAccounts(candidates) && forall row :: row in candidates ==> row.pool == pool
      modifies world, pass`summary, pass.state, inventory
      ensures world.Valid() && world.lost == (old(world.lost) || !ok) && (old(world.stopped) ==> world.stopped)
      ensures ok ==> Synced(pass) && SameTick(old(world.memory), world.memory)
      ensures ok ==> SameTally(old(world.memory).tally, world.memory.tally)
      ensures ok && !world.stopped ==> WalkIsDone(pool, old(world.balks))
    {
      var live;
      ok, live := ReadEntries(pool, candidates, pass);
      if !ok { return false; }
      var stopping := world.ShuttingDown();
      if live == [] || stopping { return true; }
      ok := PlanRead(pool, live, execute, armed, pass);
    }

    /** Steps 3 to 5 over the live auctions, when the pool can be read and planned at all. */
    method PlanRead(pool: Pool, live: seq<(Row, Auction)>, execute: bool, armed: bool, pass: TickPass)
      returns (ok: bool)
      requires Valid() && Synced(pass) && execute == world.memory.execute && OnWalk(pool)
      requires DistinctAccounts(RowsOf(live)) && forall row :: row in RowsOf(live) ==> row.pool == pool
      requires world.memory.walk.tries == map[] && LiveIsHeld(live, world.memory.tally.seen)
      modifies world, pass`summary, pass.state, inventory
      ensures world.Valid() && world.lost == (old(world.lost) || !ok) && (old(world.stopped) ==> world.stopped)
      ensures ok ==> Synced(pass) && SameTick(old(world.memory), world.memory)
      ensures ok ==> world.memory.tally == old(world.memory.tally).(planned := world.memory.tally.planned)
      ensures ok ==> world.memory.walk.Walk? && world.memory.walk.pool == pool
      ensures ok && !world.stopped && world.balks == old(world.balks) && pass.tick < U32_MAX ==>
        world.memory.walk.landed || HeldIsPlanned(pool, world.memory)
    {
      var assets := world.ReadPool(AccountsOf(RowsOf(live)));
      if assets.None? { return true; }
      ghost var _ := RefreshInventory(assets.value, pass);
      var plannable := world.PoolPlannable();
      if !plannable || pass.tick == U32_MAX { return true; }
      ok := WalkLive(pool, live, execute, armed, pass);
    }

    // ----- the unwind passes ----------------------------------------------

    /** Every pending pool's pass, in configured order; with no key there is nothing to unwind. */
    method UnwindPasses(execute: bool, armed: bool, pass: TickPass)
      requires Valid() && Synced(pass) && execute == world.memory.execute && world.memory.tally.looked == []
      modifies world, pass`summary, pass.state, inventory
      ensures Synced(pass) && world.lost == old(world.lost) && (old(world.stopped) ==> world.stopped)
      ensures SameTick(old(world.memory), world.memory)
      ensures world.memory.tally.walked == old(world.memory.tally).walked
      ensures Selects(AddressesOf(config.pools), world.memory.tally.looked)
      ensures !world.stopped ==> ReadyIsLooked(AddressesOf(config.pools), world.memory)
    {
      world.UnwindsBegin();
      SelectsAmongMore(AddressesOf(config.pools), 0, world.memory.tally.looked);
      if config.signer.None? {
        DropPending(pass, old(world.memory));
      } else {
        UnwindEach(execute, armed, pass);
      }
    }

    /** Without a key the passes are owed by no one, and their gates with them. */
    method DropPending(pass: TickPass, ghost before: Memory)
      requires Valid() && config.signer.None? && Holds(pass, before) && world.memory == Passing(config, before)
      requires world.Valid() && world.flight == GROUNDED && world.memory.duty.None? && WalletSynced()
      modifies pass.state`unwindPending, pass.state`unwindAfter
      ensures Synced(pass) && world.memory.mind.pending == {}
    {
      if pass.state.unwindPending != {} {
        pass.state.unwindPending, pass.state.unwindAfter := {}, map[];
      }
    }

    /** One pass after another, until a shutdown. */
    method UnwindEach(execute: bool, armed: bool, pass: TickPass)
      requires Valid() && Synced(pass) && execute == world.memory.execute && config.signer.Some?
      requires world.memory.tally.looked == []
      modifies world, pass`summary, pass.state, inventory
      ensures Synced(pass) && world.lost == old(world.lost) && (old(world.stopped) ==> world.stopped)
      ensures SameTick(old(world.memory), world.memory)
      ensures world.memory.tally.walked == old(world.memory.tally).walked
      ensures Selects(AddressesOf(config.pools), world.memory.tally.looked)
      ensures !world.stopped ==> ReadyIsLooked(AddressesOf(config.pools), world.memory)
    {
      ghost var all := AddressesOf(config.pools);
      for i := 0 to |config.pools|
        invariant Synced(pass) && SameTick(old(world.memory), world.memory)
        invariant world.lost == old(world.lost) && world.stopped == old(world.stopped)
        invariant world.memory.tally.walked == old(world.memory.tally).walked
        invariant PassesDone(all, i, world.memory)
      {
        var stopping := world.ShuttingDown();
        if stopping {
          SelectsAmongMore(all, i, world.memory.tally.looked);
          return;
        }
        ghost var before := world.memory;
        UnwindIfReady(config.pools[i], execute, armed, pass);
        PassesOneMore(all, i, before, world.memory);
      }
      assert all[..|all|] == all;
    }

    /** A pool that is pending, and not backing off, gets its pass. */
    method UnwindIfReady(pool: PoolConfig, execute: bool, armed: bool, pass: TickPass)
      requires Valid() && Synced(pass) && config.signer.Some? && pool in config.pools
      requires execute == world.memory.execute
      modifies world`run, world`memory, world`flight, world`lost, world`balks, pass`summary, pass.state, inventory
      ensures Synced(pass) && SameTick(old(world.memory), world.memory) && world.lost == old(world.lost)
      ensures OthersAsReady(old(world.memory), world.memory, pool.address)
      ensures world.memory.tally ==
        var tally := old(world.memory.tally);
        if Ready(old(world.memory), pool.address) then tally.(looked := tally.looked + [pool.address]) else tally
      ensures Ready(world.memory, pool.address) ==> pool.address in world.memory.tally.looked
    {
      var address := pool.address;
      if address in pass.state.unwindPending
        && (address in pass.state.unwindSetbacks ==> pass.state.unwindSetbacks[address].retryAt <= pass.tick)
      {
        UnwindPool(pool, execute, armed, pass);
      }
    }

    /** One pool's pass: its own snapshot, the gate, the plan and what became of it. */
    method UnwindPool(pool: PoolConfig, execute: bool, armed: bool, pass: TickPass)
      requires Valid() && Synced(pass) && config.signer.Some? && pool in config.pools
      requires Ready(world.memory, pool.address) && execute == world.memory.execute
      modifies world`run, world`memory, world`flight, world`lost, world`balks, pass`summary, pass.state, inventory
      ensures Synced(pass) && SameTick(old(world.memory), world.memory) && world.lost == old(world.lost)
      ensures OthersAsReady(old(world.memory), world.memory, pool.address)
      ensures world.memory.tally ==
        old(world.memory.tally).(looked := old(world.memory.tally).looked + [pool.address])
    {
      var read := world.ReadPosition(pool.address);
      if read.None? { return; }
      if pool.address in pass.state.unwindAfter {
        var landed := pass.state.unwindAfter[pool.address];
        if landed.None? || read.value.ledger < landed.value { return; }
      }
      if read.value.empty {
        NoteEmpty(pool.address, pass.state);
        return;
      }
      PlanPass(pool, read.value, execute, armed, pass);
    }

    /** A pool with no position is done with, gate and all. */
    method NoteEmpty(pool: Pool, state: FillerState)
      modifies state`unwindPending, state`leftoversNotified, state`unwindAfter, state`unwindSetbacks
      ensures state.Held() ==
        old(state.Held()).Settled(pool).(after := old(state.unwindAfter) - {pool},
                                         leftovers := old(state.leftoversNotified) - {pool})
    {
      state.unwindPending := state.unwindPending - {pool};
      state.leftoversNotified := state.leftoversNotified - {pool};
      state.unwindAfter := state.unwindAfter - {pool};
      ClearSetback(pool, state);
    }

    /** The pass of a pool whose snapshot holds what it is owed and shows a position. */
    method PlanPass(pool: PoolConfig, snapshot: Snapshot, execute: bool, armed: bool, pass: TickPass)
      requires Valid() && Owing(pass) && config.signer.Some? && pool in config.pools
      requires world.memory.pass == Looking(pool.address, snapshot)
      requires world.memory.duty == Some(PassOwed(pool.address)) && execute == world.memory.execute
      modifies world`run, world`memory, world`flight, world`lost, world`balks, pass`summary, pass.state, inventory
      ensures Synced(pass) && PassGoesOn(old(world.memory), world.memory, pool.address)
      ensures world.lost == old(world.lost)
    {
      ghost var _ := RefreshInventory(snapshot.assets, pass);
      var accrues := world.PoolPlannable();
      if !accrues {
        world.Blocks(pool.address);
        return;
      }
      PlanAccrued(pool, snapshot, execute, armed, pass);
    }

    /** The plan against reserves that accrue, and what becomes of it. */
    method PlanAccrued(pool: PoolConfig, snapshot: Snapshot, execute: bool, armed: bool, pass: TickPass)
      requires Valid() && Owing(pass) && pool in config.pools
      requires world.memory.pass == Looking(pool.address, snapshot)
      requires world.memory.duty == Some(PassOwed(pool.address)) && execute == world.memory.execute
      modifies world`run, world`memory, world`flight, pass`summary, pass.state, inventory
      ensures Synced(pass) && PassGoesOn(old(world.memory), world.memory, pool.address)
    {
      var built := world.PlanUnwind(pool, snapshot);
      if built.None? { return; }
      if built.value.IsIdle() {
        NoteIdle(pool.address, snapshot, built.value, pass, old(world.memory));
      } else if execute {
        ExecuteUnwind(pool.address, built.value, armed, pass);
      }
    }

    /** An idle pass: the pool is unwound as far as it can be, and its leftovers are told once. */
    method NoteIdle(pool: Pool, snapshot: Snapshot, plan: UnwindPlan, pass: TickPass, ghost before: Memory)
      requires Valid() && world.Valid() && world.flight == GROUNDED && WalletSynced() && Holds(pass, before)
      requires plan.IsIdle()
      requires world.memory == UnwindBuilt(before, pool, snapshot, Some(plan))
      modifies world`run, world`memory, world`flight
      modifies pass.state`unwindPending, pass.state`unwindSetbacks, pass.state`leftoversNotified
      ensures Synced(pass) && PassGoesOn(before, world.memory, pool)
    {
      pass.state.unwindPending := pass.state.unwindPending - {pool};
      ClearSetback(pool, pass.state);
      if plan.remaining == [] {
        pass.state.leftoversNotified := pass.state.leftoversNotified - {pool};
      } else if pool !in pass.state.leftoversNotified {
        TellLeftovers(pool, pass.state);
      }
    }

    /** Tells of leftovers; a telling the notifier dropped is taken back, so the next idle pass tries again. */
    method TellLeftovers(pool: Pool, state: FillerState)
      requires world.Valid() && world.flight == GROUNDED && world.memory.duty == Some(Tell(UnwindLeftovers, pool))
      requires pool !in state.leftoversNotified
      modifies world`run, world`memory, world`flight, state`leftoversNotified
      ensures world.Valid() && world.flight == GROUNDED
      ensures exists delivery ::
        && world.memory == Told(old(world.memory), UnwindLeftovers, pool, delivery)
        && state.leftoversNotified ==
             if delivery == Dropped then old(state.leftoversNotified) else old(state.leftoversNotified) + {pool}
    {
      state.leftoversNotified := state.leftoversNotified + {pool};
      var delivery := world.Notify(UnwindLeftovers, pool);
      if delivery.Dropped? {
        state.leftoversNotified := state.leftoversNotified - {pool};
      }
    }

    /** The settlement this mode demands, one call to the executor, and what its answer means. */
    method ExecuteUnwind(pool: Pool, plan: UnwindPlan, armed: bool, pass: TickPass)
      requires Valid() && Owing(pass) && world.memory.execute && world.memory.duty == Some(SendOwed(pool, plan))
      requires world.memory.pass.Built? && world.memory.pass.pool == pool && world.memory.pass.plan == plan
      modifies world`run, world`memory, world`flight, pass`summary, pass.state, inventory
      ensures Synced(pass) && PassGoesOn(old(world.memory), world.memory, pool)
    {
      var settlement := TakeUnwindSettlement(pool, plan, pass);
      if settlement.None? { return; }
      ghost var before := world.memory;
      var answer := CarryUnwind(pool, plan, settlement.value, armed);
      if answer.UnwindFailed? {
        NoteSetback(pool, answer, pass, before, Spend(settlement.value));
      } else {
        NoteUnwound(pool, answer, pass, before, Spend(settlement.value));
      }
    }

    method TakeUnwindSettlement(pool: Pool, plan: UnwindPlan, pass: TickPass) returns (settlement: Option<Settlement>)
      requires Valid() && Owing(pass) && world.memory.duty == Some(SendOwed(pool, plan))
      requires world.memory.pass.Built? && world.memory.pass.pool == pool
      modifies world`run, world`memory, world`flight, pass`summary, inventory`reserved
      ensures world.Valid() && Holds(pass, world.memory) && inventory.balances == world.memory.wallet
      ensures settlement.Some? <==> config.dryRun || old(inventory.Affords(plan.spend))
      ensures settlement.Some? ==> (settlement.value.Live? <==> !config.dryRun)
      ensures settlement.None? ==> Synced(pass) && world.memory == Unfundable(old(world.memory))
      ensures settlement.Some? ==> world.memory == old(world.memory) && Settles(settlement.value, plan.spend)
      ensures settlement.Some? && settlement.value.Live? ==> fresh(settlement.value.reservation)
    {
      if config.dryRun { return Some(DryRun); }
      inventory.AffordedIsFunded(config, plan.spend);
      var claim := inventory.Reserve(plan.spend);
      if claim.None? {
        world.CannotFundUnwind(pool);
        Skipped(pass);
        return None;
      }
      world.Claims(plan.spend);
      SettledClaimLeavesNothing(old(inventory.reserved), plan.spend);
      return Some(Live(claim.value));
    }

    /** The executor's call itself; an unwind writes no row, so it cannot lose the store. */
    method CarryUnwind(pool: Pool, plan: UnwindPlan, settlement: Settlement, armed: bool) returns (answer: UnwindAnswer)
      requires Valid() && world.Valid() && world.memory.duty == Some(SendOwed(pool, plan)) && world.memory.execute
      requires world.memory.pass.Built? && world.memory.pass.pool == pool && world.memory.pass.plan == plan
      requires Settles(settlement, plan.spend) && inventory.balances == world.memory.wallet
      modifies world`run, world`memory, world`flight, inventory
      modifies if settlement.Live? then {settlement.reservation} else {}
      ensures world.Valid() && world.flight == GROUNDED && WalletSynced()
      ensures world.memory ==
        UnwindDone(config, UnwindNet(UnwindTaken(old(world.memory)), pool, Spend(settlement), answer), pool, answer)
    {
      world.HandsOverUnwind(pool, plan);
      ghost var talk;
      answer, talk := executor.Unwind(pool, plan, settlement, armed);
      UnwindAnswerTells(config, settlement.Live?, armed, plan, talk, UnwindTaken(old(world.memory)), pool,
                        Spend(settlement));
      NothingSpent(old(world.memory).wallet);
    }

    /** What an unwind's answer means for the pending set, the tick's counts and the pool's setbacks. */
    method NoteUnwound(pool: Pool, answer: UnwindAnswer, pass: TickPass, ghost before: Memory, ghost spend: Amounts)
      requires Valid() && world.Valid() && world.flight == GROUNDED && WalletSynced() && Holds(pass, before)
      requires !answer.UnwindFailed?
      requires world.memory == UnwindDone(config, UnwindNet(UnwindTaken(before), pool, spend, answer), pool, answer)
      modifies world`run, world`memory, world`flight, pass`summary
      modifies pass.state`unwindPending, pass.state`unwindSetbacks, pass.state`inventoryStale, pass.state`unwindAfter
      ensures Synced(pass) && PassGoesOn(before, world.memory, pool)
    {
      match answer {
        case PlannedOnly(_) =>
          ClearSetback(pool, pass.state);
          if config.dryRun {
            pass.state.unwindPending := pass.state.unwindPending - {pool};
            pass.summary := pass.summary.(unwound := pass.summary.unwound + 1);
          }
        case Submitted(outcome) =>
          if MayHaveLanded(outcome) {
            NoteLanded(pool, outcome, pass, before, spend);
          } else {
            NoteSetback(pool, answer, pass, before, spend);
          }
        case UnwindRefused(_) => NoteSetback(pool, answer, pass, before, spend);
        case UnwindStale => NoteSetback(pool, answer, pass, before, spend);
      }
    }

    /** An unwind that landed or may have: the pool stays pending, gated at its ledger. */
    method NoteLanded(pool: Pool, outcome: TxOutcome, pass: TickPass, ghost before: Memory, ghost spend: Amounts)
      requires Valid() && world.Valid() && world.flight == GROUNDED && WalletSynced() && Holds(pass, before)
      requires MayHaveLanded(outcome)
      requires world.memory == UnwindDone(config, UnwindNet(UnwindTaken(before), pool, spend, Submitted(outcome)), pool,
                                          Submitted(outcome))
      modifies pass`summary
      modifies pass.state`unwindSetbacks, pass.state`inventoryStale, pass.state`unwindAfter
      ensures Synced(pass) && PassGoesOn(before, world.memory, pool)
    {
      pass.state.inventoryStale := true;
      pass.state.unwindAfter := pass.state.unwindAfter[pool := LandingLedger(outcome)];
      ClearSetback(pool, pass.state);
      pass.summary := pass.summary.(unwound := pass.summary.unwound + 1);
    }

    /** A pass that moved nothing: held off twice as long as the last, and told on the third. */
    method NoteSetback(pool: Pool, answer: UnwindAnswer, pass: TickPass, ghost before: Memory, ghost spend: Amounts)
      requires Valid() && world.Valid() && world.flight == GROUNDED && WalletSynced() && Holds(pass, before)
      requires !answer.PlannedOnly? && (answer.Submitted? ==> !MayHaveLanded(answer.outcome))
      requires world.memory == UnwindDone(config, UnwindNet(UnwindTaken(before), pool, spend, answer), pool, answer)
      modifies world`run, world`memory, world`flight, pass.state`unwindSetbacks
      ensures Synced(pass) && PassGoesOn(before, world.memory, pool)
    {
      var setback := if pool in pass.state.unwindSetbacks then pass.state.unwindSetbacks[pool] else NO_SETBACK;
      var count := SaturatingAdd(setback.count, 1);
      var retryAt := SaturatingAdd(pass.tick, Backoff(count));
      pass.state.unwindSetbacks := pass.state.unwindSetbacks[pool := Setback(count, retryAt)];
      if count == UNWIND_SETBACK_ALERT {
        var _ := world.Notify(UnwindStuck, pool);
      }
    }

    // ----- the tick -------------------------------------------------------

    /** Between ticks: everything held is what the run remembers, and nothing is in flight or owed. */
    ghost predicate Rested(state: FillerState)
      reads world, inventory, state
    {
      && world.Valid() && world.flight == GROUNDED && world.memory.duty.None?
      && state.Agrees(world.memory) && world.skips == world.memory.skipTotals && WalletSynced()
    }

    /** One tick; `ok` is false only when the store was lost, which ends the run. */
    method Tick(state: FillerState, sequence: u32, execute: bool, armed: bool) returns (ok: bool, summary: Summary)
      requires Valid() && Rested(state)
      modifies world, state, inventory
      ensures world.Valid() && world.lost == (old(world.lost) || !ok) && (old(world.stopped) ==> world.stopped)
      ensures ok ==> Rested(state) && summary == world.memory.summary
      ensures ok ==> world.memory.tick == sequence && world.memory.execute == execute
      ensures ok ==> world.memory.tally.walked <= AddressesOf(config.pools)
      ensures ok ==> Selects(AddressesOf(config.pools), world.memory.tally.looked)
      ensures ok && !world.stopped ==>
        world.memory.tally.walked == AddressesOf(config.pools) && ReadyIsLooked(AddressesOf(config.pools), world.memory)
    {
      var pass := BeginTick(state, sequence, execute);
      ok := WalkPools(execute, armed, pass);
      if !ok { return false, pass.summary; }
      UnwindPasses(execute, armed, pass);
      return true, pass.summary;
    }

    /** The tick's own state; the first tick owes every configured pool a pass. */
    method BeginTick(state: FillerState, sequence: u32, execute: bool) returns (pass: TickPass)
      requires Valid() && Rested(state)
      modifies world`run, world`memory, world`flight, state`unwindSeeded, state`unwindPending
      ensures fresh(pass) && pass.state == state && Synced(pass)
      ensures world.memory == Begun(config, old(world.memory), sequence, execute)
    {
      world.TickBegins(sequence, execute);
      if !state.unwindSeeded {
        state.unwindSeeded := true;
        state.unwindPending := state.unwindPending + config.Addresses();
      }
      pass := new TickPass(sequence, state);
    }

    /** The fill walk over every configured pool, until a shutdown. */
    method WalkPools(execute: bool, armed: bool, pass: TickPass) returns (ok: bool)
      requires Valid() && Synced(pass) && execute == world.memory.execute && world.memory.tally.walked == []
      modifies world, pass, pass.state, inventory
      ensures world.Valid() && world.lost == (old(world.lost) || !ok) && (old(world.stopped) ==> world.stopped)
      ensures ok ==> Synced(pass) && SameTick(old(world.memory), world.memory)
      ensures ok ==> world.memory.tally.looked == old(world.memory.tally).looked
      ensures ok ==> world.memory.tally.walked <= AddressesOf(config.pools)
      ensures ok && !world.stopped ==> world.memory.tally.walked == AddressesOf(config.pools)
    {
      for i := 0 to |config.pools|
        invariant Synced(pass) && SameTick(old(world.memory), world.memory)
        invariant world.lost == old(world.lost) && (old(world.stopped) ==> world.stopped)
        invariant world.memory.tally.looked == old(world.memory.tally).looked
        invariant world.memory.tally.walked == AddressesOf(config.pools)[..i]
      {
        var stopping := world.ShuttingDown();
        if stopping { return true; }
        ok := TickPool(config.pools[i], execute, armed, pass);
        if !ok { return false; }
      }
      ok := true;
    }
  }

  // ----- the service's loop -----------------------------------------------

  /** Whether the chain has moved `delay` ledgers past the first tick seen. */
  ghost predicate DelayPassed(seen: seq<u32>, delay: u32) {
    exists i :: 0 <= i < |seen| && SaturatingSub(seen[i], seen[0]) >= delay
  }

  class StartupGate {
    var firstTick: Option<u32>
    var unlocked: bool
    ghost var seen: seq<u32>
    const delay: u32

    ghost predicate Valid()
      reads this
    {
      && firstTick == (if seen == [] then None else Some(seen[0]))
      && (unlocked <==> DelayPassed(seen, delay))
    }

    constructor (delay: u32)
      ensures Valid() && seen == [] && this.delay == delay
    {
      firstTick, unlocked, seen, this.delay := None, false, [], delay;
    }

    /** Latches: once the delay has passed it has passed for the run. */
    method Observe(tick: u32) returns (execute: bool)
      requires Valid()
      modifies this
      ensures Valid() && seen == old(seen) + [tick]
      ensures execute <==> DelayPassed(seen, delay)
    {
      var first := if firstTick.Some? then firstTick.value else tick;
      firstTick := Some(first);
      ghost var before := seen;
      seen := seen + [tick];
      assert forall i :: 0 <= i < |before| ==> seen[i] == before[i];
      assert seen[|before|] == tick;
      if !unlocked && SaturatingSub(tick, first) >= delay {
        unlocked := true;
      }
      execute := unlocked;
    }
  }

  /** The filler's task: a fresh state, one tick per ledger published, until shutdown or a lost store. */
  method FillerLoop(filler: Filler, delay: u32, armed: bool, ticks: seq<u32>) returns (ok: bool, state: FillerState)
    requires filler.Valid() && filler.world.Valid()
    requires filler.world.run == Start && filler.world.skips == multiset{}
    requires filler.inventory.balances == map[] && filler.inventory.reserved == map[]
    modifies filler.world, filler.inventory
    ensures filler.world.Valid() && filler.world.lost == (old(filler.world.lost) || !ok)
    ensures fresh(state) && (ok ==> filler.Rested(state))
    ensures ok && !filler.world.stopped && ticks != [] ==>
      && filler.world.memory.tick == ticks[|ticks| - 1]
      && (filler.world.memory.execute <==> DelayPassed(ticks, delay))
  {
    state := new FillerState();
    var gate := new StartupGate(delay);
    for i := 0 to |ticks|
      invariant fresh(state) && fresh(gate) && gate.Valid() && gate.seen == ticks[..i]
      invariant gate.delay == delay
      invariant filler.Rested(state) && filler.world.lost == old(filler.world.lost)
      invariant !filler.world.stopped && i > 0 ==>
        && filler.world.memory.tick == ticks[i - 1]
        && (filler.world.memory.execute <==> DelayPassed(ticks[..i], delay))
    {
      var stopping := filler.world.ShuttingDown();
      if stopping { return true, state; }
      var execute := gate.Observe(ticks[i]);
      assert ticks[..i + 1] == ticks[..i] + [ticks[i]];
      var summary;
      ok, summary := filler.Tick(state, ticks[i], execute, armed);
      if !ok { return false, state; }
    }
    assert ticks[..|ticks|] == ticks;
    ok := true;
  }
}
