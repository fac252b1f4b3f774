# Verification of the liquidation bot's filler, executor and auctioneer

This project models the parts of the bot whose guarantees span whole runs, and proves them in Dafny. Check it with
`dafny verify dfyconfig.toml`.

## What is modelled

The **filler** (`Filling`) is a class with the source's own state and methods: the fill walk over every pool's open
auctions, one re-plan at half the refused percent, and one unwind pass per pending pool. It calls the **executor**
(`Execution`), which guards the mode, asks the contract, writes the audit row, hands the operation to the queue, names
the row and settles the **reservation** (`Inventories`).

Everything outside is the **world** (`Environment`): each chain read, simulation, planner, store write, queue answer and
notification answers anything at all, apart from the promises named below. Each question leaves an event on a ghost
run, and may be put only when `Machine.Allowed` says so; `Machine.Step` says what an event means for what a run
remembers, and what it obliges the filler to do next (`Machine.Duty`): a draft must be written, one whose ledger has
come must be executed or given up on, a health refusal must be planned again, a refused row must be cleared and told
of, a position read must be planned and its plan sent. Nothing else may happen while a duty is outstanding; a helper
method may return owing one to its caller, and says so, but nothing is owed at the end of a tick, so a skipped step
shows. After every tick that did not lose the store, everything the filler holds (`unwind_pending`, `unwind_after`,
`unwind_setbacks`, `leftovers_notified`, `recorded_dry_run`, `counted_skips`, `last_planned`, the wallet, the counters,
the tick's summary) is exactly what its run remembers, and at every moment the run is `Kept`: every event of it was
allowed. So a lemma about every `Kept` run is a statement about everything the filler can do, against lagging
snapshots, lagging rows, unresolved submissions, refusals and failed reads.

The run theorems read their subject off the events alone (the newest landing, what a pool is owed, the episode of
setbacks, the deliveries, the decisions, the journey of an operation) and prove that the filler's memory says the same:

| module | subject |
|---|---|
| `Runs`, `Lanes` | which events touch what; each pool's memory moves on its own |
| `Gates` | the high-water gate, and no stranded position |
| `Backoffs`, `Leftovers` | setback spacing and its one alert; the leftovers alert per episode |
| `Walks`, `Audits` | the walk's discipline; what must stand behind everything sent |
| `Sightings` | dry runs once per version; skips once per decision |
| `Wallets` | coverage of wallet reads; conservation of balances |
| `FloorSafety` | no unwind takes the primary below its floor |

Beside them:

| module | subject |
|---|---|
| `Rates`, `Projection` | the pool's collateral arithmetic, and what a position is worth |
| `Unwinding`, `Limits` | the unwind planner: what it plans, exactly; and that it leaves nothing it could have moved |
| `Queues` | the submission queue of the one key |
| `FixedPoint`, `Decimals` | checked fixed-point division; decimal parsing |
| `Prices`, `Percents`, `Decisions`, `Creations` | the oracle scan's price watch, the percent walk, the batch decision, acting on one |
| `ScriptLines`, `Scripts`, `Runners` | the reading of the runner script, and what the bot it starts may inherit |

## What is assumed of the world

- The open rows of a pool are that pool's, and name an account's liquidation at most once: the primary key of the
  `auctions` table (`migrations/0001_initial.sql:57-68`).
- The fill planner never plans more than the percent it is given. The unwind planner withdraws the primary at most down
  to its floor at the rate it accrued to (`Rates.WithinExcess`), which `Unwinding.Planner.Plan` proves of the source's
  planner.
- A wallet read answers for exactly the assets asked for, and a planning rate is positive.
- `FloorSafety.Honest`, for floor safety only: the filler's primary collateral moves only by its own landed submissions,
  an unwind moves it as the contract does at whatever rate the contract then has, a pool's submissions land in ledgers
  that never decrease, and a snapshot shows the level of some moment of the run past every landing up to its ledger. So
  no submission made before the run lands during it, and a snapshot older than the run shows what the run began with;
  `Witness.ASnapshotFromBeforeBreaksTheFloor` shows what happens otherwise. Nothing is assumed there of any rate.
- That the rate a plan accrued to is not ahead of the one it lands at. It is assumed by
  `FloorSafety.EveryUnwindKeepsTheFloor` and by nothing else; the next section says what holds without it.
- Submissions of one key land in order: one known to have succeeded leaves no earlier one unresolved
  (`FloorSafety.Limbo`). `Queues.KnownLeavesNothingOpen` and `Queues.UnknownLeavesTheKeyUnused` prove it of the queue.
- `Gates.LandingsRise`, only where a statement is about every landing rather than the newest. A pool address names one
  configured pool.

## What came out false, or finer than the source says

- Floor safety is not unconditional. A plan is made at the rate the reserves are accrued to, past the snapshot; when
  that projection runs ahead of the rate the withdrawal lands at, the floor is broken
  (`FloorSafety.AProjectionAheadBreaksTheFloor`, and `Witness.AnUnwindPlannedAheadBreaksTheFloor` over a whole run).
  `FloorSafety.KeepsTheFloorIff` says exactly when an applied unwind keeps it: when what it withdraws is within the
  excess at the landing rate. `FloorSafety.EveryShortfallIsBounded` bounds the rest by what the projection ran ahead.
- The setback bound is not unconditional. `retry_at` saturates at the largest ledger, so near it a hold is cut short
  (`Backoffs.SaturationShortensTheHold`); `Witness.TheBackoffBoundFails` is a run in which it does.
  `Backoffs.SetbacksBackOff` gives the exact bound and
  `Backoffs.BackoffBoundHoldsIff` says when the plain one holds: while the ledger it names exists.
- The queue's rule that nothing is prepared while an earlier transaction of the key is unresolved does not hold of a
  restore transaction left unresolved: its submission is answered a failure and the next is prepared
  (`Queues.ALooseRestoreHoldsNothing`). It holds exactly when, after every restore left so, no later submission was come
  to before the shutdown flag was read set (`Queues.PreparesAloneExactly`); where every submission was answered, that is
  exactly when every later one was turned away for the shutdown (`Queues.TurnsAwayExactly`). Of submitted operations it
  always holds (`Queues.OneAtATime`).
- The source calls the back-off of a partial withdrawal a guard, and it is: it never acts, because the formula's own
  amount always stands, whatever the roundings (`Projection.FormulaIsAccepted`, `Unwinding.PartStands`). Its loop is
  modelled all the same (`Unwinding.Planner.BackOff`).
- That a partial withdrawal is the largest the bounds allow is not unconditional: the formula holds a position to the
  margin itself, and the health test to what the oracle's unit shows of it. For every terms and unit, the planner leaves
  nothing it could have moved, of any position, exactly when the unit times the margin is a whole number of the margin's
  seven decimals, or no margin is asked, or neither the margin nor a minimum can be fallen short of at all
  (`Limits.NothingMoreExactly`). The first is so of every unit of seven decimals or more
  (`Limits.SevenDecimalsLeaveNothing`). Where none of the three is so there is always a position of which more could
  have gone (`Limits.AGapLeavesSome`), as on an oracle of one decimal at a common margin
  (`Limits.ACoarseOracleLeavesSome`).
- A price threshold of zero reports every reading of a known asset, unmoved ones included
  (`Prices.NoThresholdReportsEverything`); the drift bound therefore speaks of silent stretches, which need a threshold
  of at least one.
- A clarification: the comment on `unwind_after` says an entry is dropped only where the pool is cleared. That is so,
  but not every clearing drops it: an idle plan clears the pool and keeps the entry, and only an empty position and a
  run with no key drop it (`Gates.GateDropsWithThePool`). Nothing is lost: the entry that stays names the pool's newest
  landing (`Gates.GateFollowsLandings`).

## Model

| member | source | states |
|---|---|---|
| Filling.Filler.Tick | src/filler.rs:577-610 | from any state that agrees with the run, a tick ends with everything the filler holds exactly what the run remembers and nothing in flight, owed or reserved, unless the store was lost; every step it took was allowed; it walked the configured pools in order, and looked at pools in configured order; and unless a shutdown was seen it walked them all and looked at every pool pending and not held back |
| Filling.FillerLoop | src/service.rs:2116-2160 | from a fresh state, any number of ticks end in agreement with a kept run unless the store was lost, the last tick given is the one made, and it executed exactly if the delay had passed |
| Filling.StartupGate.Observe | src/service.rs:1818-1832 | execution is allowed exactly once some tick seen was the delay or more past the first, and stays allowed |
| Filling.Filler.TickPool | src/filler.rs:613-703 | every open row is walked and every row worth it read; and unless a fill landed or the pool could not be read or planned, everything the chain holds was planned or is of a version a dry run recorded |
| Filling.Filler.WalkLive | src/filler.rs:667-703 | every live auction is planned or already recorded, until a fill lands or may have, which ends the walk |
| Filling.Filler.WalkPools | src/filler.rs:594-603 | the configured pools are walked in order, and all of them unless a shutdown is seen or the store is lost |
| Filling.Filler.IsConsidered | src/filler.rs:746-783 | a row is kept exactly when it is a foreign user liquidation of supported assets, unrecorded and due (`Machine.Worth`); an unsupported one is counted once |
| Filling.Filler.ReadEntries | src/filler.rs:791-828 | what is live is the rows the chain holds entries for, each account once; the rest is closed and forgotten |
| Filling.Filler.RefreshInventory | src/filler.rs:835-882 | a keyed refresh leaves the pool's assets covered unless the read failed, and a read asks for everything any pool named |
| Filling.Filler.PlanAndAct | src/filler.rs:1005-1037 | plans at the whole auction, writes, and executes only when allowed and due; says truly whether the walk must end |
| Filling.Filler.TryDraft | src/filler.rs:1041-1088 | a draft within the percent asked, or the skip counted once, the operator told of a wallet shortfall, and the plan cleared |
| Filling.Filler.WritePlan | src/filler.rs:1093-1132 | a written plan is dated and counted; a row that has gone changes nothing |
| Filling.Filler.ExecuteDraft | src/filler.rs:1145-1192 | a recorded fill is noted, a health refusal is planned once more, another refusal is one counted skip, a stale plan is cleared and forgotten |
| Filling.Filler.PlanAgain | src/filler.rs:1199-1265 | the one re-plan is drafted at half the refused percent and meets the same gate |
| Filling.Filler.ExecuteOnce | src/filler.rs:1274-1376 | one call to the executor under the settlement the mode demands, with its claim settled when it returns |
| Filling.Filler.NoteRecorded | src/filler.rs:1424-1495 | a landed or unresolved fill makes its pool pending, gated and unbacked-off, and the wallet stale; the operator is told of a known outcome |
| Filling.Filler.UnwindPasses | src/filler.rs:1571-1615 | the pools looked at come in configured order, and unless a shutdown is seen every pending pool not held back is among them; with no key the pending set is dropped |
| Filling.Filler.UnwindPool | src/filler.rs:1621-1725 | the gate comes before the position is looked at, an empty position clears the pool, and otherwise the plan decides |
| Filling.Filler.NoteIdle | src/filler.rs:1752-1801 | an idle pass ends the pending, tells of leftovers once, and takes a dropped telling back |
| Filling.Filler.NoteUnwound | src/filler.rs:1866-1961 | what each answer to an unwind means for the pool, its gate and its setbacks |
| Filling.Filler.NoteSetback | src/filler.rs:1974-2009 | one setback more, held off by its backoff, and told on the third |
| Filling.FillerState.PruneRecorded | src/filler.rs:378-399 | keeps exactly the versions and skips whose account an open liquidation names no later than they started |
| Filling.FillerState.Closed | src/filler.rs:352-356 | forgets every version and the plan date of a closed auction's account, and nothing else |
| Execution.Executor.Execute | src/executor.rs:505-519 | one answer, one settlement: the answer, the run and what becomes of the reservation are functions of what the world answered |
| Execution.Executor.Unwind | src/executor.rs:899-930 | likewise for an unwind, where an idle plan sends nothing |
| Execution.Executor.Guard | src/executor.rs:537-574 | goes on exactly with the compositions allowed, answers the mode error for exactly the four refused, and releases what it refuses |
| Execution.Executor.RunFill | src/executor.rs:582-648 | judgment, row and submission in that order, each only after the one before went through |
| Execution.Executor.SubmitRecorded | src/executor.rs:674-745 | the settlement is the queue's answer, read before the hash is written |
| Execution.Executor.JudgeOperation | src/executor.rs:808-860 | the exact operation the queue would send is what the contract is asked about |
| Execution.Executor.FillRequests | src/executor.rs:222-248 | the fill first, then the draft's actions in order, each as its own request |
| Settlements.ConsumedAsTheChainAnswered | src/executor.rs:376-401 | a reservation is consumed exactly when the fill landed or may have, though the hash write then fails |
| Settlements.UnwindConsumedAsTheChainAnswered | src/executor.rs:1005-1045 | an unwind's reservation is consumed exactly when it landed or may have |
| Settlements.SendsOnlyWhatItShould | src/executor.rs:582-648 | what reaches the queue was armed, keyed, live, passed and recorded; a refused or failed simulation leaves no row |
| Settlements.OnlyHealthRefusalsReplan | src/executor.rs:407-416 | a re-plan is answered exactly for the two health refusals, from the simulation or the queue's prepare |
| Inventories.Inventory.Reserve | src/inventory.rs:172-207 | claims every amount or none, exactly when each is positive and free |
| Inventories.Reservation.Consume | src/inventory.rs:226-233 | a claim is taken out of the wallet and what is held, and cannot be settled again |
| Inventories.Reservation.Release | src/inventory.rs:236-240 | a claim is given back, and cannot be settled again |
| Inventories.SettledClaimLeavesNothing | src/inventory.rs:172-240 | a claim taken on an unclaimed wallet and settled leaves nothing held |
| Lanes.LaneMoves | src/filler.rs:222-328 | in every run each pool's pending mark, gate, setbacks and leftovers mark move by its own events alone |
| Gates.GateFollowsLandings | src/filler.rs:1467-1485 | in every state a gate names the pool's newest landing, and a pending pool with no gate had none |
| Gates.PlannedOnlyPastTheNewestLanding | src/filler.rs:1641-1674 | no unwind is planned but against a snapshot at or past the pool's newest landing, nor while that one is unresolved |
| Gates.PlannedPastEveryLanding | src/filler.rs:288-327 | and, where landing ledgers never decrease, past every known landing of the pool in the run |
| Gates.GateDropsWithThePool | src/filler.rs:1577-1584 | a gate is dropped only by an empty position past it or a run with no key, where the pool stops being pending too |
| Gates.PendingIsWhatIsOwed | src/filler.rs:1483-1484 | a pool is pending exactly when the run's events owe it a pass: a first tick or a landed fill, and no release since |
| Gates.NoStrandedPosition | src/filler.rs:1571-1801 | after a fill that landed or may have, its pool is pending at every moment until a release |
| Gates.ReleasedOnlyPastTheNewestLanding | src/filler.rs:1675-1725 | a keyed, armed filler's pool stops being pending only on a snapshot past its newest landing, empty or with an idle plan |
| Backoffs.SetbacksFollowTheEpisode | src/filler.rs:1974-1986 | the entry kept is the open episode's length, saturated, and its last tick plus its hold; the episode is spaced by its holds |
| Backoffs.SetbacksBackOff | src/filler.rs:1600-1611 | the n-th setback comes at least the holds before it after the first, or at the last ledger there is |
| Backoffs.BackoffBoundHoldsIff | src/filler.rs:1982-1986 | without the exception, exactly while the bound names a ledger |
| Backoffs.SaturationShortensTheHold | src/filler.rs:1986 | one ledger before the last, a hold of two is cut to one |
| Witness.TheBackoffBoundFails | src/filler.rs:1986 | a run whose second setback comes one ledger after its first, where two are owed |
| Backoffs.SaturationKeepsTheHold | src/filler.rs:1980-1985 | neither the saturated count nor the saturated power changes a hold, and none passes 64 |
| Backoffs.HeldAtMostSixtyFour | src/filler.rs:122 | 64 ledgers past its last setback a pending pool may be planned again |
| Backoffs.OneAlertPerEpisode | src/filler.rs:1996-2009 | an episode of three setbacks or more is told exactly once, a shorter one never |
| Leftovers.LeftoversAreToldOnce | src/filler.rs:1752-1801 | between two clean passes at most one telling is delivered, and the mark says exactly whether one was |
| Leftovers.DroppedIsTriedAgain | src/filler.rs:1796-1801 | every idle pass that leaves debt owes a telling until one is delivered |
| Walks.NothingAfterALanding | src/filler.rs:690-701 | nothing is planned or executed in a walk after a fill of it landed or may have |
| Walks.ExecutesOnlyWhatTheWalkPlanned | src/filler.rs:1026-1036 | what is executed was drafted for the chain's entry and written in this walk, in a tick allowed to execute, for the next ledger at the latest |
| Walks.AtMostTwiceTheSecondAtHalf | src/filler.rs:1199-1265 | an auction reaches the executor at most twice a walk, the second time at no more than half the first percent |
| Audits.FlightIsItsJourney | src/executor.rs:582-745 | how far an operation has got is exactly what its events show, in order |
| Audits.AuditPrecedesSending | src/executor.rs:674-745 | every fill sent has its own row with equal contents behind it, and the passing judgment of that very operation behind that |
| Audits.JudgmentPrecedesAnUnwind | src/executor.rs:935-1045 | every unwind sent has the passing judgment of that very operation behind it |
| Audits.HashNamesItsOwnRow | src/executor.rs:699-717 | a hash is written only onto the same call's row, after the queue answered with it |
| Audits.RefusalLeavesNoRow | src/executor.rs:587-597 | a call the contract refused wrote and sent nothing |
| Sightings.OpenStartsName | src/filler.rs:379-389 | the starts the prune reads off the rows name exactly the auctions some open row names |
| Sightings.RecordedOncePerVersion | src/filler.rs:1434-1438 | a version is recorded by dry runs at most once plus the times it was forgotten |
| Sightings.PruneKeepsOnlyOpenVersions | src/filler.rs:358-391 | after the rows are read every version remembered is one an open row names |
| Sightings.ClosedOnlyWhenGone | src/filler.rs:806-820 | a row is closed only when the chain just answered it holds no entry |
| Sightings.SkipsCountDecisions | src/filler.rs:723-738 | each reason's counter is the number of decisions new when made |
| Sightings.LaggingRowKeepsTheSkip | src/filler.rs:366-378 | a skip keyed by the chain's entry survives every read of rows that lag it or have caught up |
| Wallets.WalletIsConserved | src/inventory.rs:226-240 | the wallet is its last read less exactly what landed or may have claimed since |
| Wallets.PaymentsLeaveTheFeeReserve | src/inventory.rs:53-66 | no payment takes an asset below zero, or the native one below the fee reserve |
| Wallets.CoverageIsTheLastRead | src/filler.rs:262-271 | what the wallet covers is what its last read asked for |
| Wallets.CoverageNeverShrinks | src/filler.rs:256-265 | and no later read covers less |
| FloorSafety.EveryUnwindIsWithinItsExcess | src/filler.rs:288-327 | every unwind the chain applies, whenever it applies it and however old the snapshots, was planned within the excess of the very level it finds |
| FloorSafety.EveryUnwindKeepsTheFloor | src/filler.rs:288-327 | so one planned at a rate not ahead of the rate it lands at leaves the floor's worth of the primary, or all there was |
| FloorSafety.KeepsTheFloorIff | src/math/unwind.rs:683-702 | an applied unwind keeps the floor exactly when there is none, nothing was held or taken, or what it withdraws is within the excess at the landing rate |
| FloorSafety.EveryShortfallIsBounded | src/filler.rs:1685-1700 | one planned ahead falls short by no more than what was held gained in the projection, and one b-token |
| FloorSafety.KeepsTheFloorExactly | src/math/unwind.rs:683-702 | one withdrawal keeps the floor exactly when its amount is within the excess at the rate it lands at |
| FloorSafety.AProjectionAheadBreaksTheFloor | src/chain/pool.rs:167-199 | an amount within the excess at a projected rate that goes below the floor at the rate it lands at |
| FloorSafety.SnapshotIsCurrent | src/filler.rs:1641-1674 | a snapshot past the newest landing shows the level the chain has now, however old the node |
| FloorSafety.WithdrawalStopsAtTheFloor | src/math/unwind.rs:683-702 | an amount within the excess, burnt at the planning rate or a later one, stops at the floor |
| FloorSafety.UnwindStopsAtTheFloor | src/math/unwind.rs:333-380 | a whole plan within the excess leaves the floor or what was there |
| FloorSafety.AStaleSnapshotWouldBreakTheFloor | src/filler.rs:305-312 | the same plan made twice of one snapshot goes below the floor: what the gate prevents |
| Witness.AnUnwindLandsOnTheFloor | src/filler.rs:1818-1919 | a kept run over an honest chain in which an unwind is planned, sent and landed, down to exactly the floor |
| Witness.AnUnwindPlannedAheadBreaksTheFloor | src/filler.rs:1685-1700 | the same run, planned at a rate ahead of the landing one: the chain is honest and the floor is broken |
| Witness.ASnapshotFromBeforeBreaksTheFloor | src/filler.rs:1641-1674 | and with a snapshot of a level from before the run: no gate is set, and the floor is broken |
| Unwinding.Planner.Plan | src/math/unwind.rs:220-265 | the plan, exactly: the repays; then with no debt left everything but the primary and the primary's excess, and with debt left the walk over the candidates in their one order, which rests on a position that stands or moved nothing; the primary is within its excess, spend is the sum of the repays, what remains is the debts left, and it fails only on what the pool does not know or arithmetic that does not fit |
| Unwinding.Planner.RepayDebts | src/math/unwind.rs:271-330 | every debt is repaid by exactly what it wants or the wallet has, in index order, and a capped repay clears nothing |
| Unwinding.Planner.WithdrawFree | src/math/unwind.rs:333-380 | with no debt exactly all but the primary goes, whole; the primary goes whole without a floor, and with one by its excess, unless that is dust |
| Unwinding.FreeTakesExactly | src/math/unwind.rs:340-353 | what is withdrawn whole is exactly what is held of the reserves other than the primary |
| Unwinding.Planner.WithdrawWithinFloor | src/math/unwind.rs:425-440 | with debt left, exactly the walk over the one order of candidates, until the position is within its margin |
| Unwinding.Planner.Candidates | src/math/unwind.rs:446-480 | every collateral held, once: those also owed, then the rest by what they are worth, then the primary |
| Unwinding.OneOrder | src/math/unwind.rs:446-480 | there is only one such order |
| Unwinding.Planner.WithdrawCandidate | src/math/unwind.rs:483-516 | all of a candidate, or the primary's excess, exactly when what is left stands; or else its part |
| Unwinding.Planner.Partial | src/math/unwind.rs:549-625 | exactly the amount the formula lets go, the primary down to its floor at most; nothing where it is dust or the reserve carries nothing |
| Unwinding.Planner.BackOff | src/math/unwind.rs:596-625 | an amount that stands is taken as it is; whatever is taken is no more than it was and stands |
| Projection.FormulaIsAccepted | src/math/unwind.rs:512-548 | whatever the roundings, what the formula lets go of a reserve leaves a position the bounds accept |
| Unwinding.PartStands | src/math/unwind.rs:549-625 | so a partial withdrawal always stands, and the back-off has nothing to do |
| Unwinding.WalkStands | src/math/unwind.rs:425-440 | a walk of any length, over any candidates, rests on a position that stands or moved nothing |
| Limits.NothingMoreExactly | src/math/unwind.rs:512-548 | for every terms and unit: after the walk of any position no amount more of anything held could be withdrawn, since it would not stand, or the primary's floor or the dust limit is in the way, exactly when the oracle's unit can say the margin, or none is asked, or neither margin nor minimum can be fallen short of |
| Limits.NothingMoreStands | src/math/unwind.rs:893-943 | where that is so, nothing more could go of any one position, reserve and amount |
| Limits.AGapLeavesSome | src/math/unwind.rs:412-420 | and where it is not, a position of those very terms on such an oracle, and how much more of it could have gone |
| Limits.SevenDecimalsLeaveNothing | src/math/unwind.rs:893-943 | an oracle of seven decimals or more leaves nothing, whatever the terms |
| Limits.NothingIsTakenUnderTheBounds | src/math/unwind.rs:1079-1097 | a position that does not stand is left exactly as it is |
| Limits.StayingExactly | src/math/unwind.rs:549-595 | a base is carried by a number of tokens exactly when they are at least what the formula converts it to |
| Limits.AcceptsExactly | src/math/unwind.rs:412-420 | the health test and the formula's requirement agree on every position exactly when the oracle's unit can say the margin, or none is asked |
| Limits.ACoarseOracleLeavesSome | src/math/unwind.rs:412-420 | an oracle of one decimal, at a minimum health of 1.05, does not |
| Queues.Worker.Run | src/queue.rs:227-255 | whatever the network answers, the worker keeps an orderly journal at every moment, and answers every submission unless the process is cut off |
| Queues.Worker.SubmitUntilSettled | src/queue.rs:259-288 | the answer is what the last attempt came to, retried with doubling pauses only while nothing was sent, the budget lasts and no shutdown is seen |
| Queues.Worker.Resolve | src/queue.rs:324-351 | polls until the outcome is known, and comes back with an unknown one only for a shutdown |
| Queues.OneAtATime | src/queue.rs:1-25 | an operation in flight is the one being worked on, or one answered unknown once a shutdown was seen |
| Queues.WithinBudget | src/queue.rs:259-288 | no submission is prepared more than once more than its retries |
| Queues.KnownLeavesNothingOpen | src/queue.rs:292-351 | after an answer with a known outcome nothing of the key's is in flight |
| Queues.UnknownLeavesTheKeyUnused | src/queue.rs:324-351 | an unknown outcome is answered only once a shutdown was seen, and nothing is ever prepared or sent after it |
| Queues.AnsweredIsOver | src/queue.rs:227-255 | answers come in the order of the queue, each once, and nothing is done for a submission after its own |
| Queues.FailureSentNothing | src/queue.rs:357-366 | of a submission answered a failure, or the shutdown, no envelope was ever accepted |
| Queues.TellsWhatLanded | src/queue.rs:292-320 | what the executor settles by is the last poll of an operation let go; after any other answer nothing is in flight but for a shutdown |
| Queues.PreparesAloneExactly | src/queue.rs:1-25 | nothing is prepared beside an unresolved transaction exactly when, after every restore left unresolved, no later submission was come to before the shutdown flag was read set |
| Queues.TurnsAwayExactly | src/queue.rs:227-255 | where every submission was answered, exactly when every one after a restore left unresolved was turned away for the shutdown |
| Queues.ALooseRestoreHoldsNothing | src/queue.rs:1-25 | a journal in which it is |
| FixedPoint.MulDivIsExact | src/math/fixed.rs:46-78 | every operation answers the one quotient that its rounding allows, and fails only on a zero divisor or a result past 128 bits |
| FixedPoint.NarrowIsWide | src/math/fixed.rs:80-103 | the 128-bit path answers what the 256-bit one does |
| Prices.PriceWatch.Moved | src/auctioneer.rs:415-470 | every asset priced is judged against its own reference, other pools stand, and the reports come in order |
| Prices.ScanJudgesEachOnItsOwn | src/auctioneer.rs:418-468 | an asset's new reference and its report depend on its own old reference and price alone |
| Prices.MovedExactly | src/auctioneer.rs:336-356 | a move is below the threshold exactly when its exact ratio is, and unjudged exactly past 128 bits |
| Prices.LookedAtIsCurrentOrNear | src/auctioneer.rs:400-412 | after a judged look a reference is the price, or within the threshold of it and not stale |
| Prices.SilentDriftIsBounded | src/auctioneer.rs:405-411 | a silent stretch with m refreshes drifts less than m + 1 thresholds compounded, above and below |
| Prices.PriceWatch.EveryDriftIsBounded | src/auctioneer.rs:369-383 | and so for every asset of every watch, whatever calls led there |
| Prices.NoThresholdReportsEverything | src/auctioneer.rs:347-355 | a threshold of none reports what did not move |
| Percents.AcceptPercent | src/auctioneer.rs:1066-1159 | the walk is the one its answers force, unsimulated without a key, and asks for adoption exactly when the auction is already open |
| Percents.WalkReachesTheBand | src/auctioneer.rs:1090-1159 | against a band it accepts exactly when the band is nearer than its attempts, on the nearest percent, after distance + 1 simulations |
| Percents.WalksAreBounded | src/auctioneer.rs:1090-1092 | against any contract it stays in range, one step at a time, within its attempts |
| Percents.SettledWasAccepted | src/auctioneer.rs:1093 | with a key only a percent the contract accepted is settled on |
| Percents.GivenUpWasNeverAccepted | src/auctioneer.rs:1154-1159 | a walk that gave up was never accepted on the way |
| Percents.FailedWasUnreachable | src/auctioneer.rs:1092 | only an unreadable chain fails a walk |
| Percents.InProgressEndsTheWalk | src/auctioneer.rs:1006-1022 | a walk gives up on an auction already open exactly when the last answer said so, and no earlier one did |
| Decisions.Decide | src/auctioneer.rs:528-579 | the slots read as the ordered map; the snapshot is read for exactly the foreign accounts, if any; only a lost store, or the snapshot itself, ends the batch |
| Decisions.JudgePending | src/auctioneer.rs:559-577 | each pending user fills its own slot, and the first lost store stops the batch |
| Decisions.SlotsAreTheMap | src/auctioneer.rs:578 | slots filled with each user's own decision flatten to the ordered map |
| Decisions.OwnAccountsAreNeverRead | src/auctioneer.rs:538-556 | an account is read exactly when it is a user's and not the bot's own |
| Decisions.RoundingNeverHidesABorrower | src/auctioneer.rs:644-656 | two floors never make a borrower at or under the threshold look healthy |
| Creations.Auctioneer.Act | src/auctioneer.rs:725-1002 | judgments, then one row, then one submission of what was accepted, then its hash; refused only when nothing asked was accepted, failed only by what its last step met; an auction already open is looked up once and adopted exactly when the read finds one; mixed modes do nothing at all |
| Creations.Auctioneer.Record | src/auctioneer.rs:800-848 | the row comes before the submission and says what was decided; the hash names that row |
| Creations.SettledExactly | src/auctioneer.rs:259-286 | a flag is cleared exactly for nothing owed, a known success, or a dry run's whole act |
| Decimals.AcceptsExactly | src/config.rs:104-123 | exactly the decimals with a whole part, at most seven places and units in 128 bits, and their exact units |
| Decimals.PaddingScales | src/config.rs:118 | padding the digits is scaling by ten to the seventh, exactly |
| Decimals.PrintedValuesReadBack | src/config.rs:104-123 | every value printed and parsed is itself |
| ScriptLines.ExpandedExactly | src/config.rs:2846-2860 | a value expands exactly the settings some `$` of it stands in front of |
| Scripts.ReadScript | src/config.rs:2899-2975 | the loop over the script's text, with its stack of arms, is the one-pass reading, and lists every setting an export expands |
| Scripts.ReadExactlyTheTrees | src/config.rs:2899-2975 | the scripts read are exactly the trees of branches with no stray `esac` and no export inside a `case` |
| Scripts.EveryModeIsExact | src/config.rs:2903-2930 | a name is in every mode exactly when every resolution of the branches exports it |
| Scripts.MustIsExact | src/config.rs:2911-2926 | the recursive must-set is exactly the names on every resolution |
| Runners.ReadRunner | src/config.rs:2868-2975 | what is read is exactly what the block names, where one opens outside every `if`, with the reading of everything after it; nothing where no block opens |
| Runners.OneBlock | src/config.rs:2868-2898 | a script has one block at most, and it ends in one place |
| Runners.NothingIsInherited | src/config.rs:2990-3030 | however its branches resolve, a script that passes hands the bot no setting of the operator's shell's, but at most the log filter |

## Left out

- The fill planner, reserve accrual and the adapters that read positions: any answer at all, within the promises named
  above. Position valuation is modelled in `Projection`, for the unwind planner.
- Unwinding.Planner.Plan: whether a sum or product fits 128 bits is any answer, so a plan may fail by it anywhere.
- Unwinding.Planner.Candidates: the source sorts by what a candidate is worth and its index; here each is inserted in
  its place, which is the same sequence, because there is only one (`Unwinding.OneOrder`).
- Limits.NothingMoreExactly: speaks of one more withdrawal of one reserve, not of other plans altogether.
- Queues.Worker.Run: the channel's capacity, a caller that has gone, and what a prepare asks of the network are not
  modelled; submissions come as any sequence.
- Inventories.Reservation.Consume: a reservation dropped unsettled is not modelled, because every path of the executor settles its own.
- Filling.Filler.Tick: a lost store ends the tick part-way and the run with it, and then only the run is kept; the process that restarts begins a fresh run.
- Filling.FillerLoop: the ledgers come as any sequence, where the watch only ever publishes newer ones.
- Filling.Filler.RefreshInventory: whether balances have aged is any answer.
- Filling.Filler.IsConsidered: `profit_bps`, objectives and the stale-auction warning do not change what is done and are not modelled.
- Prices.PriceWatch.Moved: the clock is any number, not a 64-bit one; nothing is added to it.
- Decisions.Decide: values are handed in per user rather than read from the snapshot's position maps.
- Creations.Auctioneer.Act: the adopted auction's row contents are not modelled.
- Runners.ReadRunner: white space is spaces and tabs, where the source trims all of Unicode's.
- `scan_oracle`, readiness, seeding and the command line are not modelled: they decide when the loops above run, not
  what those do.
- Logging, metrics other than the skip counters, RPC, XDR encoding, signing, the store's SQL, notification channels and HTTP serving: each is an event, any answer, or nothing.
- Counters of one tick are unbounded numbers where the source has 32 bits; a tick cannot reach them.
