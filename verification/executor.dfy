/**
 The executor: one planned fill or unwind, from the mode guards through the
 contract's judgment, the audit row and the submission, to the settled
 reservation. Every call is described by a `Talk`, what the world answered
 at each step it reached; the answer, the run and the settlement are
 functions of it.
 */
module Execution {
  import opened Types
  import opened Rates
  import opened Requests
  import opened Machine
  import opened Environment
  import opened Inventories

  const INVALID_HF := 1205
  const MIN_COLLATERAL_NOT_MET := 1224

  datatype Settlement = Live(reservation: Reservation) | DryRun

  /** What becomes of the reservation a plan was holding. */
  datatype Settle = Consume | Release

  datatype Judged =
    | JudgedAccepted(operation: Operation)
    | JudgedNeedsRestore(operation: Operation)
    | Unsimulated
    | JudgedRefused(code: Option<u32>)
    | Unjudged
    | JudgeFailed(error: ExecError)

  /** What the world answered during one call, for the steps it reached. */
  datatype Talk = Talk(
    encodes: bool,
    judgment: Option<Judgment>,
    id: Option<nat>,
    sent: Option<QueueAnswer>,
    named: Option<HashAnswer>)

  const SILENT := Talk(true, None, None, None, None)

  // ----- the answers, as functions of the talk ----------------------------

  /** The four compositions of capabilities an executor refuses. */
  predicate Composes(c: Config, live: bool, armed: bool) {
    live == !c.executorDryRun && (armed ==> !c.executorDryRun && c.signer.Some?)
  }

  function RefusalOf(code: Option<u32>): FillAnswer {
    if code == Some(INVALID_HF) || code == Some(MIN_COLLATERAL_NOT_MET) then Replan(code.value)
    else Refused(code)
  }

  /** The error that stops a call before anything is recorded, if one does. */
  function Stopped(c: Config, live: bool, armed: bool, talk: Talk): Option<ExecError> {
    if !Composes(c, live, armed) then Some(ModeError)
    else if c.signer.None? then None
    else if !talk.encodes then Some(XdrError)
    else if talk.judgment == Some(SimulationFailed) then Some(ChainError)
    else None
  }

  function FillAnswerOf(c: Config, live: bool, armed: bool, talk: Talk): FillAnswer {
    var simulated := talk.judgment == Some(Accepts);
    if Stopped(c, live, armed, talk).Some? then FillFailed(Stopped(c, live, armed, talk).value)
    else if talk.judgment.Some? && talk.judgment.value.Refuses? then RefusalOf(talk.judgment.value.code)
    else if talk.judgment == Some(NeedsRestore) && !armed then Refused(None)
    else if talk.id.None? then FillFailed(StoreError)
    else if talk.sent.None? then Recorded(talk.id.value, simulated, c.executorDryRun, None)
    else
      match talk.sent.value
      case Outcome(outcome) =>
        if talk.named == Some(HashWriteFailed) then FillFailed(StoreError)
        else Recorded(talk.id.value, simulated, c.executorDryRun, Some(outcome))
      case BadSequence => StalePlan
      case PrepareRefused(code) => RefusalOf(code)
      case QueueChainError => FillFailed(QueueChain)
      case QueueClosed => FillFailed(QueueOther)
      case QueueShuttingDown => FillFailed(QueueOther)
  }

  function UnwindAnswerOf(c: Config, live: bool, armed: bool, plan: UnwindPlan, talk: Talk): UnwindAnswer {
    if !Composes(c, live, armed) then UnwindFailed(ModeError)
    else if plan.IsIdle() then PlannedOnly(false)
    else if Stopped(c, live, armed, talk).Some? then UnwindFailed(Stopped(c, live, armed, talk).value)
    else if talk.judgment.Some? && talk.judgment.value.Refuses? then UnwindRefused(talk.judgment.value.code)
    else if talk.judgment == Some(NeedsRestore) && !armed then UnwindRefused(None)
    else if talk.sent.None? then PlannedOnly(talk.judgment == Some(Accepts))
    else
      match talk.sent.value
      case Outcome(outcome) => Submitted(outcome)
      case BadSequence => UnwindStale
      case PrepareRefused(code) => UnwindRefused(code)
      case QueueChainError => UnwindFailed(QueueChain)
      case QueueClosed => UnwindFailed(QueueOther)
      case QueueShuttingDown => UnwindFailed(QueueOther)
  }

  /** Whether the chain may have spent what this call was holding. */
  predicate Spends(talk: Talk) { talk.sent.Some? && LandedAnswer(talk.sent.value) }

  /** Whether a call that reached the queue may have: the steps before it went through. */
  predicate MaySend(c: Config, live: bool, armed: bool, talk: Talk) {
    && armed && Stopped(c, live, armed, talk).None?
    && talk.judgment.Some? && (talk.judgment.value.Accepts? || talk.judgment.value.NeedsRestore?)
  }

  /** The steps a fill's talk may hold: each only after the ones before it. */
  predicate FillTalk(c: Config, live: bool, armed: bool, talk: Talk) {
    && (talk.judgment.Some? <==> Composes(c, live, armed) && c.signer.Some? && talk.encodes)
    && (talk.id.Some? ==>
          && Stopped(c, live, armed, talk).None?
          && (c.signer.Some? ==>
                && talk.judgment.Some?
                && (talk.judgment.value.Accepts? || (talk.judgment.value.NeedsRestore? && armed))))
    && (talk.sent.Some? <==> talk.id.Some? && MaySend(c, live, armed, talk))
    && (talk.named.Some? <==> talk.sent.Some? && talk.sent.value.Outcome?)
  }

  predicate UnwindTalk(c: Config, live: bool, armed: bool, plan: UnwindPlan, talk: Talk) {
    && (talk.judgment.Some? <==> Composes(c, live, armed) && !plan.IsIdle() && c.signer.Some? && talk.encodes)
    && talk.id.None? && talk.named.None?
    && (talk.sent.Some? <==> !plan.IsIdle() && MaySend(c, live, armed, talk))
  }

  /** What a fill's call left behind before it returned, whatever it returned. */
  function FillEffect(c: Config, m: Memory, plan: FillPlan, version: Version, spend: Amounts, talk: Talk): Memory {
    var m := if talk.id.Some? then Audited(m, c.executorDryRun, version) else m;
    if talk.sent.Some? then FillSent(m, plan.pool, spend, talk.sent.value) else m
  }

  function UnwindEffect(m: Memory, pool: Pool, spend: Amounts, talk: Talk): Memory {
    if talk.sent.Some? then UnwindSent(m, pool, spend, talk.sent.value) else m
  }

  /** The reservation's amounts, or none for a dry run. */
  ghost function Spend(settlement: Settlement): Amounts
  {
    if settlement.Live? then settlement.reservation.amounts else map[]
  }

  // ----- the executor -----------------------------------------------------

  class Executor {
    const world: World
    const inventory: Inventory
    const signer: Option<Account>
    const dryRun: bool

    ghost predicate Valid()
      reads this
    {
      signer == world.config.signer && dryRun == world.config.executorDryRun
    }

    constructor (world: World, inventory: Inventory)
      ensures Valid() && this.world == world && this.inventory == inventory
    {
      this.world, this.inventory := world, inventory;
      signer, dryRun := world.config.signer, world.config.executorDryRun;
    }

    /** A settlement this executor may be handed: an open claim on its own wallet, or none. */
    ghost predicate Accepts(settlement: Settlement)
      requires Valid()
      reads this, world, if settlement.Live? then {settlement.reservation} else {}
    {
      settlement.Live? ==>
        && settlement.reservation.ledger == inventory && !settlement.reservation.settled
        && world.flight.claim == Some(settlement.reservation.amounts)
    }

    method FillRequests(user: Account, draft: FillDraft) returns (requests: seq<Request>)
      ensures requests == FillRequestsOf(user, draft)
    {
      requests := [Request(FillUserLiquidation, user, draft.percent)];
      for i := 0 to |draft.actions|
        invariant |requests| == i + 1
        invariant requests == FillRequestsOf(user, draft)[..i + 1]
      {
        var request := match draft.actions[i]
          case FillRepay(asset, amount) => Request(RepayRequest, asset, amount)
          case FillWithdrawAll(asset) => Request(WithdrawCollateral, asset, WITHDRAW_ALL)
          case FillSupply(asset, amount) => Request(SupplyCollateral, asset, amount);
        requests := requests + [request];
      }
    }

    /** The mode guards; a refusal releases what it was handed. */
    method Guard(settlement: Settlement, armed: bool) returns (ok: bool)
      requires Valid() && Accepts(settlement)
      modifies if settlement.Live? then {settlement.reservation} else {}, inventory`reserved
      ensures ok <==> Composes(world.config, settlement.Live?, armed)
      ensures !ok <==>
        || (settlement.Live? && world.config.executorDryRun) || (settlement.DryRun? && !world.config.executorDryRun)
        || (armed && world.config.executorDryRun) || (armed && world.config.signer.None?)
      ensures ok ==> inventory.reserved == old(inventory.reserved)
      ensures ok && settlement.Live? ==> !settlement.reservation.settled
      ensures !ok ==> inventory.reserved == Spent(old(inventory.reserved), Spend(settlement))
      ensures !ok && settlement.Live? ==> settlement.reservation.settled
    {
      if settlement.Live? && dryRun {
        settlement.reservation.Release();
        return false;
      }
      if settlement.DryRun? && !dryRun {
        NothingSpent(inventory.reserved);
        return false;
      }
      if armed && dryRun {
        ReleaseAny(settlement);
        return false;
      }
      if armed && signer.None? {
        ReleaseAny(settlement);
        return false;
      }
      return true;
    }

    method ReleaseAny(settlement: Settlement)
      requires settlement.Live? ==> settlement.reservation.ledger == inventory && !settlement.reservation.settled
      modifies if settlement.Live? then {settlement.reservation} else {}, inventory`reserved
      ensures settlement.Live? ==> settlement.reservation.settled
      ensures inventory.reserved == Spent(old(inventory.reserved), Spend(settlement))
    {
      if settlement.Live? { settlement.reservation.Release(); }
      else { NothingSpent(inventory.reserved); }
    }

    method SettleBy(settlement: Settlement, settle: Settle)
      requires settlement.Live? ==> settlement.reservation.ledger == inventory && !settlement.reservation.settled
      modifies if settlement.Live? then {settlement.reservation} else {}, inventory`reserved, inventory`balances
      ensures settlement.Live? ==> settlement.reservation.settled
      ensures inventory.reserved == Spent(old(inventory.reserved), Spend(settlement))
      ensures inventory.balances ==
        if settle.Consume? then Spent(old(inventory.balances), Spend(settlement)) else old(inventory.balances)
    {
      match settle {
        case Consume =>
          if settlement.Live? { settlement.reservation.Consume(); }
          else { NothingSpent(inventory.reserved); NothingSpent(inventory.balances); }
        case Release => ReleaseAny(settlement);
      }
    }

    /** The exact operation the queue would send, judged by the contract. */
    method JudgeOperation(pool: Pool, requests: seq<Request>, armed: bool)
      returns (judged: Judged, ghost encodes: bool, ghost judgment: Option<Judgment>)
      requires Valid() && world.Valid() && world.flight.stage.Idle? && world.memory.duty.None?
      requires !world.flight.load.NoLoad? && world.flight.load.pool == pool && RequestsOf(world.flight.load) == requests
      modifies world`run, world`memory, world`flight
      ensures world.Valid()
      ensures signer.None? <==> judged.Unsimulated?
      ensures judgment.Some? <==> signer.Some? && encodes
      ensures signer.Some? && !encodes ==> judged == JudgeFailed(XdrError)
      ensures world.memory == old(world.memory)
      ensures judgment.None? ==> world.flight == old(world.flight)
      ensures judgment.Some? ==>
        var operation := Operation(pool, signer.value, requests);
        && world.flight == old(world.flight).(stage := Asked(operation, judgment.value))
        && judged ==
             match judgment.value
             case Accepts => JudgedAccepted(operation)
             case Refuses(code) => JudgedRefused(code)
             case NeedsRestore => if armed then JudgedNeedsRestore(operation) else Unjudged
             case SimulationFailed => JudgeFailed(ChainError)
    {
      encodes, judgment := true, None;
      if signer.None? { return Unsimulated, true, None; }
      var ok := world.Encodes(requests);
      encodes := ok;
      if !ok { return JudgeFailed(XdrError), false, None; }
      var operation := Operation(pool, signer.value, requests);
      var answer := world.Simulate(operation);
      judgment := Some(answer);
      match answer {
        case Accepts => judged := JudgedAccepted(operation);
        case Refuses(code) => judged := JudgedRefused(code);
        case NeedsRestore => judged := if armed then JudgedNeedsRestore(operation) else Unjudged;
        case SimulationFailed => judged := JudgeFailed(ChainError);
      }
    }

    /** Steps 2 to 4 of a fill, and what its reservation becomes. */
    method RunFill(plan: FillPlan, armed: bool, ghost live: bool, ghost version: Version, ghost spend: Amounts)
      returns (answer: FillAnswer, settle: Settle, ghost talk: Talk)
      requires Valid() && world.Valid() && Composes(world.config, live, armed)
      requires world.flight.stage.Idle? && world.memory.duty.None?
      requires live ==> world.flight.claim == Some(spend)
      requires InHand(world.memory, world.flight, plan, version)
      modifies world`run, world`memory, world`flight, world`lost
      ensures world.Valid() && FillTalk(world.config, live, armed, talk)
      ensures answer == FillAnswerOf(world.config, live, armed, talk)
      ensures world.lost == (old(world.lost) || answer == FillFailed(StoreError))
      ensures settle.Consume? <==> Spends(talk)
      ensures MayReturnFill(world.config, world.flight, plan.pool, plan.user, answer)
      ensures world.memory == FillEffect(world.config, old(world.memory), plan, version, spend, talk)
    {
      talk, settle := SILENT, Release;
      var requests := FillRequests(plan.user, plan.draft);
      ghost var encodes, judgment;
      var judged;
      judged, encodes, judgment := JudgeOperation(plan.pool, requests, armed);
      talk := Talk(encodes, judgment, None, None, None);
      var operation: Option<Operation>;
      var simulated: bool;
      match judged {
        case JudgeFailed(error) => return FillFailed(error), Release, talk;
        case Unjudged => return Refused(None), Release, talk;
        case JudgedRefused(code) => answer := Refusal(code); return;
        case JudgedAccepted(accepted) => operation, simulated := Some(accepted), true;
        case JudgedNeedsRestore(archived) => operation, simulated := Some(archived), false;
        case Unsimulated => operation, simulated := None, false;
      }
      var id := world.RecordFill(plan, dryRun, version);
      talk := talk.(id := id);
      if id.None? { return FillFailed(StoreError), Release, talk; }
      if !armed { return Recorded(id.value, simulated, dryRun, None), Release, talk; }
      answer, settle, talk := SubmitRecorded(plan, id.value, simulated, operation.value, live, spend, talk);
    }

    method Refusal(code: Option<u32>) returns (answer: FillAnswer)
      ensures answer == RefusalOf(code)
    {
      match code {
        case Some(error) =>
          if error == INVALID_HF || error == MIN_COLLATERAL_NOT_MET { answer := Replan(error); }
          else { answer := Refused(code); }
        case None => answer := Refused(None);
      }
    }

    /**
     Hands a recorded fill to the queue and names its row. The settlement is
     read off the queue's answer before the hash is written, so a failure to
     write it cannot turn a spend into a release.
     */
    method SubmitRecorded(plan: FillPlan, id: nat, simulated: bool, operation: Operation,
                          ghost live: bool, ghost spend: Amounts, ghost before: Talk)
      returns (answer: FillAnswer, settle: Settle, ghost talk: Talk)
      requires Valid() && world.Valid() && Composes(world.config, live, true) && world.memory.duty.None?
      requires world.flight.stage == OnAudit(id, plan, Some(operation))
      requires world.flight.load == FillLoad(plan.pool, plan.user, plan.draft)
      requires world.flight.claim == Some(spend)
      requires before.id == Some(id) && before.sent.None? && before.named.None?
      requires MaySend(world.config, live, true, before)
      requires simulated == (before.judgment == Some(Judgment.Accepts))
      modifies world`run, world`memory, world`flight, world`lost
      ensures world.Valid()
      ensures talk == before.(sent := talk.sent, named := talk.named) && talk.sent.Some?
      ensures FillTalk(world.config, live, true, talk)
      ensures answer == FillAnswerOf(world.config, live, true, talk)
      ensures world.lost == (old(world.lost) || answer == FillFailed(StoreError))
      ensures settle.Consume? <==> Spends(talk)
      ensures MayReturnFill(world.config, world.flight, plan.pool, plan.user, answer)
      ensures world.memory == FillSent(old(world.memory), plan.pool, spend, talk.sent.value)
    {
      talk := before;
      var sent := world.EnqueueFill(plan, operation, spend);
      talk := talk.(sent := Some(sent));
      settle := if sent.Outcome? && MayHaveLanded(sent.outcome) then Consume else Release;
      match sent {
        case Outcome(outcome) =>
          var named := world.AttachFillTx(id, outcome.hash);
          talk := talk.(named := Some(named));
          answer := if named.HashWriteFailed? then FillFailed(StoreError)
                    else Recorded(id, simulated, dryRun, Some(outcome));
        case BadSequence => answer := StalePlan;
        case PrepareRefused(code) => answer := Refusal(code);
        case QueueChainError => answer := FillFailed(QueueChain);
        case QueueClosed => answer := FillFailed(QueueOther);
        case QueueShuttingDown => answer := FillFailed(QueueOther);
      }
    }

    /** One planned fill. */
    method Execute(plan: FillPlan, settlement: Settlement, armed: bool, ghost version: Version)
      returns (answer: FillAnswer, ghost talk: Talk)
      requires Valid() && world.Valid() && Accepts(settlement)
      requires world.flight.stage.Idle? && world.memory.duty.None?
      requires InHand(world.memory, world.flight, plan, version)
      modifies world`run, world`memory, world`flight, world`lost
      modifies if settlement.Live? then {settlement.reservation} else {}
      modifies inventory`reserved, inventory`balances
      ensures world.Valid() && world.flight == GROUNDED
      ensures FillTalk(world.config, settlement.Live?, armed, talk)
      ensures answer == FillAnswerOf(world.config, settlement.Live?, armed, talk)
      ensures world.lost == (old(world.lost) || answer == FillFailed(StoreError))
      ensures settlement.Live? ==> settlement.reservation.settled
      ensures inventory.reserved == Spent(old(inventory.reserved), Spend(settlement))
      ensures inventory.balances ==
        if Spends(talk) then Spent(old(inventory.balances), Spend(settlement)) else old(inventory.balances)
      ensures world.memory ==
        FillDone(FillEffect(world.config, old(world.memory), plan, version, Spend(settlement), talk),
                 plan.user, answer)
    {
      talk := SILENT;
      var composed := Guard(settlement, armed);
      if !composed {
        answer := FillFailed(ModeError);
        world.FillReturns(plan.pool, plan.user, answer);
        return;
      }
      var settle: Settle;
      answer, settle, talk := RunFill(plan, armed, settlement.Live?, version, Spend(settlement));
      SettleBy(settlement, settle);
      world.FillReturns(plan.pool, plan.user, answer);
    }

    /** Steps 2 to 4 of an unwind, and what its reservation becomes. */
    method RunUnwind(pool: Pool, plan: UnwindPlan, armed: bool, ghost live: bool, ghost spend: Amounts)
      returns (answer: UnwindAnswer, settle: Settle, ghost talk: Talk)
      requires Valid() && world.Valid() && Composes(world.config, live, armed) && !plan.IsIdle()
      requires world.flight.stage.Idle? && world.memory.duty.None?
      requires live ==> world.flight.claim == Some(spend)
      requires world.flight.load == UnwindLoad(pool, plan)
      modifies world`run, world`memory, world`flight
      ensures world.Valid() && UnwindTalk(world.config, live, armed, plan, talk)
      ensures answer == UnwindAnswerOf(world.config, live, armed, plan, talk)
      ensures settle.Consume? <==> Spends(talk)
      ensures MayReturnUnwind(world.flight, pool, answer)
      ensures world.memory == UnwindEffect(old(world.memory), pool, spend, talk)
    {
      talk, settle := SILENT, Release;
      var requests := UnwindRequestsOf(plan.actions);
      ghost var encodes, judgment;
      var judged;
      judged, encodes, judgment := JudgeOperation(pool, requests, armed);
      talk := Talk(encodes, judgment, None, None, None);
      var operation: Option<Operation>;
      var simulated: bool;
      match judged {
        case JudgeFailed(error) => return UnwindFailed(error), Release, talk;
        case Unjudged => return UnwindRefused(None), Release, talk;
        case JudgedRefused(code) => return UnwindRefused(code), Release, talk;
        case JudgedAccepted(accepted) => operation, simulated := Some(accepted), true;
        case JudgedNeedsRestore(archived) => operation, simulated := Some(archived), false;
        case Unsimulated => operation, simulated := None, false;
      }
      if !armed { return PlannedOnly(simulated), Release, talk; }
      answer, settle, talk := SubmitUnwind(pool, plan, operation.value, live, spend, talk);
    }

    /** Hands a judged unwind to the queue; there is no row to name. */
    method SubmitUnwind(pool: Pool, plan: UnwindPlan, operation: Operation,
                        ghost live: bool, ghost spend: Amounts, ghost before: Talk)
      returns (answer: UnwindAnswer, settle: Settle, ghost talk: Talk)
      requires Valid() && world.Valid() && Composes(world.config, live, true) && !plan.IsIdle()
      requires world.memory.duty.None? && MaySendUnwind(world.config, world.flight, pool, plan, operation, spend)
      requires before.id.None? && before.sent.None? && before.named.None?
      requires MaySend(world.config, live, true, before)
      modifies world`run, world`memory, world`flight
      ensures world.Valid()
      ensures talk == before.(sent := talk.sent) && talk.sent.Some?
      ensures answer == UnwindAnswerOf(world.config, live, true, plan, talk)
      ensures settle.Consume? <==> Spends(talk)
      ensures MayReturnUnwind(world.flight, pool, answer)
      ensures world.memory == UnwindSent(old(world.memory), pool, spend, talk.sent.value)
    {
      var sent := world.EnqueueUnwind(pool, plan, operation, spend);
      talk := before.(sent := Some(sent));
      settle := if sent.Outcome? && MayHaveLanded(sent.outcome) then Consume else Release;
      match sent {
        case Outcome(outcome) => answer := Submitted(outcome);
        case BadSequence => answer := UnwindStale;
        case PrepareRefused(code) => answer := UnwindRefused(code);
        case QueueChainError => answer := UnwindFailed(QueueChain);
        case QueueClosed => answer := UnwindFailed(QueueOther);
        case QueueShuttingDown => answer := UnwindFailed(QueueOther);
      }
    }

    /** One unwind pass. */
    method Unwind(pool: Pool, plan: UnwindPlan, settlement: Settlement, armed: bool)
      returns (answer: UnwindAnswer, ghost talk: Talk)
      requires Valid() && world.Valid() && Accepts(settlement)
      requires world.flight.stage.Idle? && world.memory.duty.None?
      requires world.flight.load == UnwindLoad(pool, plan)
      modifies world`run, world`memory, world`flight, if settlement.Live? then {settlement.reservation} else {}
      modifies inventory`reserved, inventory`balances
      ensures world.Valid() && world.flight == GROUNDED
      ensures UnwindTalk(world.config, settlement.Live?, armed, plan, talk)
      ensures answer == UnwindAnswerOf(world.config, settlement.Live?, armed, plan, talk)
      ensures settlement.Live? ==> settlement.reservation.settled
      ensures inventory.reserved == Spent(old(inventory.reserved), Spend(settlement))
      ensures inventory.balances ==
        if Spends(talk) then Spent(old(inventory.balances), Spend(settlement)) else old(inventory.balances)
      ensures world.memory ==
        UnwindDone(world.config, UnwindEffect(old(world.memory), pool, Spend(settlement), talk), pool, answer)
    {
      talk := SILENT;
      var composed := Guard(settlement, armed);
      if !composed {
        answer := UnwindFailed(ModeError);
        world.UnwindReturns(pool, answer);
        return;
      }
      if plan.IsIdle() {
        ReleaseAny(settlement);
        answer := PlannedOnly(false);
        world.UnwindReturns(pool, answer);
        return;
      }
      var settle: Settle;
      answer, settle, talk := RunUnwind(pool, plan, armed, settlement.Live?, Spend(settlement));
      SettleBy(settlement, settle);
      world.UnwindReturns(pool, answer);
    }
  }

  lemma NothingSpent(wallet: Amounts)
    ensures Spent(wallet, map[]) == wallet
  {
  }
}
