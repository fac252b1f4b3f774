/**
 What a plan becomes on the wire: the contract requests of a fill and of an
 unwind, and the load the executor carries while one of them is in its hands.
 */
module Requests {
  import opened Types
  import opened Rates

  function RequestOfFill(action: FillAction): Request {
    match action
    case FillRepay(asset, amount) => Request(RepayRequest, asset, amount)
    case FillWithdrawAll(asset) => Request(WithdrawCollateral, asset, WITHDRAW_ALL)
    case FillSupply(asset, amount) => Request(SupplyCollateral, asset, amount)
  }

  function RequestOfUnwind(action: UnwindAction): Request {
    match action
    case Repay(asset, amount) => Request(RepayRequest, asset, amount)
    case Withdraw(asset, amount) => Request(WithdrawCollateral, asset, amount)
    case WithdrawAll(asset) => Request(WithdrawCollateral, asset, WITHDRAW_ALL)
  }

  function FillRequestsOf(user: Account, draft: FillDraft): seq<Request> {
    [Request(FillUserLiquidation, user, draft.percent)]
      + seq(|draft.actions|, i requires 0 <= i < |draft.actions| => RequestOfFill(draft.actions[i]))
  }

  function UnwindRequestsOf(actions: seq<UnwindAction>): seq<Request> {
    seq(|actions|, i requires 0 <= i < |actions| => RequestOfUnwind(actions[i]))
  }

  /** What the executor was handed. */
  datatype Load =
    | NoLoad
    | FillLoad(pool: Pool, account: Account, draft: FillDraft)
    | UnwindLoad(pool: Pool, plan: UnwindPlan)

  function RequestsOf(load: Load): seq<Request> {
    match load
    case NoLoad => []
    case FillLoad(_, account, draft) => FillRequestsOf(account, draft)
    case UnwindLoad(_, plan) => UnwindRequestsOf(plan.actions)
  }
}
