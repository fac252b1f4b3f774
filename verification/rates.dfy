/**
 The pool contract's collateral arithmetic: b-tokens, the rate that turns
 them into underlying, and what a withdrawal burns. Rates carry 12 decimals;
 conversions round the way the contract rounds, up when an amount is asked
 for and down when b-tokens are valued.
 */
module Rates {
  import opened Types

  const SCALAR_12 := 1_000_000_000_000

  /** `WithdrawCollateral`'s "all": the largest 64-bit amount, capped by the contract. */
  const WITHDRAW_ALL := 9_223_372_036_854_775_807

  function CeilDiv(x: int, y: int): (q: int)
    requires 0 <= x && 0 < y
    ensures 0 <= q && x <= q * y < x + y
  {
    var q := (x + y - 1) / y;
    assert q * y <= x + y - 1 < q * y + y;
    q
  }

  function ToBTokenUp(amount: int, rate: int): (tokens: int)
    requires 0 <= amount && 0 < rate
  {
    CeilDiv(amount * SCALAR_12, rate)
  }

  function ToAsset(tokens: int, rate: int): int
    requires 0 < rate
  {
    tokens * rate / SCALAR_12
  }

  lemma Scales(a: int, b: int, m: int)
    requires a <= b && 0 <= m
    ensures a * m <= b * m
  {
    assert (b - a) * m >= 0;
  }

  /** A quotient rounded up is no more than anything whose product covers. */
  lemma CeilDivWithin(x: int, y: int, cover: int)
    requires 0 <= x <= cover * y && 0 < y && 0 <= cover
    ensures CeilDiv(x, y) <= cover
  {
    var q := CeilDiv(x, y);
    assert (cover + 1) * y == cover * y + y;
    if q > cover { Scales(cover + 1, q, y); }
  }

  /** More b-tokens are worth no less. */
  lemma ToAssetGrows(tokens: int, more: int, rate: int)
    requires 0 <= tokens <= more && 0 < rate
    ensures 0 <= ToAsset(tokens, rate) <= ToAsset(more, rate)
  {
    assert 0 <= tokens * rate;
    assert (more - tokens) * rate >= 0;
  }

  /** The b-tokens an unwind never goes below: the floor's image, rounded up. */
  function FloorTokens(floor: int, rate: int): int
    requires 0 < rate
  {
    ToBTokenUp(Max(floor, 0), rate)
  }

  /** The primary underlying above the floor, computed in b-tokens. */
  function PrimaryExcess(held: int, rate: int, floor: int): int
    requires 0 < rate
  {
    var goes := held - FloorTokens(floor, rate);
    if held <= 0 || goes <= 0 then 0 else ToAsset(goes, rate)
  }

  /** What the contract leaves of `held` b-tokens after a withdrawal of `amount`. */
  function AfterWithdrawal(held: nat, amount: int, rate: int): nat
    requires 0 < rate
  {
    if amount <= 0 then held else held - Min(ToBTokenUp(amount, rate), held)
  }

  /** What a whole unwind leaves of the primary collateral, in b-tokens. */
  function AfterUnwind(actions: seq<UnwindAction>, primary: Asset, held: nat, rate: int): nat
    requires 0 < rate
    decreases |actions|
  {
    if actions == [] then held
    else AfterUnwind(actions[1..], primary,
      match actions[0]
      case Withdraw(asset, amount) => if asset == primary then AfterWithdrawal(held, amount, rate) else held
      case WithdrawAll(asset) => if asset == primary then AfterWithdrawal(held, WITHDRAW_ALL, rate) else held
      case Repay(_, _) => held,
      rate)
  }

  /** The primary amounts a plan withdraws, in order. */
  function PrimaryTakes(actions: seq<UnwindAction>, primary: Asset): seq<int>
    decreases |actions|
  {
    if actions == [] then []
    else (match actions[0]
          case Withdraw(asset, amount) => if asset == primary then [amount] else []
          case WithdrawAll(asset) => if asset == primary then [WITHDRAW_ALL] else []
          case Repay(_, _) => []) + PrimaryTakes(actions[1..], primary)
  }

  /**
   The planner's promise about the primary asset: at most one withdrawal of
   it, of at most the snapshot's excess over the floor, and everything only
   where there is no floor.
   */
  predicate WithinExcess(actions: seq<UnwindAction>, primary: Asset, held: nat, rate: int, floor: int)
    requires 0 < rate
  {
    var takes := PrimaryTakes(actions, primary);
    |takes| <= 1 && (floor > 0 && |takes| == 1 ==> takes[0] <= PrimaryExcess(held, rate, floor))
  }
}
