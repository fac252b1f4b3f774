/**
 What a position is worth: the pool's reserves and the oracle's prices, a
 position valued against them with every step rounded against its holder,
 and the bounds a position that keeps debt is held to.
 */
module Projection {
  import opened Types
  import opened Rates

  const SCALAR_7 := 10_000_000

  type Tokens = map<nat, int>

  function Held(tokens: Tokens, index: nat): int { if index in tokens then tokens[index] else 0 }

  /** `x / y` rounded up, whatever the sign of `x`. */
  function Up(x: int, y: int): int
    requires 0 < y
  {
    -((-x) / y)
  }

  /** Rates carry 12 decimals, factors 7, and amounts the asset's own. */
  datatype Reserve = Reserve(asset: Asset, bRate: int, dRate: int, cFactor: nat, lFactor: nat, scalar: int) {
    predicate Valid() { 0 < bRate && 0 < dRate && 0 < scalar }

    /** What b-tokens count for as collateral, in underlying. */
    function Effective(tokens: int): int
      requires Valid()
    {
      ToAsset(tokens, bRate) * cFactor / SCALAR_7
    }

    /** And d-tokens as debt. */
    function EffectiveDebt(tokens: int): int
      requires Valid() && lFactor != 0
    {
      Up(Up(tokens * dRate, SCALAR_12) * SCALAR_7, lFactor)
    }
  }

  /** A position's collateral and debt, each at its factor, in the oracle's units. */
  datatype Valued = Valued(collateral: int, liability: int) {
    /** The health factor, in the oracle's scale, is under `min`, of seven decimals; with no debt none is. */
    predicate IsUnder(unit: int, min: int)
      requires 0 <= liability
    {
      liability != 0 && collateral * unit / liability < unit * min / SCALAR_7
    }
  }

  /** What a position that keeps debt must show: a health factor, and collateral at all. */
  datatype Bounds = Bounds(margin: int, minCollateral: int) {
    predicate Accepts(data: Valued, unit: int)
      requires 0 <= data.liability
    {
      !data.IsUnder(unit, margin) && data.collateral >= minCollateral
    }

    /** The least collateral that would be accepted over this debt. */
    function Required(liability: int): int { Max(Up(liability * margin, SCALAR_7), minCollateral) }
  }

  /** The pool as a planner reads it: reserves by index, indices by asset, and the oracle's prices and unit. */
  datatype Market = Market(
    reserves: map<nat, Reserve>,
    assetIndex: map<Asset, nat>,
    size: nat,
    prices: map<Asset, int>,
    unit: int)
  {
    /** One reserve per asset, at rates the contract could have, and prices the oracle's reader lets through. */
    ghost predicate Valid() {
      && (forall i :: i in reserves ==>
            i < size && reserves[i].Valid() && reserves[i].asset in assetIndex && assetIndex[reserves[i].asset] == i)
      && (forall asset :: asset in assetIndex ==>
            assetIndex[asset] in reserves && reserves[assetIndex[asset]].asset == asset)
      && (forall asset :: asset in prices ==> 0 < prices[asset])
      && 0 < unit
    }

    predicate Prices(index: nat) { index in reserves && reserves[index].asset in prices }

    /** Every reserve a position holds anything in is known and priced. */
    predicate CoversCollateral(tokens: Tokens) {
      forall index :: index in tokens && tokens[index] != 0 ==> Prices(index)
    }

    predicate CoversDebts(tokens: Tokens) {
      forall index :: index in tokens && tokens[index] != 0 ==> Prices(index) && reserves[index].lFactor != 0
    }

    /** What collateral in one reserve adds. */
    function Carries(index: nat, tokens: int): int
      requires Valid() && Prices(index)
    {
      prices[reserves[index].asset] * reserves[index].Effective(tokens) / reserves[index].scalar
    }

    /** And what a debt does. */
    function Weighs(index: nat, tokens: int): int
      requires Valid() && Prices(index) && reserves[index].lFactor != 0
    {
      Up(prices[reserves[index].asset] * reserves[index].EffectiveDebt(tokens), reserves[index].scalar)
    }

    function CollateralIn(tokens: Tokens, index: nat): int
      requires Valid() && CoversCollateral(tokens)
    {
      if Held(tokens, index) == 0 then 0 else Carries(index, tokens[index])
    }

    function DebtIn(tokens: Tokens, index: nat): int
      requires Valid() && CoversDebts(tokens)
    {
      if Held(tokens, index) == 0 then 0 else Weighs(index, tokens[index])
    }

    /** The first `n` reserves' part of a position's collateral. */
    function CollateralBase(tokens: Tokens, n: nat): int
      requires Valid() && CoversCollateral(tokens)
    {
      if n == 0 then 0 else CollateralBase(tokens, n - 1) + CollateralIn(tokens, n - 1)
    }

    function LiabilityBase(tokens: Tokens, n: nat): int
      requires Valid() && CoversDebts(tokens)
    {
      if n == 0 then 0 else LiabilityBase(tokens, n - 1) + DebtIn(tokens, n - 1)
    }

    function ValueOf(collateral: Tokens, liabilities: Tokens): Valued
      requires Valid() && CoversCollateral(collateral) && CoversDebts(liabilities)
    {
      Valued(CollateralBase(collateral, size), LiabilityBase(liabilities, size))
    }

    /** What the contract leaves of a position's collateral after a withdrawal of `amount` of one reserve. */
    function AfterTaking(tokens: Tokens, index: nat, amount: int): Tokens
      requires Valid() && index in reserves && 0 <= amount
    {
      var left := Held(tokens, index) - Min(ToBTokenUp(amount, reserves[index].bRate), Held(tokens, index));
      if left > 0 then tokens[index := left] else tokens - {index}
    }

    /**
     What of one reserve's collateral must stay so that it still carries
     `base`: effective underlying through the price, underlying through the
     factor, b-tokens through the rate, each rounded up.
     */
    function StayingTokens(index: nat, base: nat): int
      requires Valid() && Prices(index) && reserves[index].cFactor != 0
    {
      var reserve := reserves[index];
      var effective := CeilDiv(base * reserve.scalar, prices[reserve.asset]);
      ToBTokenUp(CeilDiv(effective * SCALAR_7, reserve.cFactor), reserve.bRate)
    }
  }

  // ----- what the contract leaves of a plan's withdrawals -----------------

  function AfterAction(market: Market, tokens: Tokens, action: UnwindAction): Tokens
    requires market.Valid()
  {
    match action
    case Repay(_, _) => tokens
    case Withdraw(asset, amount) =>
      if asset in market.assetIndex && 0 <= amount then market.AfterTaking(tokens, market.assetIndex[asset], amount)
      else tokens
    case WithdrawAll(asset) => if asset in market.assetIndex then tokens - {market.assetIndex[asset]} else tokens
  }

  function AfterActions(market: Market, tokens: Tokens, actions: seq<UnwindAction>): Tokens
    requires market.Valid()
    decreases |actions|
  {
    if actions == [] then tokens
    else AfterAction(market, AfterActions(market, tokens, actions[..|actions| - 1]), actions[|actions| - 1])
  }

  lemma {:induction false} AfterActionsSplits(market: Market, tokens: Tokens,
                                              a: seq<UnwindAction>, b: seq<UnwindAction>)
    requires market.Valid()
    ensures AfterActions(market, tokens, a + b) == AfterActions(market, AfterActions(market, tokens, a), b)
    decreases |b|
  {
    if b == [] {
      assert a + b == a;
    } else {
      assert (a + b)[..|a + b| - 1] == a + b[..|b| - 1];
      AfterActionsSplits(market, tokens, a, b[..|b| - 1]);
    }
  }

  // ----- rounding ---------------------------------------------------------

  lemma UpCovers(x: int, y: int)
    requires 0 < y
    ensures x <= Up(x, y) * y < x + y
  {
  }

  /** A quotient rounded down is at least anything whose product is within the dividend. */
  lemma FloorReaches(q: int, x: int, y: int)
    requires 0 < y && q * y <= x
    ensures q <= x / y
  {
    var r := x / y;
    assert x < (r + 1) * y;
    if r < q { Scales(r + 1, q, y); }
  }

  /** Rounding up and then down again loses nothing, at this many or more. */
  lemma UpThenDown(x: nat, up: int, down: int, more: int)
    requires 0 < up && 0 < down && CeilDiv(x * up, down) <= more
    ensures x <= more * down / up
  {
    var q := CeilDiv(x * up, down);
    Scales(q, more, down);
    FloorReaches(x, more * down, up);
  }

  /** What stays carries at least the base it was kept for. */
  lemma StayingCarries(market: Market, index: nat, base: nat, tokens: int)
    requires market.Valid() && market.Prices(index) && market.reserves[index].cFactor != 0
    requires market.StayingTokens(index, base) <= tokens
    ensures base <= market.Carries(index, tokens)
  {
    var reserve := market.reserves[index];
    var price := market.prices[reserve.asset];
    var effective := CeilDiv(base * reserve.scalar, price);
    var underlying := CeilDiv(effective * SCALAR_7, reserve.cFactor);
    UpThenDown(underlying, SCALAR_12, reserve.bRate, tokens);
    assert underlying <= ToAsset(tokens, reserve.bRate);
    UpThenDown(effective, SCALAR_7, reserve.cFactor, ToAsset(tokens, reserve.bRate));
    assert effective <= reserve.Effective(tokens);
    UpThenDown(base, reserve.scalar, price, reserve.Effective(tokens));
    assert reserve.Effective(tokens) * price == price * reserve.Effective(tokens);
  }

  /** The b-tokens an amount came from are all it burns. */
  lemma BurnsNoMore(tokens: nat, rate: int)
    requires 0 < rate
    ensures 0 <= ToAsset(tokens, rate) && ToBTokenUp(ToAsset(tokens, rate), rate) <= tokens
  {
    assert 0 <= tokens * rate;
    var amount := ToAsset(tokens, rate);
    var burnt := ToBTokenUp(amount, rate);
    assert burnt * rate < amount * SCALAR_12 + rate && (tokens + 1) * rate == tokens * rate + rate;
    if burnt > tokens { Scales(tokens + 1, burnt, rate); }
  }

  // ----- the bounds -------------------------------------------------------

  /** Collateral of at least what is required is accepted. */
  lemma RequiredIsAccepted(bounds: Bounds, data: Valued, unit: int)
    requires 0 <= data.liability && 0 < unit && data.collateral >= bounds.Required(data.liability)
    ensures bounds.Accepts(data, unit)
  {
    UpCovers(data.liability * bounds.margin, SCALAR_7);
    if data.liability > 0 {
      Scales(data.liability * bounds.margin, data.collateral * SCALAR_7, unit);
      RatiosCompare(data.collateral, data.liability, unit, bounds.margin);
    }
  }

  /** One exact ratio no less than another floors no less. */
  lemma RatiosCompare(collateral: int, liability: int, unit: int, margin: int)
    requires 0 < liability && liability * margin * unit <= collateral * SCALAR_7 * unit
    ensures unit * margin / SCALAR_7 <= collateral * unit / liability
  {
    var least := unit * margin / SCALAR_7;
    assert least * SCALAR_7 <= unit * margin;
    Scales(least * SCALAR_7, unit * margin, liability);
    assert least * SCALAR_7 * liability == (least * liability) * SCALAR_7;
    assert unit * margin * liability == liability * margin * unit;
    assert collateral * SCALAR_7 * unit == (collateral * unit) * SCALAR_7;
    assert least * liability <= collateral * unit;
    FloorReaches(least, collateral * unit, liability);
  }

  // ----- one reserve at a time --------------------------------------------

  /** Positions that agree but in one reserve differ in value by that reserve alone. */
  lemma {:induction false} OneReserveMoves(market: Market, before: Tokens, after: Tokens, index: nat, n: nat)
    requires market.Valid() && market.CoversCollateral(before) && market.CoversCollateral(after)
    requires forall other :: other != index ==> Held(before, other) == Held(after, other)
    ensures market.CollateralBase(after, n) - market.CollateralBase(before, n)
         == if index < n then market.CollateralIn(after, index) - market.CollateralIn(before, index) else 0
  {
    if n > 0 { OneReserveMoves(market, before, after, index, n - 1); }
  }

  lemma {:induction false} DebtsWeigh(market: Market, debts: Tokens, n: nat)
    requires market.Valid() && market.CoversDebts(debts) && forall index :: index in debts ==> debts[index] > 0
    ensures market.LiabilityBase(debts, n) >= 0
  {
    if n > 0 {
      DebtsWeigh(market, debts, n - 1);
      if n - 1 in debts { DebtWeighs(market, n - 1, debts[n - 1]); }
    }
  }

  lemma DebtWeighs(market: Market, index: nat, tokens: nat)
    requires market.Valid() && market.Prices(index) && market.reserves[index].lFactor != 0
    ensures market.Weighs(index, tokens) >= 0
  {
    var reserve := market.reserves[index];
    UpIsSomething(tokens, reserve.dRate, SCALAR_12);
    var underlying := Up(tokens * reserve.dRate, SCALAR_12);
    UpIsSomething(underlying, SCALAR_7, reserve.lFactor);
    UpIsSomething(market.prices[reserve.asset], reserve.EffectiveDebt(tokens), reserve.scalar);
  }

  lemma UpIsSomething(x: nat, m: nat, y: int)
    requires 0 < y
    ensures Up(x * m, y) >= 0
  {
    assert x * m >= 0;
  }

  /**
   The partial-withdrawal formula. Of the collateral a position shows over
   what is required of it, one reserve's own part may go; what must stay of
   it is the rest of what it carries, converted back with every step rounded
   up.
   */
  function PartStays(market: Market, bounds: Bounds, data: Valued, index: nat, held: int): int
    requires market.Valid() && market.Prices(index) && market.reserves[index].cFactor != 0
  {
    market.StayingTokens(index, Max(market.Carries(index, held)
                                      - (data.collateral - bounds.Required(data.liability)), 0))
  }

  /**
   The formula's own promise: what it lets go is always accepted, whatever
   the roundings on the way, by the exact projection of what the contract
   then leaves.
   */
  lemma FormulaIsAccepted(market: Market, bounds: Bounds, collateral: Tokens, liabilities: Tokens, index: nat,
                          goes: int)
    requires market.Valid() && market.CoversCollateral(collateral) && market.CoversDebts(liabilities)
    requires forall debt :: debt in liabilities ==> liabilities[debt] > 0
    requires market.Prices(index) && market.reserves[index].cFactor != 0
    requires 0 < goes <= Held(collateral, index) - PartStays(market, bounds, market.ValueOf(collateral, liabilities),
                                                             index, Held(collateral, index))
    requires Held(collateral, index) > 0
    ensures 0 <= ToAsset(goes, market.reserves[index].bRate)
    ensures var after := market.AfterTaking(collateral, index, ToAsset(goes, market.reserves[index].bRate));
      && market.CoversCollateral(after) && market.ValueOf(after, liabilities).liability >= 0
      && bounds.Accepts(market.ValueOf(after, liabilities), market.unit)
  {
    var data, held := market.ValueOf(collateral, liabilities), Held(collateral, index);
    var base := Max(market.Carries(index, held) - (data.collateral - bounds.Required(data.liability)), 0);
    BurnsNoMore(goes, market.reserves[index].bRate);
    var after := market.AfterTaking(collateral, index, ToAsset(goes, market.reserves[index].bRate));
    LeavesEnough(market, collateral, index, goes, base);
    OneReserveMoves(market, collateral, after, index, market.size);
    DebtsWeigh(market, liabilities, market.size);
    RequiredIsAccepted(bounds, market.ValueOf(after, liabilities), market.unit);
  }

  /** After it, the reserve still carries the base that was to stay. */
  lemma LeavesEnough(market: Market, collateral: Tokens, index: nat, goes: nat, base: nat)
    requires market.Valid() && market.CoversCollateral(collateral) && Held(collateral, index) > 0
    requires market.Prices(index) && market.reserves[index].cFactor != 0
    requires goes <= Held(collateral, index) - market.StayingTokens(index, base)
    requires 0 <= ToAsset(goes, market.reserves[index].bRate)
    requires ToBTokenUp(ToAsset(goes, market.reserves[index].bRate), market.reserves[index].bRate) <= goes
    ensures var after := market.AfterTaking(collateral, index, ToAsset(goes, market.reserves[index].bRate));
      market.CoversCollateral(after) && market.CollateralIn(after, index) >= base
  {
    var after := market.AfterTaking(collateral, index, ToAsset(goes, market.reserves[index].bRate));
    if Held(after, index) > 0 {
      StayingCarries(market, index, base, Held(after, index));
    } else {
      assert market.StayingTokens(index, base) <= 0;
      StayingCarries(market, index, base, 0);
      CarriesNothing(market, index);
    }
  }

  lemma CarriesNothing(market: Market, index: nat)
    requires market.Valid() && market.Prices(index)
    ensures market.Carries(index, 0) == 0
  {
    var reserve := market.reserves[index];
    assert ToAsset(0, reserve.bRate) == 0 && 0 * reserve.cFactor == 0 && reserve.Effective(0) == 0;
    assert market.prices[reserve.asset] * 0 == 0;
  }
}
