/**
 The unwind planner: which debts to repay from the wallet and which
 collateral to withdraw. Debt that remains is never withdrawn against but by
 amounts whose exact projection stands: a health factor at its margin, and
 collateral enough. The planner backs a partial withdrawal off until its
 projection is accepted; that it never has to is proved, so what it plans is
 a walk over the candidates that never looks twice (`Walk`).
 */
module Unwinding {
  import opened Types
  import opened Rates
  import opened Projection

  const BPS := 10_000
  const REPAY_ALLOWANCE_BPS := 1
  const HEALTH_MARGIN_BPS := 50
  const DUST_FLOOR_BPS := 100
  const BACKOFF_BPS := 1
  const BACKOFF_ROUNDS := 8

  /** What the operator and the pool hold one unwind to. */
  datatype Terms = Terms(primaryAsset: Asset, floor: int, minHealth: int, minCollateral: int) {
    function BoundsOf(): Bounds { Bounds(Up(minHealth * (BPS + HEALTH_MARGIN_BPS), BPS), minCollateral) }

    /** A withdrawal of the primary too small to send. */
    predicate Dust(amount: int) { amount < Max(floor, 0) * DUST_FLOOR_BPS / BPS }
  }

  // ----- what a plan does, read off its actions ---------------------------

  /** The repays of one asset, summed. */
  function Repaid(actions: seq<UnwindAction>, asset: Asset): int
    decreases |actions|
  {
    if actions == [] then 0
    else
      var last := actions[|actions| - 1];
      Repaid(actions[..|actions| - 1], asset) + (if last.Repay? && last.asset == asset then last.amount else 0)
  }

  lemma {:induction false} TakesAppend(actions: seq<UnwindAction>, more: UnwindAction, primary: Asset)
    ensures PrimaryTakes(actions + [more], primary) == PrimaryTakes(actions, primary) + PrimaryTakes([more], primary)
    decreases |actions|
  {
    if actions == [] {
      assert actions + [more] == [more];
    } else {
      var longer := actions + [more];
      assert longer[0] == actions[0] && longer[1..] == actions[1..] + [more];
      TakesAppend(actions[1..], more, primary);
      assert PrimaryTakes(longer, primary) == TakeOf(longer[0], primary) + PrimaryTakes(longer[1..], primary);
      assert PrimaryTakes(actions, primary) == TakeOf(actions[0], primary) + PrimaryTakes(actions[1..], primary);
    }
  }

  /** The amount one action takes of the primary, if it takes of it. */
  function TakeOf(action: UnwindAction, primary: Asset): seq<int> {
    match action
    case Withdraw(asset, amount) => if asset == primary then [amount] else []
    case WithdrawAll(asset) => if asset == primary then [WITHDRAW_ALL] else []
    case Repay(_, _) => []
  }

  lemma TakesOneMore(actions: seq<UnwindAction>, more: UnwindAction, primary: Asset)
    ensures PrimaryTakes(actions + [more], primary) == PrimaryTakes(actions, primary) + TakeOf(more, primary)
  {
    TakesAppend(actions, more, primary);
    assert [more][1..] == [];
    assert PrimaryTakes([more], primary) == TakeOf(more, primary);
  }

  /** What is spent of an asset is what was repaid of it, out of what the wallet had. */
  ghost predicate PaysFor(funds: Amounts, wallet: Amounts, spend: Amounts, actions: seq<UnwindAction>, asset: Asset) {
    && Repaid(actions, asset) == Amount(spend, asset)
    && Amount(funds, asset) == Amount(wallet, asset) + Amount(spend, asset)
    && 0 <= Amount(spend, asset) <= Max(Amount(funds, asset), 0)
  }

  ghost predicate Pays(funds: Amounts, wallet: Amounts, spend: Amounts, actions: seq<UnwindAction>) {
    forall asset :: PaysFor(funds, wallet, spend, actions, asset)
  }

  lemma RepaidOneMore(actions: seq<UnwindAction>, more: UnwindAction, asset: Asset)
    ensures Repaid(actions + [more], asset) ==
      Repaid(actions, asset) + (if more.Repay? && more.asset == asset then more.amount else 0)
  {
    assert (actions + [more])[..|actions|] == actions;
  }

  /** A withdrawal leaves what is paid as it was. */
  lemma PaysStill(funds: Amounts, wallet: Amounts, spend: Amounts, actions: seq<UnwindAction>, more: UnwindAction)
    requires !more.Repay? && Pays(funds, wallet, spend, actions)
    ensures Pays(funds, wallet, spend, actions + [more])
  {
    forall asset ensures PaysFor(funds, wallet, spend, actions + [more], asset) {
      assert PaysFor(funds, wallet, spend, actions, asset);
      RepaidOneMore(actions, more, asset);
    }
  }

  /** And a repay within what the wallet has moves exactly its amount. */
  lemma PaysOneMore(funds: Amounts, wallet: Amounts, spend: Amounts, actions: seq<UnwindAction>, asset: Asset,
                    amount: int)
    requires Pays(funds, wallet, spend, actions) && 0 <= amount <= Amount(wallet, asset)
    ensures Pays(funds, wallet[asset := Amount(wallet, asset) - amount],
                 if amount == 0 then spend else spend[asset := Amount(spend, asset) + amount],
                 actions + [Repay(asset, amount)])
  {
    var wallet', spend' := wallet[asset := Amount(wallet, asset) - amount],
      if amount == 0 then spend else spend[asset := Amount(spend, asset) + amount];
    forall other ensures PaysFor(funds, wallet', spend', actions + [Repay(asset, amount)], other) {
      assert PaysFor(funds, wallet, spend, actions, other);
      RepaidOneMore(actions, Repay(asset, amount), other);
    }
  }

  // ----- step 1: repays ---------------------------------------------------

  /** A debt in underlying, with a basis point and a unit to spare. */
  function Wanted(owing: int, rate: int): int
    requires 0 < owing && 0 < rate
  {
    var debt := CeilDiv(owing * rate, SCALAR_12);
    debt + debt * REPAY_ALLOWANCE_BPS / BPS + 1
  }

  /** What is repaid of a debt, out of what the wallet has of its asset. */
  function RepayOf(owing: int, rate: int, has: int): int
    requires 0 < rate
  {
    if owing <= 0 || has <= 0 then 0 else Min(Wanted(owing, rate), has)
  }

  /** What the plan projects is left of it: one the wallet caps is projected to clear nothing. */
  function LeftOf(owing: int, rate: int, has: int): int
    requires 0 < rate
  {
    if owing <= 0 then 0
    else if has <= 0 then owing
    else
      var amount := RepayOf(owing, rate, has);
      var left := owing - Min(amount * SCALAR_12 / rate, owing);
      if left == 0 && amount < Wanted(owing, rate) then owing else left
  }

  /** A repay is of something, no more than the wallet has, and never leaves less than nothing. */
  lemma RepaysWithin(owing: int, rate: int, has: int)
    requires 0 < owing && 0 < rate && 0 < has
    ensures 0 < RepayOf(owing, rate, has) <= has
    ensures 0 <= LeftOf(owing, rate, has) <= owing
  {
    var amount := RepayOf(owing, rate, has);
    assert Wanted(owing, rate) > 0;
    assert 0 <= amount * SCALAR_12 / rate;
  }

  /** The repay of one debt, if it is owed and the wallet has any of its asset. */
  function RepayStep(market: Market, owed: Tokens, funds: Amounts, index: nat): seq<UnwindAction>
    requires market.Valid() && (index in owed ==> index in market.reserves)
  {
    if Held(owed, index) <= 0 || Amount(funds, market.reserves[index].asset) <= 0 then []
    else
      var reserve := market.reserves[index];
      [Repay(reserve.asset, RepayOf(owed[index], reserve.dRate, Amount(funds, reserve.asset)))]
  }

  /** Those of the first `n` reserves, in reserve-index order. */
  function RepaySteps(market: Market, owed: Tokens, funds: Amounts, n: nat): seq<UnwindAction>
    requires market.Valid() && forall index :: index in owed ==> index in market.reserves
  {
    if n == 0 then [] else RepaySteps(market, owed, funds, n - 1) + RepayStep(market, owed, funds, n - 1)
  }

  lemma {:induction false} RepaysMoveNoCollateral(market: Market, owed: Tokens, funds: Amounts, n: nat, tokens: Tokens)
    requires market.Valid() && forall index :: index in owed ==> index in market.reserves
    ensures AfterActions(market, tokens, RepaySteps(market, owed, funds, n)) == tokens
    ensures forall action :: action in RepaySteps(market, owed, funds, n) ==> action.Repay?
  {
    if n > 0 {
      RepaysMoveNoCollateral(market, owed, funds, n - 1, tokens);
      AfterActionsSplits(market, tokens, RepaySteps(market, owed, funds, n - 1), RepayStep(market, owed, funds, n - 1));
    }
  }

  /** The assets of the debts of the first `n` reserves, in reserve-index order. */
  function DebtAssets(market: Market, debts: Tokens, n: nat): seq<Asset>
    requires market.Valid() && forall index :: index in debts ==> index in market.reserves
  {
    if n == 0 then []
    else DebtAssets(market, debts, n - 1) + (if n - 1 in debts then [market.reserves[n - 1].asset] else [])
  }

  lemma {:induction false} NoAssetsSoFar(market: Market, debts: Tokens, n: nat)
    requires market.Valid() && forall index :: index in debts ==> index in market.reserves
    ensures DebtAssets(market, debts, n) == [] <==> forall index :: 0 <= index < n ==> index !in debts
  {
    if n > 0 { NoAssetsSoFar(market, debts, n - 1); }
  }

  lemma NoDebtNoAssets(market: Market, debts: Tokens)
    requires market.Valid() && forall index :: index in debts ==> index in market.reserves
    ensures DebtAssets(market, debts, market.size) == [] <==> debts == map[]
  {
    NoAssetsSoFar(market, debts, market.size);
    if debts != map[] {
      var index :| index in debts;
      assert 0 <= index < market.size;
    }
  }

  // ----- step 2: with no debt left ----------------------------------------

  function FreeStep(market: Market, tokens: Tokens, primary: nat, index: nat): seq<UnwindAction>
    requires market.Valid() && (index in tokens ==> index in market.reserves)
  {
    if index != primary && Held(tokens, index) > 0 then [WithdrawAll(market.reserves[index].asset)] else []
  }

  /** All of every collateral but the primary, of the first `n` reserves, in reserve-index order. */
  function FreeSteps(market: Market, tokens: Tokens, primary: nat, n: nat): seq<UnwindAction>
    requires market.Valid() && forall index :: index in tokens ==> index in market.reserves
  {
    if n == 0 then []
    else FreeSteps(market, tokens, primary, n - 1) + FreeStep(market, tokens, primary, n - 1)
  }

  /** And of the primary all, or its excess over the floor unless that is dust. */
  function FreePrimary(market: Market, terms: Terms, held: int): seq<UnwindAction>
    requires market.Valid() && terms.primaryAsset in market.assetIndex
  {
    var excess := PrimaryExcess(held, market.reserves[market.assetIndex[terms.primaryAsset]].bRate, terms.floor);
    if held <= 0 then []
    else if terms.floor <= 0 then [WithdrawAll(terms.primaryAsset)]
    else if excess <= 0 || terms.Dust(excess) then []
    else [Withdraw(terms.primaryAsset, excess)]
  }

  /** What step 2 withdraws but the primary is exactly everything held but the primary, whole. */
  lemma {:induction false} FreeTakesExactly(market: Market, tokens: Tokens, primary: nat, n: nat, action: UnwindAction)
    requires market.Valid() && forall index :: index in tokens ==> index in market.reserves
    ensures action in FreeSteps(market, tokens, primary, n) <==>
      exists index :: 0 <= index < n && index != primary && Held(tokens, index) > 0
        && action == WithdrawAll(market.reserves[index].asset)
  {
    if n > 0 {
      FreeTakesExactly(market, tokens, primary, n - 1, action);
    }
  }

  // ----- step 3: with debt left -------------------------------------------

  /** A position that keeps debt, as step 3 judges it. */
  datatype Position = Position(market: Market, terms: Terms, liabilities: Tokens) {
    ghost predicate Valid() {
      && market.Valid() && terms.primaryAsset in market.assetIndex
      && forall index :: index in liabilities ==> liabilities[index] > 0
    }

    function Primary(): nat
      requires terms.primaryAsset in market.assetIndex
    {
      market.assetIndex[terms.primaryAsset]
    }

    /** Everything it takes to value the position with this collateral is known. */
    predicate Covers(tokens: Tokens) { market.CoversCollateral(tokens) && market.CoversDebts(liabilities) }

    function ValueOf(tokens: Tokens): (data: Valued)
      requires Valid() && Covers(tokens)
      ensures 0 <= data.liability
    {
      DebtsWeigh(market, liabilities, market.size);
      market.ValueOf(tokens, liabilities)
    }

    /** With this collateral the position is one step 3 may rest on. */
    ghost predicate Stands(tokens: Tokens)
      requires Valid()
    {
      Covers(tokens) && terms.BoundsOf().Accepts(ValueOf(tokens), market.unit)
    }

    /** And with this it is within the margin of its minimum, where the walk ends. */
    ghost predicate Rests(tokens: Tokens)
      requires Valid()
    {
      !Covers(tokens) || ValueOf(tokens).IsUnder(market.unit, terms.BoundsOf().margin)
    }

    /** What the formula lets go of one reserve, the primary down to its floor at most. */
    ghost function Goes(tokens: Tokens, index: nat): int
      requires Valid() && Covers(tokens) && market.Prices(index) && market.reserves[index].cFactor != 0
    {
      var held := Held(tokens, index);
      var goes := held - PartStays(market, terms.BoundsOf(), ValueOf(tokens), index, held);
      if index == Primary() then Min(goes, held - FloorTokens(terms.floor, market.reserves[index].bRate)) else goes
    }

    /** The partial withdrawal of one reserve: none where it carries nothing, nothing may go, or that is dust. */
    ghost function Part(tokens: Tokens, index: nat): Option<UnwindAction>
      requires Valid() && Covers(tokens) && index in market.reserves
    {
      var reserve := market.reserves[index];
      if reserve.cFactor == 0 || Held(tokens, index) <= 0 || Goes(tokens, index) <= 0 then None
      else
        var amount := ToAsset(Goes(tokens, index), reserve.bRate);
        if amount <= 0 || (index == Primary() && terms.Dust(amount)) then None
        else Some(Withdraw(reserve.asset, amount))
    }

    /** One candidate: all of it, or the primary's excess, when what is left stands; or else a part of it. */
    ghost function Choice(tokens: Tokens, index: nat): Option<UnwindAction>
      requires Valid() && Covers(tokens) && index in market.reserves
    {
      if index != Primary() then
        if Stands(tokens - {index}) then Some(WithdrawAll(market.reserves[index].asset)) else Part(tokens, index)
      else
        var excess := PrimaryExcess(Held(tokens, index), market.reserves[index].bRate, terms.floor);
        if excess <= 0 || terms.Dust(excess) then None
        else if Stands(market.AfterTaking(tokens, index, excess)) then Some(Withdraw(terms.primaryAsset, excess))
        else Part(tokens, index)
    }

    /** Step 3: each candidate's choice in turn, until the position is within its margin. */
    ghost function Walk(tokens: Tokens, order: seq<nat>): seq<UnwindAction>
      requires Valid() && forall index :: index in order ==> index in market.reserves
      decreases |order|
    {
      if order == [] || Rests(tokens) then []
      else
        match Choice(tokens, order[0])
        case None => Walk(tokens, order[1..])
        case Some(action) => [action] + Walk(AfterAction(market, tokens, action), order[1..])
    }

    /** What a candidate is worth as collateral. */
    function Worth(tokens: Tokens, index: nat): int
      requires Valid() && Covers(tokens)
    {
      market.CollateralIn(tokens, index)
    }

    /** Collateral that is also a debt comes first, then the rest, then the primary. */
    function Rank(index: nat): nat
      requires terms.primaryAsset in market.assetIndex
    {
      if index == Primary() then 2 else if index in liabilities then 0 else 1
    }

    /** The one order of candidates: by rank, the rest by what it is worth, and then by reserve index. */
    ghost predicate Before(tokens: Tokens, a: nat, b: nat)
      requires Valid() && Covers(tokens)
    {
      || Rank(a) < Rank(b)
      || (Rank(a) == Rank(b) == 1 && Worth(tokens, a) < Worth(tokens, b))
      || (Rank(a) == Rank(b) && (Rank(a) == 1 ==> Worth(tokens, a) == Worth(tokens, b)) && a < b)
    }

    ghost predicate InOrder(tokens: Tokens, order: seq<nat>)
      requires Valid() && Covers(tokens)
    {
      forall i, j :: 0 <= i < j < |order| ==> Before(tokens, order[i], order[j])
    }

    /** The candidates: every collateral held, once, in that order. */
    ghost predicate IsOrder(tokens: Tokens, order: seq<nat>)
      requires Valid() && Covers(tokens)
    {
      && (forall index :: index in order <==> Held(tokens, index) > 0)
      && InOrder(tokens, order)
    }
  }

  lemma CoversLess(p: Position, tokens: Tokens, index: nat, amount: nat)
    requires p.Valid() && p.Covers(tokens) && index in p.market.reserves
    ensures p.Covers(tokens - {index}) && p.Covers(p.market.AfterTaking(tokens, index, amount))
  {
    if Held(tokens, index) > 0 { assert p.market.Prices(index); }
  }

  /** The formula's amount stands: the back-off has nothing to do. */
  lemma PartStands(p: Position, tokens: Tokens, index: nat)
    requires p.Valid() && p.Covers(tokens) && index in p.market.reserves && p.Part(tokens, index).Some?
    ensures p.Stands(AfterAction(p.market, tokens, p.Part(tokens, index).value))
  {
    FormulaIsAccepted(p.market, p.terms.BoundsOf(), tokens, p.liabilities, index, p.Goes(tokens, index));
  }

  /** So does every choice. */
  lemma ChoiceStands(p: Position, tokens: Tokens, index: nat)
    requires p.Valid() && p.Covers(tokens) && index in p.market.reserves && p.Choice(tokens, index).Some?
    ensures p.Stands(AfterAction(p.market, tokens, p.Choice(tokens, index).value))
  {
    if p.Choice(tokens, index) == p.Part(tokens, index) && p.Part(tokens, index).Some? { PartStands(p, tokens, index); }
  }

  /** And so the whole walk rests on a position that stands, or moved nothing. */
  lemma {:induction false} WalkStands(p: Position, tokens: Tokens, order: seq<nat>)
    requires p.Valid() && forall index :: index in order ==> index in p.market.reserves
    ensures var walk := p.Walk(tokens, order);
      walk == [] || p.Stands(AfterActions(p.market, tokens, walk))
    ensures forall action :: action in p.Walk(tokens, order) ==> !action.Repay?
    decreases |order|
  {
    if order != [] && !p.Rests(tokens) {
      var choice := p.Choice(tokens, order[0]);
      if choice.None? {
        WalkStands(p, tokens, order[1..]);
      } else {
        ChoiceStands(p, tokens, order[0]);
        var next := AfterAction(p.market, tokens, choice.value);
        WalkStands(p, next, order[1..]);
        AfterActionsSplits(p.market, tokens, [choice.value], p.Walk(next, order[1..]));
        assert [choice.value][..0] == [];
        assert AfterActions(p.market, tokens, [choice.value]) == next;
      }
    }
  }

  lemma SomethingIn(order: seq<nat>)
    ensures order == [] || exists index :: index in order
  {
    if order != [] { assert order[0] in order; }
  }

  /** Two orders of one collateral are the same order. */
  lemma {:induction false} OneOrder(p: Position, tokens: Tokens, a: seq<nat>, b: seq<nat>)
    requires p.Valid() && p.Covers(tokens) && p.InOrder(tokens, a) && p.InOrder(tokens, b)
    requires forall index :: index in a <==> index in b
    ensures a == b
    decreases |a|
  {
    if a == [] {
      SomethingIn(b);
    } else {
      assert a[0] in b && b[0] in a by { assert a[0] in a; }
      var i :| 0 <= i < |b| && b[i] == a[0];
      var j :| 0 <= j < |a| && a[j] == b[0];
      assert i == 0;
      forall index ensures index in a[1..] <==> index in b[1..] {
        assert index in a[1..] <==> index in a && index != a[0] by { Drops(p, tokens, a, index); }
        assert index in b[1..] <==> index in b && index != b[0] by { Drops(p, tokens, b, index); }
      }
      OneOrder(p, tokens, a[1..], b[1..]);
    }
  }

  /** One more of the rest, where everything before it is worth no more and everything after it more. */
  lemma InsertsInOrder(p: Position, tokens: Tokens, rest: seq<nat>, k: nat, index: nat)
    requires p.Valid() && p.Covers(tokens) && p.InOrder(tokens, rest) && k <= |rest|
    requires forall j :: 0 <= j < k ==> p.Before(tokens, rest[j], index)
    requires forall j :: k <= j < |rest| ==> p.Before(tokens, index, rest[j])
    ensures p.InOrder(tokens, rest[..k] + [index] + rest[k..])
  {
  }

  /** What is worth no more than the one before it in order is worth no more than any before. */
  lemma WorthRises(p: Position, tokens: Tokens, rest: seq<nat>, j: nat, k: nat)
    requires p.Valid() && p.Covers(tokens) && p.InOrder(tokens, rest) && j <= k < |rest|
    requires forall i :: 0 <= i < |rest| ==> p.Rank(rest[i]) == 1
    ensures p.Worth(tokens, rest[j]) <= p.Worth(tokens, rest[k])
  {
    if j < k { assert p.Before(tokens, rest[j], rest[k]); }
  }

  /** The walk, one candidate on. */
  lemma WalksOn(p: Position, tokens: Tokens, order: seq<nat>, k: nat)
    requires p.Valid() && k < |order| && forall index :: index in order ==> index in p.market.reserves
    requires p.Covers(tokens) && !p.Rests(tokens)
    ensures p.Walk(tokens, order[k..]) ==
      match p.Choice(tokens, order[k])
      case None => p.Walk(tokens, order[k + 1..])
      case Some(action) => [action] + p.Walk(AfterAction(p.market, tokens, action), order[k + 1..])
  {
    assert order[k..][0] == order[k] && order[k..][1..] == order[k + 1..];
  }

  lemma Drops(p: Position, tokens: Tokens, order: seq<nat>, index: nat)
    requires p.Valid() && p.Covers(tokens) && p.InOrder(tokens, order) && order != []
    ensures index in order[1..] <==> index in order && index != order[0]
  {
    if index in order[1..] {
      var k :| 0 <= k < |order[1..]| && order[1..][k] == index;
      assert order[k + 1] == index && p.Before(tokens, order[0], order[k + 1]);
    }
  }

  // ----- the planner ------------------------------------------------------

  class Planner {
    const market: Market
    const terms: Terms
    var collateral: Tokens
    var liabilities: Tokens
    var wallet: Amounts
    var actions: seq<UnwindAction>
    var spend: Amounts
    /** What planning began with, and whether some arithmetic has not fitted since. */
    ghost const had: Tokens
    ghost const owed: Tokens
    ghost const funds: Amounts
    ghost var overflowed: bool

    constructor (market: Market, terms: Terms, collateral: Tokens, liabilities: Tokens, wallet: Amounts)
      ensures Fresh() && this.market == market && this.terms == terms
      ensures had == collateral && owed == liabilities && funds == wallet
    {
      this.market, this.terms := market, terms;
      this.collateral, this.liabilities, this.wallet := collateral, liabilities, wallet;
      actions, spend := [], map[];
      had, owed, funds, overflowed := collateral, liabilities, wallet, false;
    }

    /** Nothing has been planned yet. */
    ghost predicate Fresh()
      reads this
    {
      && collateral == had && liabilities == owed && wallet == funds
      && actions == [] && spend == map[] && !overflowed
    }

    predicate Listed() { terms.primaryAsset in market.assetIndex }

    function Primary(): nat
      requires Listed()
    {
      market.assetIndex[terms.primaryAsset]
    }

    /** The position as step 3 judges it. */
    function Now(): Position
      reads this`liabilities
    {
      Position(market, terms, liabilities)
    }

    /** The primary withdrawn is within its excess, of what was held at the planning rate. */
    ghost predicate TakesWithin()
      requires market.Valid() && Listed()
      reads this`actions
    {
      WithinExcess(actions, terms.primaryAsset, Max(Held(had, Primary()), 0), market.reserves[Primary()].bRate,
                   terms.floor)
    }

    /** Spending is what the repays add up to, out of what the wallet had, and the primary is taken within bounds. */
    ghost predicate Valid()
      reads this
    {
      market.Valid() && Listed() && Pays(funds, wallet, spend, actions) && TakesWithin()
    }

    /** The primary has not been touched. */
    ghost predicate Untaken()
      reads this
      requires Listed()
    {
      PrimaryTakes(actions, terms.primaryAsset) == [] && Held(collateral, Primary()) == Held(had, Primary())
    }

    /** The collateral is what the contract leaves of it after the actions planned. */
    ghost predicate Linked()
      requires market.Valid()
      reads this
    {
      collateral == AfterActions(market, had, actions)
    }

    /** Some sum or product did not fit. */
    method Overflows() returns (yes: bool)
      modifies `overflowed
      ensures overflowed == (old(overflowed) || yes)
    {
      yes := *;
      overflowed := overflowed || yes;
    }

    /** Withdraws from any reserve but the primary's. */
    method PushOther(index: nat, action: UnwindAction)
      requires Valid() && Untaken() && index != Primary() && index in market.reserves
      requires !action.Repay? && action.asset == market.reserves[index].asset
      modifies `actions
      ensures Valid() && Untaken() && actions == old(actions) + [action]
    {
      TakesOneMore(actions, action, terms.primaryAsset);
      PaysStill(funds, wallet, spend, actions, action);
      actions := actions + [action];
    }

    /** Withdraws from the primary, once, and within its excess when there is a floor. */
    method PushPrimary(action: UnwindAction)
      requires Valid() && Untaken()
      requires action.WithdrawAll? || action.Withdraw?
      requires action.asset == terms.primaryAsset
      requires terms.floor > 0 ==>
        && action.Withdraw?
        && action.amount <= PrimaryExcess(Max(Held(had, Primary()), 0), market.reserves[Primary()].bRate, terms.floor)
      modifies `actions
      ensures Valid() && actions == old(actions) + [action]
    {
      TakesOneMore(actions, action, terms.primaryAsset);
      PaysStill(funds, wallet, spend, actions, action);
      actions := actions + [action];
    }

    // ----- step 1 ---------------------------------------------------------

    /** One debt's repay, in the actions, and what is left of it, in the projected position. */
    ghost predicate Repays(index: nat)
      requires market.Valid() && index in owed && index in market.reserves
      reads this
    {
      var reserve := market.reserves[index];
      && Repaid(actions, reserve.asset) == RepayOf(owed[index], reserve.dRate, Amount(funds, reserve.asset))
      && Held(liabilities, index) == LeftOf(owed[index], reserve.dRate, Amount(funds, reserve.asset))
      && (index in liabilities ==> liabilities[index] > 0)
    }

    /** A debt not come to yet. */
    ghost predicate Waits(index: nat)
      requires market.Valid() && index in owed && index in market.reserves
      reads this
    {
      var asset := market.reserves[index].asset;
      && Repaid(actions, asset) == 0 && Amount(wallet, asset) == Amount(funds, asset)
      && index in liabilities && liabilities[index] == owed[index]
    }

    ghost predicate RepaidUpTo(n: nat)
      requires market.Valid() && forall index :: index in owed ==> index in market.reserves
      reads this
    {
      && actions == RepaySteps(market, owed, funds, n)
      && (forall index :: index in owed && index < n ==> Repays(index))
      && (forall index :: index in owed && index >= n ==> Waits(index))
      && liabilities.Keys <= owed.Keys
    }

    /** Repays each debt the wallet holds something of, in reserve-index order. */
    method RepayDebts() returns (ok: bool)
      requires Valid() && Untaken() && Linked() && !overflowed && collateral == had
      requires (forall index :: index in owed ==> index in market.reserves) && RepaidUpTo(0)
      modifies `actions, `spend, `wallet, `liabilities, `overflowed
      ensures ok <==> !overflowed
      ensures ok ==> Valid() && Untaken() && Linked() && RepaidUpTo(market.size)
      ensures ok ==> forall index :: index in liabilities ==> liabilities[index] > 0
    {
      for index := 0 to market.size
        invariant Valid() && Untaken() && RepaidUpTo(index) && !overflowed
      {
        var overflows := Overflows();
        if overflows { return false; }
        RepayNext(index);
      }
      RepaysMoveNoCollateral(market, owed, funds, market.size, had);
      ok := true;
    }

    /** The next reserve's debt, if there is one. */
    method RepayNext(index: nat)
      requires Valid() && Untaken() && forall other :: other in owed ==> other in market.reserves
      requires RepaidUpTo(index)
      modifies `actions, `spend, `wallet, `liabilities
      ensures Valid() && Untaken() && RepaidUpTo(index + 1)
    {
      if index in liabilities {
        RepayDebt(index);
        forall other | other in owed && other != index
          ensures other < index ==> Repays(other)
          ensures other > index ==> Waits(other)
        {
          assert old(if other < index then Repays(other) else Waits(other));
        }
      }
    }

    /** One debt: dropped when nothing is owed, left alone when the wallet has nothing, repaid otherwise. */
    method RepayDebt(index: nat)
      requires Valid() && Untaken() && index in owed && index in market.reserves && Waits(index)
      modifies `actions, `spend, `wallet, `liabilities
      ensures Valid() && Untaken() && Repays(index)
      ensures actions == old(actions) + RepayStep(market, owed, funds, index)
      ensures OthersStand(old(actions), old(wallet), old(liabilities), index)
    {
      var owing := Held(liabilities, index);
      var asset := market.reserves[index].asset;
      if owing <= 0 {
        liabilities := liabilities - {index};
      } else if Amount(wallet, asset) > 0 {
        var rate, has := market.reserves[index].dRate, wallet[asset];
        RepaysWithin(owing, rate, has);
        PayDown(index, RepayOf(owing, rate, has), LeftOf(owing, rate, has));
      }
    }

    /** Repays `amount` of one debt, projected to leave `left` of it. */
    method PayDown(index: nat, amount: int, left: int)
      requires Valid() && Untaken() && index in market.reserves && index in liabilities && 0 <= left
      requires market.reserves[index].asset in wallet && 0 <= amount <= wallet[market.reserves[index].asset]
      modifies `actions, `spend, `wallet, `liabilities
      ensures Valid() && Untaken() && actions == old(actions) + [Repay(market.reserves[index].asset, amount)]
      ensures Repaid(actions, market.reserves[index].asset) ==
        old(Repaid(actions, market.reserves[index].asset)) + amount
      ensures Held(liabilities, index) == left && (index in liabilities ==> left > 0)
      ensures OthersStand(old(actions), old(wallet), old(liabilities), index)
    {
      var asset := market.reserves[index].asset;
      liabilities := if left > 0 then liabilities[index := left] else liabilities - {index};
      forall other | other in market.reserves
        ensures Repaid(actions + [Repay(asset, amount)], market.reserves[other].asset)
             == Repaid(actions, market.reserves[other].asset) + (if other == index then amount else 0)
      {
        RepaidOneMore(actions, Repay(asset, amount), market.reserves[other].asset);
      }
      PushRepay(asset, amount);
    }

    /** One repay, out of what the wallet has. */
    method PushRepay(asset: Asset, amount: int)
      requires Valid() && Untaken() && asset in wallet && 0 <= amount <= wallet[asset]
      modifies `actions, `spend, `wallet
      ensures Valid() && Untaken() && actions == old(actions) + [Repay(asset, amount)]
      ensures wallet == old(wallet)[asset := Amount(old(wallet), asset) - amount]
    {
      TakesOneMore(actions, Repay(asset, amount), terms.primaryAsset);
      PaysOneMore(funds, wallet, spend, actions, asset, amount);
      wallet := wallet[asset := Amount(wallet, asset) - amount];
      if amount != 0 { spend := spend[asset := Amount(spend, asset) + amount]; }
      actions := actions + [Repay(asset, amount)];
    }

    /** No other reserve's repays, balance or debt moved. */
    ghost predicate OthersStand(actions': seq<UnwindAction>, wallet': Amounts, liabilities': Tokens, index: nat)
      reads this
    {
      && (forall other :: other in market.reserves && other != index ==>
            && Repaid(actions, market.reserves[other].asset) == Repaid(actions', market.reserves[other].asset)
            && Amount(wallet, market.reserves[other].asset) == Amount(wallet', market.reserves[other].asset))
      && (forall other :: other != index ==>
            (other in liabilities <==> other in liabilities') && Held(liabilities, other) == Held(liabilities', other))
    }

    // ----- step 2 ---------------------------------------------------------

    /** The primary underlying above its floor. */
    function Excess(): int
      requires market.Valid() && Listed()
      reads this
    {
      PrimaryExcess(Held(collateral, Primary()), market.reserves[Primary()].bRate, terms.floor)
    }

    /** With no debt left, all but the primary goes entirely and the primary down to its floor; dust stays. */
    method WithdrawFree() returns (ok: bool)
      requires Valid() && Untaken() && forall index :: index in collateral ==> index in market.reserves
      modifies `actions, `collateral, `overflowed
      ensures old(overflowed) ==> overflowed
      ensures !ok ==> overflowed
      ensures ok ==>
        && Valid()
        && actions == old(actions) + FreeSteps(market, old(collateral), Primary(), market.size)
                        + FreePrimary(market, terms, Held(old(collateral), Primary()))
    {
      ok := true;
      WithdrawOthers();
      var held := Held(collateral, Primary());
      if held <= 0 { return; }
      if terms.floor <= 0 {
        PushPrimary(WithdrawAll(terms.primaryAsset));
        return;
      }
      var overflows := Overflows();
      if overflows { return false; }
      var excess := Excess();
      if excess <= 0 || terms.Dust(excess) { return; }
      PushPrimary(Withdraw(terms.primaryAsset, excess));
    }

    /** Every collateral but the primary, in reserve-index order; one that is nothing is dropped and not asked for. */
    method WithdrawOthers()
      requires Valid() && Untaken() && forall index :: index in collateral ==> index in market.reserves
      modifies `actions, `collateral
      ensures Valid() && Untaken() && Held(collateral, Primary()) == Held(old(collateral), Primary())
      ensures actions == old(actions) + FreeSteps(market, old(collateral), Primary(), market.size)
    {
      ghost var all := collateral;
      for index := 0 to market.size
        invariant Valid() && Untaken() && Held(collateral, Primary()) == Held(all, Primary())
        invariant forall other :: other in collateral ==> other in market.reserves
        invariant forall other: nat :: other >= index ==> Held(collateral, other) == Held(all, other)
        invariant actions == old(actions) + FreeSteps(market, all, Primary(), index)
      {
        if index != Primary() && index in collateral { WithdrawOther(index); }
      }
    }

    /** One of them. */
    method WithdrawOther(index: nat)
      requires Valid() && Untaken() && index != Primary() && index in collateral && index in market.reserves
      modifies `actions, `collateral
      ensures Valid() && Untaken() && collateral == old(collateral) - {index}
      ensures actions == old(actions) + FreeStep(market, old(collateral), Primary(), index)
    {
      if collateral[index] > 0 {
        PushOther(index, WithdrawAll(market.reserves[index].asset));
      }
      collateral := collateral - {index};
    }

    // ----- step 3 ---------------------------------------------------------

    /** The position valued with this collateral, if all of it is known and every sum fits. */
    method Project(tokens: Tokens) returns (data: Option<Valued>)
      requires Now().Valid()
      modifies `overflowed
      ensures old(overflowed) ==> overflowed
      ensures data.Some? ==> Now().Covers(tokens) && data.value == Now().ValueOf(tokens)
      ensures data.None? ==> overflowed || !Now().Covers(tokens)
    {
      if !market.CoversCollateral(tokens) || !market.CoversDebts(liabilities) { return None; }
      var overflows := Overflows();
      if overflows { return None; }
      var base, debt := 0, 0;
      for index := 0 to market.size
        invariant base == market.CollateralBase(tokens, index)
      {
        if index in tokens && tokens[index] != 0 { base := base + market.Carries(index, tokens[index]); }
      }
      for index := 0 to market.size
        invariant debt == market.LiabilityBase(liabilities, index)
      {
        if index in liabilities && liabilities[index] != 0 { debt := debt + market.Weighs(index, liabilities[index]); }
      }
      data := Some(Valued(base, debt));
    }

    /** What step 3 works on: a position that stays known, linked to the actions planned. */
    ghost predicate Walking()
      reads this
    {
      Valid() && Linked() && Now().Valid() && Now().Covers(collateral)
    }

    /** What one action leaves, or none. */
    ghost predicate Moved(actions': seq<UnwindAction>, collateral': Tokens, choice: Option<UnwindAction>)
      requires market.Valid()
      reads this
    {
      match choice
      case None => actions == actions' && collateral == collateral'
      case Some(action) => actions == actions' + [action] && collateral == AfterAction(market, collateral', action)
    }

    lemma LinkedOneMore(actions': seq<UnwindAction>, collateral': Tokens, action: UnwindAction)
      requires market.Valid() && collateral' == AfterActions(market, had, actions')
      ensures AfterActions(market, had, actions' + [action]) == AfterAction(market, collateral', action)
    {
      assert (actions' + [action])[..|actions'|] == actions';
    }

    /** Projects a withdrawal and takes it when what it leaves stands. */
    method TakeWithdrawal(index: nat, amount: int) returns (ok: bool, taken: bool)
      requires Walking() && Untaken() && index in market.reserves
      requires index == Primary() ==>
        amount <= PrimaryExcess(Max(Held(had, Primary()), 0), market.reserves[Primary()].bRate, terms.floor)
      modifies `actions, `collateral, `overflowed
      ensures old(overflowed) ==> overflowed
      ensures !ok ==> overflowed
      ensures ok ==> Walking() && (index != Primary() || !taken ==> Untaken())
      ensures ok ==>
        (taken <==> amount > 0 && Now().Stands(market.AfterTaking(old(collateral), index, amount)))
      ensures ok ==>
        Moved(old(actions), old(collateral),
              if taken then Some(Withdraw(market.reserves[index].asset, amount)) else None)
    {
      if amount <= 0 { return true, false; }
      var next := market.AfterTaking(collateral, index, amount);
      CoversLess(Now(), collateral, index, amount);
      var data := Project(next);
      if data.None? { return false, false; }
      if !terms.BoundsOf().Accepts(data.value, market.unit) { return true, false; }
      PushWithdrawal(index, amount);
      collateral := next;
      return true, true;
    }

    method PushWithdrawal(index: nat, amount: nat)
      requires Valid() && Linked() && Untaken() && index in market.reserves
      requires index == Primary() ==>
        amount <= PrimaryExcess(Max(Held(had, Primary()), 0), market.reserves[Primary()].bRate, terms.floor)
      modifies `actions
      ensures Valid() && (index != Primary() ==> Untaken())
      ensures actions == old(actions) + [Withdraw(market.reserves[index].asset, amount)]
      ensures AfterActions(market, had, actions) == market.AfterTaking(collateral, index, amount)
    {
      var action := Withdraw(market.reserves[index].asset, amount);
      LinkedOneMore(actions, collateral, action);
      if index == Primary() {
        PushPrimary(action);
      } else {
        PushOther(index, action);
      }
    }

    /** A partial withdrawal too small to be worth its fee. */
    predicate TooSmall(index: nat, amount: int)
      requires Listed()
    {
      amount <= 0 || (index == Primary() && terms.Dust(amount))
    }

    /**
     An amount of one reserve, cut by a basis point for every projection
     that refuses it, until one accepts it, it is too small, or the rounds
     are over. An amount that stands is taken as it is.
     */
    method BackOff(index: nat, first: int) returns (ok: bool)
      requires Walking() && Untaken() && index in market.reserves
      requires index == Primary() ==>
        first <= PrimaryExcess(Max(Held(had, Primary()), 0), market.reserves[Primary()].bRate, terms.floor)
      modifies `actions, `collateral, `overflowed
      ensures old(overflowed) ==> overflowed
      ensures !ok ==> overflowed
      ensures ok ==> Walking() && (index != Primary() ==> Untaken())
      ensures ok && TooSmall(index, first) ==> Moved(old(actions), old(collateral), None)
      ensures ok && !TooSmall(index, first) && Now().Stands(market.AfterTaking(old(collateral), index, first)) ==>
        Moved(old(actions), old(collateral), Some(Withdraw(market.reserves[index].asset, first)))
      ensures ok ==> exists choice: Option<UnwindAction> ::
        && Moved(old(actions), old(collateral), choice)
        && (choice.Some? ==> choice.value.Withdraw? && choice.value.amount <= first && Now().Stands(collateral))
    {
      var amount := first;
      for round := 0 to BACKOFF_ROUNDS + 1
        invariant Walking() && Untaken() && Moved(old(actions), old(collateral), None) && amount <= first
        invariant old(overflowed) ==> overflowed
        invariant round == 0 ==> amount == first
        invariant round > 0 ==>
          !TooSmall(index, first) && !Now().Stands(market.AfterTaking(old(collateral), index, first))
      {
        if TooSmall(index, amount) { return true; }
        var taken;
        ok, taken := TakeWithdrawal(index, amount);
        if !ok || taken { return ok; }
        amount := amount - CeilDiv(amount * BACKOFF_BPS, BPS);
      }
      ok := true;
    }

    /** The amount the formula lets go of one reserve's collateral; none where it has no factor or nothing may go. */
    method PartAmount(index: nat, data: Valued) returns (ok: bool, amount: int)
      requires Walking() && Untaken() && index in market.reserves && data == Now().ValueOf(collateral)
      modifies `overflowed
      ensures old(overflowed) ==> overflowed
      ensures !ok ==> overflowed
      ensures ok && TooSmall(index, amount) ==> Now().Part(collateral, index).None?
      ensures ok && !TooSmall(index, amount) ==>
        Now().Part(collateral, index) == Some(Withdraw(market.reserves[index].asset, amount))
      ensures ok && index == Primary() ==>
        amount <= PrimaryExcess(Max(Held(had, Primary()), 0), market.reserves[Primary()].bRate, terms.floor)
    {
      var reserve, held := market.reserves[index], Held(collateral, index);
      ExcessIsSomething(index);
      if reserve.cFactor == 0 || held <= 0 { return true, 0; }
      var overflows := Overflows();
      if overflows { return false, 0; }
      var goes := held - PartStays(market, terms.BoundsOf(), data, index, held);
      if index == Primary() {
        goes := Min(goes, held - FloorTokens(terms.floor, reserve.bRate));
      }
      if goes <= 0 { return true, 0; }
      amount := ToAsset(goes, reserve.bRate);
      if index == Primary() {
        ToAssetGrows(goes, held - FloorTokens(terms.floor, reserve.bRate), reserve.bRate);
      }
      ok := true;
    }

    lemma ExcessIsSomething(index: nat)
      requires market.Valid() && index in market.reserves
      ensures 0 <= PrimaryExcess(Max(Held(had, index), 0), market.reserves[index].bRate, terms.floor)
    {
      var goes := Max(Held(had, index), 0) - FloorTokens(terms.floor, market.reserves[index].bRate);
      if goes > 0 { ToAssetGrows(0, goes, market.reserves[index].bRate); }
    }

    /** Part of one reserve's collateral: what the formula lets go, which stands. */
    method Partial(index: nat, data: Valued) returns (ok: bool)
      requires Walking() && Untaken() && index in market.reserves && data == Now().ValueOf(collateral)
      modifies `actions, `collateral, `overflowed
      ensures old(overflowed) ==> overflowed
      ensures !ok ==> overflowed
      ensures ok ==> Walking() && (index != Primary() ==> Untaken())
      ensures ok ==> Moved(old(actions), old(collateral), old(Now().Part(collateral, index)))
    {
      var amount;
      ok, amount := PartAmount(index, data);
      if !ok { return false; }
      if Now().Part(collateral, index).Some? { PartStands(Now(), collateral, index); }
      ok := BackOff(index, amount);
    }

    /** One candidate in turn: all of it if that still stands, or the primary's excess, or else a part. */
    method WithdrawCandidate(index: nat, data: Valued) returns (ok: bool)
      requires Walking() && Untaken() && index in market.reserves && data == Now().ValueOf(collateral)
      modifies `actions, `collateral, `overflowed
      ensures old(overflowed) ==> overflowed
      ensures !ok ==> overflowed
      ensures ok ==> Walking() && (index != Primary() ==> Untaken())
      ensures ok ==> Moved(old(actions), old(collateral), old(Now().Choice(collateral, index)))
    {
      if index == Primary() {
        var excess := Excess();
        if excess <= 0 || terms.Dust(excess) { return true; }
        var taken;
        ok, taken := TakeWithdrawal(index, excess);
        if !ok || taken { return; }
      } else {
        var taken;
        ok, taken := TakeWhole(index);
        if !ok || taken { return; }
      }
      ok := Partial(index, data);
    }

    /** All of one reserve's collateral, when the rest stands without it. */
    method TakeWhole(index: nat) returns (ok: bool, taken: bool)
      requires Walking() && Untaken() && index in market.reserves && index != Primary()
      modifies `actions, `collateral, `overflowed
      ensures old(overflowed) ==> overflowed
      ensures !ok ==> overflowed
      ensures ok ==> Walking() && Untaken()
      ensures ok ==> (taken <==> Now().Stands(old(collateral) - {index}))
      ensures ok ==>
        Moved(old(actions), old(collateral), if taken then Some(WithdrawAll(market.reserves[index].asset)) else None)
    {
      CoversLess(Now(), collateral, index, 0);
      var whole := Project(collateral - {index});
      if whole.None? { return false, false; }
      if !terms.BoundsOf().Accepts(whole.value, market.unit) { return true, false; }
      LinkedOneMore(actions, collateral, WithdrawAll(market.reserves[index].asset));
      PushOther(index, WithdrawAll(market.reserves[index].asset));
      collateral := collateral - {index};
      return true, true;
    }

    /** The candidates, in the one order there is. */
    method Candidates() returns (order: seq<nat>)
      requires Walking()
      ensures Now().IsOrder(collateral, order)
    {
      var shared: seq<nat>, rest: seq<nat> := [], [];
      for index := 0 to market.size
        invariant forall i: nat :: i in shared <==> i < index && Now().Rank(i) == 0 && Held(collateral, i) > 0
        invariant forall i: nat :: i in rest <==> i < index && Now().Rank(i) == 1 && Held(collateral, i) > 0
        invariant Now().InOrder(collateral, shared) && Now().InOrder(collateral, rest)
      {
        if Held(collateral, index) > 0 && index != Primary() {
          if index in liabilities { shared := shared + [index]; }
          else { rest := Insert(rest, index); }
        }
      }
      order := shared + rest + if Held(collateral, Primary()) > 0 then [Primary()] else [];
    }

    /** Puts one more of the rest where what it is worth says. */
    method Insert(rest: seq<nat>, index: nat) returns (sorted: seq<nat>)
      requires Walking() && Now().InOrder(collateral, rest) && Held(collateral, index) > 0
      requires Now().Rank(index) == 1 && forall i :: i in rest ==> Now().Rank(i) == 1 && i < index
      ensures Now().InOrder(collateral, sorted)
      ensures forall i :: i in sorted <==> i in rest || i == index
    {
      var worth := market.Carries(index, collateral[index]);
      var k := |rest|;
      while k > 0 && worth < Now().Worth(collateral, rest[k - 1])
        invariant 0 <= k <= |rest|
        invariant forall j :: k <= j < |rest| ==> worth < Now().Worth(collateral, rest[j])
      {
        k := k - 1;
      }
      sorted := rest[..k] + [index] + rest[k..];
      forall j | 0 <= j < k ensures Now().Before(collateral, rest[j], index) {
        WorthRises(Now(), collateral, rest, j, k - 1);
      }
      InsertsInOrder(Now(), collateral, rest, k, index);
    }

    /** With debt left, each candidate in turn while the projection stays over its margin. */
    method WithdrawWithinFloor() returns (ok: bool, ghost order: seq<nat>)
      requires Walking() && Untaken()
      modifies `actions, `collateral, `overflowed
      ensures old(overflowed) ==> overflowed
      ensures !ok ==> overflowed
      ensures ok ==> Walking() && Now().IsOrder(old(collateral), order)
      ensures ok ==> forall index :: index in order ==> index in market.reserves
      ensures ok ==> actions == old(actions) + Now().Walk(old(collateral), order)
    {
      var candidates := Candidates();
      order := candidates;
      OnlyTheLastIsThePrimary(order);
      ghost var walk := Now().Walk(collateral, order);
      for k := 0 to |candidates|
        invariant Walking() && (k < |candidates| ==> Untaken()) && (old(overflowed) ==> overflowed)
        invariant old(actions) + walk == actions + Now().Walk(collateral, candidates[k..])
      {
        var rests;
        ok, rests := TakeTurn(candidates, k);
        if !ok { return; }
        if rests { break; }
      }
      var data := Project(collateral);
      ok := data.Some?;
    }

    /** The next candidate's turn, unless the position is within its margin. */
    method TakeTurn(order: seq<nat>, k: nat) returns (ok: bool, rests: bool)
      requires Walking() && Untaken() && k < |order|
      requires forall index :: index in order ==> index in market.reserves
      modifies `actions, `collateral, `overflowed
      ensures old(overflowed) ==> overflowed
      ensures !ok ==> overflowed
      ensures ok ==> Walking() && (rests || order[k] != Primary() ==> Untaken())
      ensures ok && rests ==> Moved(old(actions), old(collateral), None) && Now().Walk(collateral, order[k..]) == []
      ensures ok && !rests ==>
        actions + Now().Walk(collateral, order[k + 1..]) == old(actions) + Now().Walk(old(collateral), order[k..])
    {
      rests := false;
      var data := Project(collateral);
      if data.None? { return false, false; }
      if data.value.IsUnder(market.unit, terms.BoundsOf().margin) { return true, true; }
      ok := WithdrawCandidate(order[k], data.value);
      if ok { TurnWalks(old(actions), old(collateral), order, k); }
    }

    /** What one turn leaves, and the walk from there, are the walk from before it. */
    lemma TurnWalks(actions': seq<UnwindAction>, collateral': Tokens, order: seq<nat>, k: nat)
      requires Now().Valid() && k < |order| && forall index :: index in order ==> index in market.reserves
      requires Now().Covers(collateral') && !Now().Rests(collateral')
      requires Moved(actions', collateral', Now().Choice(collateral', order[k]))
      ensures actions + Now().Walk(collateral, order[k + 1..]) == actions' + Now().Walk(collateral', order[k..])
    {
      WalksOn(Now(), collateral', order, k);
    }

    lemma OnlyTheLastIsThePrimary(order: seq<nat>)
      requires Walking() && Now().IsOrder(collateral, order)
      ensures forall i :: 0 <= i < |order| - 1 ==> order[i] != Primary()
      ensures forall index :: index in order ==> index in market.reserves
    {
      forall i | 0 <= i < |order| - 1 ensures order[i] != Primary() {
        assert Now().Before(collateral, order[i], order[i + 1]);
      }
      forall index | index in order ensures index in market.reserves {
        assert Held(collateral, index) > 0;
      }
    }

    // ----- the whole plan -------------------------------------------------

    /** A pool that knows everything these positions hold or owe. */
    ghost predicate Complete() {
      && Listed()
      && (forall index :: index in had || index in owed ==> market.Prices(index))
      && (forall index :: index in owed ==> market.reserves[index].lFactor != 0)
    }

    /** The plan takes the primary within its excess, and spends what it repays, out of what the wallet had. */
    ghost predicate Keeps(plan: UnwindPlan)
      requires market.Valid() && Listed()
    {
      && WithinExcess(plan.actions, terms.primaryAsset, Max(Held(had, Primary()), 0), market.reserves[Primary()].bRate,
                      terms.floor)
      && forall asset ::
           Repaid(plan.actions, asset) == Amount(plan.spend, asset)
           && 0 <= Amount(plan.spend, asset) <= Max(Amount(funds, asset), 0)
    }

    /** A debt is repaid by what it wants or the wallet has, and is projected to leave what that leaves. */
    ghost predicate Settles(actions: seq<UnwindAction>, index: nat)
      requires market.Valid() && index in owed && index in market.reserves
      reads this`liabilities
    {
      var reserve := market.reserves[index];
      && Repaid(actions, reserve.asset) == RepayOf(owed[index], reserve.dRate, Amount(funds, reserve.asset))
      && Held(liabilities, index) == LeftOf(owed[index], reserve.dRate, Amount(funds, reserve.asset))
      && (index in liabilities ==> liabilities[index] > 0)
    }

    /**
     With debt left: the repays, and then the walk over the candidates in
     their one order; and where it withdrew anything, the position that the
     contract leaves of it stands.
     */
    ghost predicate WalksTo(planned: seq<UnwindAction>, order: seq<nat>)
      requires market.Valid()
      reads this`liabilities
    {
      && Now().Valid() && Now().Covers(had) && Now().IsOrder(had, order)
      && (forall index :: index in owed || index in order ==> index in market.reserves)
      && planned == RepaySteps(market, owed, funds, market.size) + Now().Walk(had, order)
      && (Now().Walk(had, order) == [] || Now().Stands(AfterActions(market, had, planned)))
    }

    lemma StartsValid()
      requires market.Valid() && Fresh() && Listed() && forall index :: index in owed ==> index in market.reserves
      ensures Valid() && Untaken() && Linked() && RepaidUpTo(0)
    {
      forall asset ensures PaysFor(funds, wallet, spend, actions, asset) {}
    }

    /** The walk behind the repays rests on a position that stands, or moved nothing. */
    lemma EndsStanding(order: seq<nat>)
      requires Now().Valid() && forall index :: index in order ==> index in market.reserves
      requires forall index :: index in owed ==> index in market.reserves
      ensures var walk := Now().Walk(had, order);
        walk == [] || Now().Stands(AfterActions(market, had, RepaySteps(market, owed, funds, market.size) + walk))
    {
      var repays, walk := RepaySteps(market, owed, funds, market.size), Now().Walk(had, order);
      RepaysMoveNoCollateral(market, owed, funds, market.size, had);
      AfterActionsSplits(market, had, repays, walk);
      WalkStands(Now(), had, order);
    }

    /** The assets of the debts still standing, in reserve-index order. */
    method Remaining() returns (assets: seq<Asset>)
      requires market.Valid() && forall index :: index in liabilities ==> index in market.reserves
      ensures assets == DebtAssets(market, liabilities, market.size)
    {
      assets := [];
      for index := 0 to market.size
        invariant assets == DebtAssets(market, liabilities, index)
      {
        if index in liabilities { assets := assets + [market.reserves[index].asset]; }
      }
    }

    /** Nothing planned after the repays moved what they settled or what they spent. */
    lemma SettledStill(repaid: seq<UnwindAction>)
      requires Valid() && Pays(funds, wallet, spend, repaid)
      requires forall index :: index in owed ==> index in market.reserves && Settles(repaid, index)
      ensures forall index :: index in owed ==> Settles(actions, index)
      ensures forall asset ::
        Repaid(actions, asset) == Amount(spend, asset) && 0 <= Amount(spend, asset) <= Max(Amount(funds, asset), 0)
    {
      forall asset ensures Repaid(actions, asset) == Amount(spend, asset) == Repaid(repaid, asset)
        && 0 <= Amount(spend, asset) <= Max(Amount(funds, asset), 0)
      {
        assert PaysFor(funds, wallet, spend, actions, asset) && PaysFor(funds, wallet, spend, repaid, asset);
      }
    }

    /**
     Plans one unwind, or fails: on a primary the pool does not list, a
     reserve or a price it does not have, or arithmetic that does not fit.
     */
    method Plan() returns (plan: Option<UnwindPlan>, ghost order: seq<nat>)
      requires market.Valid() && Fresh()
      modifies this
      ensures plan.None? ==> overflowed || !Complete()
      ensures plan.Some? ==>
        && Listed() && Keeps(plan.value)
        && (forall index :: index in owed ==> index in market.reserves && Settles(plan.value.actions, index))
        && (forall index :: index in liabilities ==> index in owed)
        && plan.value.remaining == DebtAssets(market, liabilities, market.size)
        && (plan.value.remaining == [] <==> liabilities == map[])
      ensures plan.Some? && liabilities == map[] ==>
        && (forall index :: index in had ==> index in market.reserves)
        && plan.value.actions == RepaySteps(market, owed, funds, market.size)
             + FreeSteps(market, had, Primary(), market.size) + FreePrimary(market, terms, Held(had, Primary()))
      ensures plan.Some? && liabilities != map[] ==> WalksTo(plan.value.actions, order)
    {
      order := [];
      if !Listed() { return None, order; }
      if exists index :: index in liabilities && index !in market.reserves { return None, order; }
      StartsValid();
      var ok := RepayDebts();
      if !ok { return None, order; }
      var remaining := Remaining();
      NoDebtNoAssets(market, liabilities);
      ghost var repaid := actions;
      assert forall index :: index in owed ==> Repays(index);
      ok, order := Withdraws();
      if !ok { return None, order; }
      SettledStill(repaid);
      return Some(UnwindPlan(actions, spend, remaining)), order;
    }

    /** Steps 2 and 3: which of them is for whether any debt is left. */
    method Withdraws() returns (ok: bool, ghost order: seq<nat>)
      requires Valid() && Untaken() && Linked() && collateral == had
      requires forall index :: index in liabilities ==> index in owed && liabilities[index] > 0
      requires forall index :: index in owed ==> index in market.reserves
      requires actions == RepaySteps(market, owed, funds, market.size)
      modifies `actions, `collateral, `overflowed
      ensures !ok ==> overflowed || !Complete()
      ensures ok ==> Valid()
      ensures ok && liabilities == map[] ==>
        && (forall index :: index in had ==> index in market.reserves)
        && actions == RepaySteps(market, owed, funds, market.size)
             + FreeSteps(market, had, Primary(), market.size) + FreePrimary(market, terms, Held(had, Primary()))
      ensures ok && liabilities != map[] ==> WalksTo(actions, order)
    {
      order := [];
      if liabilities == map[] {
        if exists index :: index in collateral && index !in market.reserves { return false, order; }
        ok := WithdrawFree();
      } else {
        if !market.CoversCollateral(collateral) || !market.CoversDebts(liabilities) { return false, order; }
        ok, order := WithdrawWithinFloor();
        if ok { EndsStanding(order); }
      }
    }
  }
}
