/**
 How much the unwind planner withdraws while debt remains: as much as the
 bounds allow. The partial formula is exact, not merely safe, so once every
 candidate has had its turn nothing more of anything could go. That is so
 exactly where the oracle's unit can say the margin, or neither margin nor
 minimum can be fallen short of (`NothingMoreExactly`); otherwise there is
 always a position of which more could have gone.
 */
module Limits {
  import opened Types
  import opened Rates
  import opened Projection
  import opened Unwinding

  // ----- the formula is exact ---------------------------------------------

  lemma DownThenUp(x: nat, up: int, down: int, more: nat)
    requires 0 < up && 0 < down && x <= more * down / up
    ensures CeilDiv(x * up, down) <= more
  {
    Scales(x, more * down / up, up);
    assert more * down / up * up <= more * down;
    CeilDivWithin(x * up, down, more);
  }

  /** Tokens carry a base exactly when they are at least what must stay for it. */
  lemma StayingExactly(market: Market, index: nat, base: nat, tokens: nat)
    requires market.Valid() && market.Prices(index) && market.reserves[index].cFactor != 0
    ensures market.StayingTokens(index, base) <= tokens <==> base <= market.Carries(index, tokens)
  {
    var reserve := market.reserves[index];
    var price := market.prices[reserve.asset];
    if market.StayingTokens(index, base) <= tokens {
      StayingCarries(market, index, base, tokens);
    }
    if base <= market.Carries(index, tokens) {
      Carried(market, index, tokens);
      assert price * reserve.Effective(tokens) == reserve.Effective(tokens) * price;
      DownThenUp(base, reserve.scalar, price, reserve.Effective(tokens));
      var effective := CeilDiv(base * reserve.scalar, price);
      DownThenUp(effective, SCALAR_7, reserve.cFactor, ToAsset(tokens, reserve.bRate));
      DownThenUp(CeilDiv(effective * SCALAR_7, reserve.cFactor), SCALAR_12, reserve.bRate, tokens);
    }
  }

  /** What tokens are worth at each step, and altogether, is something; and more are worth no less. */
  lemma Carried(market: Market, index: nat, tokens: nat)
    requires market.Valid() && market.Prices(index)
    ensures 0 <= ToAsset(tokens, market.reserves[index].bRate) && 0 <= market.reserves[index].Effective(tokens)
    ensures 0 <= market.Carries(index, tokens)
  {
    var reserve := market.reserves[index];
    ToAssetGrows(0, tokens, reserve.bRate);
    Scales(0, ToAsset(tokens, reserve.bRate), reserve.cFactor);
    Scales(0, reserve.Effective(tokens), market.prices[reserve.asset]);
  }

  lemma CarriesGrows(market: Market, index: nat, tokens: nat, more: nat)
    requires market.Valid() && market.Prices(index) && tokens <= more
    ensures 0 <= market.Carries(index, tokens) <= market.Carries(index, more)
  {
    var reserve := market.reserves[index];
    Carried(market, index, tokens);
    ToAssetGrows(tokens, more, reserve.bRate);
    Scales(ToAsset(tokens, reserve.bRate), ToAsset(more, reserve.bRate), reserve.cFactor);
    QuotientGrows(ToAsset(tokens, reserve.bRate) * reserve.cFactor, ToAsset(more, reserve.bRate) * reserve.cFactor,
                  SCALAR_7);
    Scales(reserve.Effective(tokens), reserve.Effective(more), market.prices[reserve.asset]);
    QuotientGrows(market.prices[reserve.asset] * reserve.Effective(tokens),
                  market.prices[reserve.asset] * reserve.Effective(more), reserve.scalar);
  }

  lemma QuotientGrows(x: int, y: int, z: int)
    requires x <= y && 0 < z
    ensures x / z <= y / z
  {
    assert x / z * z <= x;
    FloorReaches(x / z, y, z);
  }

  // ----- the bounds -------------------------------------------------------

  /** The oracle's unit is fine enough to hold the margin: any of seven decimals or more is. */
  predicate Fine(bounds: Bounds, unit: int) { unit * bounds.margin % SCALAR_7 == 0 }

  /** Nothing is asked of the health factor, or just what the oracle's unit can say. */
  predicate Exact(bounds: Bounds, unit: int) { Fine(bounds, unit) || bounds.margin <= 0 }

  /** No bound that collateral could be under: no margin that shows in the oracle's unit, and no minimum. */
  predicate Unbound(bounds: Bounds, unit: int) { unit * bounds.margin < SCALAR_7 && bounds.minCollateral <= 0 }

  /** Either way the test of a position leaves no gap that the formula does not see. */
  predicate Exhaustive(bounds: Bounds, unit: int) { Exact(bounds, unit) || Unbound(bounds, unit) }

  /** By the first, a position is accepted exactly from what is required up. */
  lemma AcceptsFromRequired(bounds: Bounds, data: Valued, unit: int)
    requires 0 <= data.liability && 0 < unit && 0 <= data.collateral && Exact(bounds, unit)
    ensures bounds.Accepts(data, unit) <==> data.collateral >= bounds.Required(data.liability)
  {
    if data.collateral >= bounds.Required(data.liability) {
      RequiredIsAccepted(bounds, data, unit);
    } else if data.liability > 0 {
      if Fine(bounds, unit) {
        BelowIsUnder(data.collateral, data.liability, unit, bounds.margin);
      } else {
        NothingRequired(data.liability, bounds.margin);
      }
    }
  }

  lemma NothingRequired(liability: nat, margin: int)
    requires margin <= 0
    ensures Up(liability * margin, SCALAR_7) <= 0
  {
    assert liability * -margin >= 0;
  }

  /** With nothing to be under, everything is accepted. */
  lemma UnboundAcceptsAll(bounds: Bounds, data: Valued, unit: int)
    requires 0 <= data.liability && 0 < unit && 0 <= data.collateral && Unbound(bounds, unit)
    ensures bounds.Accepts(data, unit)
  {
    if data.liability != 0 {
      Scales(0, data.collateral, unit);
      FloorReaches(0, data.collateral * unit, data.liability);
    }
  }

  lemma BelowIsUnder(collateral: int, liability: int, unit: int, margin: int)
    requires 0 < liability && 0 < unit && unit * margin % SCALAR_7 == 0
    ensures collateral < Up(liability * margin, SCALAR_7)
      <==> collateral * unit / liability < unit * margin / SCALAR_7
  {
    var least := unit * margin / SCALAR_7;
    assert least * SCALAR_7 == unit * margin;
    UpCovers(liability * margin, SCALAR_7);
    if collateral < Up(liability * margin, SCALAR_7) {
      assert collateral * SCALAR_7 < liability * margin;
      Strictly(collateral * SCALAR_7, liability * margin, unit);
      Regroups(collateral, liability, unit, margin, least);
      assert collateral * unit < least * liability;
      NotReached(least, collateral * unit, liability);
    } else {
      Scales(liability * margin, collateral * SCALAR_7, unit);
      RatiosCompare(collateral, liability, unit, margin);
    }
  }

  lemma Strictly(a: int, b: int, m: int)
    requires a < b && 0 < m
    ensures a * m < b * m
  {
    assert (b - a) * m > 0;
  }

  lemma Regroups(collateral: int, liability: int, unit: int, margin: int, least: int)
    requires least * SCALAR_7 == unit * margin
    requires collateral * SCALAR_7 * unit < liability * margin * unit
    ensures collateral * unit < least * liability
  {
    assert collateral * SCALAR_7 * unit == (collateral * unit) * SCALAR_7;
    assert liability * margin * unit == (unit * margin) * liability == (least * liability) * SCALAR_7;
  }

  lemma NotReached(q: int, x: int, y: int)
    requires 0 < y && x < q * y
    ensures x / y < q
  {
    if x / y >= q { Scales(q, x / y, y); }
  }

  /**
   And only then: otherwise some position is accepted with less than the
   formula requires of it.
   */
  lemma AcceptsExactly(bounds: Bounds, unit: int)
    requires 0 < unit
    ensures Exact(bounds, unit) <==>
      forall data: Valued :: 0 <= data.liability && 0 <= data.collateral ==>
        (bounds.Accepts(data, unit) <==> data.collateral >= bounds.Required(data.liability))
  {
    if Exact(bounds, unit) {
      forall data: Valued | 0 <= data.liability && 0 <= data.collateral
        ensures bounds.Accepts(data, unit) <==> data.collateral >= bounds.Required(data.liability)
      {
        AcceptsFromRequired(bounds, data, unit);
      }
    } else {
      CoarselyAccepted(bounds, unit);
      assert bounds.Accepts(Coarse(bounds, unit), unit);
    }
  }

  lemma Reorders(least: int, unit: int, margin: int, k: int, whole: int)
    ensures least * whole * k * unit == least * (whole * unit * k)
    ensures whole * unit * k * margin == whole * (unit * margin * k)
  {
  }

  lemma UpExact(x: int, y: int)
    requires 0 < y
    ensures Up(y * x, y) == x
  {
    UpCovers(y * x, y);
    var q := Up(y * x, y);
    assert x * y <= q * y < (x + 1) * y;
    if q > x { Scales(x + 1, q, y); } else if q < x { Scales(q + 1, x, y); }
  }

  /** How often the coarse debt is repeated, so that it alone asks for more than the minimum. */
  function Times(bounds: Bounds): nat { Max(bounds.minCollateral, 0) + 1 }

  /** A debt, and collateral that the margin it is short of does not show for. */
  function Coarse(bounds: Bounds, unit: int): Valued
    requires 0 < unit
  {
    var least, k := unit * bounds.margin / SCALAR_7, Times(bounds);
    Valued(Max(least * SCALAR_7 * k, bounds.minCollateral), SCALAR_7 * unit * k)
  }

  lemma CoarselyAccepted(bounds: Bounds, unit: int)
    requires 0 < unit && !Exact(bounds, unit)
    ensures var data := Coarse(bounds, unit);
      && 0 < data.liability && 0 <= data.collateral && bounds.Accepts(data, unit)
      && data.collateral < bounds.Required(data.liability) == unit * bounds.margin * Times(bounds)
      && (!Unbound(bounds, unit) ==> 0 < data.collateral && !bounds.Accepts(data.(collateral := 0), unit))
  {
    var least, k, data := unit * bounds.margin / SCALAR_7, Times(bounds), Coarse(bounds, unit);
    Reorders(least, unit, bounds.margin, k, SCALAR_7);
    Strictly(0, SCALAR_7 * unit, k);
    Strictly(0, bounds.margin, unit);
    Scales(1, unit * bounds.margin, k);
    UpExact(unit * bounds.margin * k, SCALAR_7);
    Strictly(least * SCALAR_7, unit * bounds.margin, k);
    Scales(0, least * SCALAR_7, k);
    Scales(least * SCALAR_7 * k, data.collateral, unit);
    FloorReaches(least, data.collateral * unit, data.liability);
    if least > 0 { Strictly(0, least * SCALAR_7, k); }
  }

  // ----- more collateral stands no worse ----------------------------------

  /** No more of anything, and less of nothing below none. */
  ghost predicate Below(less: Tokens, more: Tokens) {
    forall index: nat :: Held(less, index) == Held(more, index) || 0 <= Held(less, index) <= Held(more, index)
  }

  lemma {:induction false} BelowCarriesLess(market: Market, less: Tokens, more: Tokens, n: nat)
    requires market.Valid() && market.CoversCollateral(less) && market.CoversCollateral(more) && Below(less, more)
    ensures market.CollateralBase(less, n) <= market.CollateralBase(more, n)
    decreases n
  {
    if n > 0 {
      BelowCarriesLess(market, less, more, n - 1);
      OneCarriesLess(market, less, more, n - 1);
    }
  }

  lemma OneCarriesLess(market: Market, less: Tokens, more: Tokens, index: nat)
    requires market.Valid() && market.CoversCollateral(less) && market.CoversCollateral(more) && Below(less, more)
    ensures market.CollateralIn(less, index) <= market.CollateralIn(more, index)
  {
    assert Held(less, index) == Held(more, index) || 0 <= Held(less, index) <= Held(more, index);
    if Held(less, index) != Held(more, index) {
      CarriesGrows(market, index, Held(less, index), Held(more, index));
      CarriesNothing(market, index);
    }
  }

  /** A position that stands would stand with more. */
  lemma MoreStands(p: Position, less: Tokens, more: Tokens)
    requires p.Valid() && p.Covers(more) && Below(less, more) && p.Stands(less)
    ensures p.Stands(more)
  {
    var a, b := p.ValueOf(less), p.ValueOf(more);
    BelowCarriesLess(p.market, less, more, p.market.size);
    if b.liability != 0 {
      Scales(a.collateral, b.collateral, p.market.unit);
      QuotientGrows(a.collateral * p.market.unit, b.collateral * p.market.unit, b.liability);
    }
  }

  /** Taking leaves no more; and of one that has no more, no more. */
  lemma TakingIsBelow(p: Position, tokens: Tokens, index: nat, amount: nat)
    requires p.Valid() && index in p.market.reserves && 0 <= Held(tokens, index)
    ensures Below(p.market.AfterTaking(tokens, index, amount), tokens)
    ensures forall other: nat :: other != index ==>
      Held(p.market.AfterTaking(tokens, index, amount), other) == Held(tokens, other)
    ensures 0 <= Held(p.market.AfterTaking(tokens, index, amount), index)
  {
  }

  lemma TakingKeepsBelow(p: Position, less: Tokens, more: Tokens, index: nat, amount: nat)
    requires p.Valid() && index in p.market.reserves && 0 <= Held(less, index)
    requires Below(less, more) && Held(less, index) == Held(more, index)
    ensures Below(p.market.AfterTaking(less, index, amount), p.market.AfterTaking(more, index, amount))
  {
    var a, b := p.market.AfterTaking(less, index, amount), p.market.AfterTaking(more, index, amount);
    forall other: nat ensures Held(a, other) == Held(b, other) || 0 <= Held(a, other) <= Held(b, other) {
      if other != index { assert Held(a, other) == Held(less, other) && Held(b, other) == Held(more, other); }
    }
  }

  // ----- one reserve's turn -----------------------------------------------

  /** A position with one reserve's collateral changed stands exactly when enough of it stays. */
  lemma StandsExactly(p: Position, tokens: Tokens, after: Tokens, index: nat)
    requires p.Valid() && p.Covers(tokens) && p.Covers(after) && Exact(p.terms.BoundsOf(), p.market.unit)
    requires forall other: nat :: other != index ==> Held(after, other) == Held(tokens, other)
    requires 0 <= p.ValueOf(after).collateral && 0 < Held(tokens, index) && 0 <= Held(after, index)
    requires p.market.Prices(index) && p.market.reserves[index].cFactor != 0
    ensures p.Stands(after) <==> PartStays(p.market, p.terms.BoundsOf(), p.ValueOf(tokens), index, Held(tokens, index))
                                   <= Held(after, index)
  {
    var bounds, data, held := p.terms.BoundsOf(), p.ValueOf(tokens), Held(tokens, index);
    var base := Max(p.market.Carries(index, held) - (data.collateral - bounds.Required(data.liability)), 0);
    OneReserveMoves(p.market, tokens, after, index, p.market.size);
    AcceptsFromRequired(bounds, p.ValueOf(after), p.market.unit);
    StayingExactly(p.market, index, base, Held(after, index));
    CarriesNothing(p.market, index);
    Carried(p.market, index, Held(after, index));
  }

  /** Nothing held is below none, so nothing is worth less than none. */
  ghost predicate Sane(tokens: Tokens) { forall index: nat :: 0 <= Held(tokens, index) }

  lemma {:induction false} SaneIsWorth(p: Position, tokens: Tokens, n: nat)
    requires p.Valid() && p.Covers(tokens) && Sane(tokens)
    ensures 0 <= p.market.CollateralBase(tokens, n)
  {
    if n > 0 {
      SaneIsWorth(p, tokens, n - 1);
      assert 0 <= Held(tokens, n - 1);
      if Held(tokens, n - 1) != 0 { Carried(p.market, n - 1, Held(tokens, n - 1)); }
    }
  }

  /** An amount burns within `goes` tokens exactly when it is at most their worth; and two, only together. */
  lemma TwoBurnWithin(x: nat, a: nat, goes: nat, rate: int)
    requires 0 < rate && 0 < a && ToBTokenUp(x, rate) + ToBTokenUp(a, rate) <= goes
    ensures x + a <= ToAsset(goes, rate)
  {
    var s, t := ToBTokenUp(x, rate), ToBTokenUp(a, rate);
    Scales(s + t, goes, rate);
    assert (s + t) * rate == s * rate + t * rate;
    FloorReaches(x + a, goes * rate, SCALAR_12);
  }

  lemma SomethingBurns(a: nat, rate: int)
    requires 0 < a && 0 < rate
    ensures ToBTokenUp(a, rate) >= 1
  {
  }

  /** What `amount` leaves of one reserve. */
  lemma Leaves(p: Position, tokens: Tokens, index: nat, amount: nat)
    requires p.Valid() && p.Covers(tokens) && index in p.market.reserves && 0 <= Held(tokens, index)
    ensures Held(p.market.AfterTaking(tokens, index, amount), index)
         == Max(Held(tokens, index) - ToBTokenUp(amount, p.market.reserves[index].bRate), 0)
    ensures p.Covers(p.market.AfterTaking(tokens, index, amount))
  {
    CoversLess(p, tokens, index, amount);
  }

  lemma SaneStays(p: Position, tokens: Tokens, index: nat, amount: nat)
    requires p.Valid() && Sane(tokens) && index in p.market.reserves
    ensures Sane(tokens - {index}) && Sane(p.market.AfterTaking(tokens, index, amount))
  {
    forall other: nat
      ensures 0 <= Held(tokens - {index}, other) && 0 <= Held(p.market.AfterTaking(tokens, index, amount), other)
    {
      assert 0 <= Held(tokens, other);
    }
  }

  /** What `goes` tokens are worth, taken, and then anything more, leaves less than was to stay. */
  lemma NothingToSpare(held: nat, stays: nat, x: nat, a: nat, rate: int)
    requires 0 < rate && 0 < stays && 0 < a
    requires x == if held - stays <= 0 then 0 else Max(ToAsset(held - stays, rate), 0)
    ensures Max(Max(held - ToBTokenUp(x, rate), 0) - ToBTokenUp(a, rate), 0) < stays
  {
    SomethingBurns(a, rate);
    var burnt := ToBTokenUp(x, rate) + ToBTokenUp(a, rate);
    if burnt <= held - stays { TwoBurnWithin(x, a, held - stays, rate); }
  }

  /** Of a reserve whose whole was refused, nothing more than its part could go. */
  lemma PartIsAll(p: Position, tokens: Tokens, index: nat, a: nat)
    requires p.Valid() && p.Covers(tokens) && Sane(tokens) && Exact(p.terms.BoundsOf(), p.market.unit)
    requires index in p.market.reserves && index != p.Primary() && 0 < Held(tokens, index) && 0 < a
    requires !p.Stands(tokens - {index}) && p.market.reserves[index].cFactor != 0
    ensures !p.Stands(p.market.AfterTaking(AfterChoice(p, tokens, p.Part(tokens, index)), index, a))
  {
    var rate, held := p.market.reserves[index].bRate, Held(tokens, index);
    var stays := PartStays(p.market, p.terms.BoundsOf(), p.ValueOf(tokens), index, held);
    WholeStays(p, tokens, index);
    var x := TakenOf(p, tokens, index);
    var next := p.market.AfterTaking(tokens, index, x);
    Leaves(p, tokens, index, x);
    SaneStays(p, tokens, index, x);
    Leaves(p, next, index, a);
    SaneStays(p, next, index, a);
    NothingToSpare(held, stays, x, a, rate);
    TakingTwice(p, tokens, index, x, a);
  }

  /** What a choice leaves, or no choice. */
  function AfterChoice(p: Position, tokens: Tokens, choice: Option<UnwindAction>): Tokens
    requires p.market.Valid()
  {
    match choice
    case None => tokens
    case Some(action) => AfterAction(p.market, tokens, action)
  }

  lemma WholeStays(p: Position, tokens: Tokens, index: nat)
    requires p.Valid() && p.Covers(tokens) && Sane(tokens) && Exact(p.terms.BoundsOf(), p.market.unit)
    requires index in p.market.reserves && 0 < Held(tokens, index)
    requires !p.Stands(tokens - {index}) && p.market.reserves[index].cFactor != 0
    ensures 0 < PartStays(p.market, p.terms.BoundsOf(), p.ValueOf(tokens), index, Held(tokens, index))
  {
    CoversLess(p, tokens, index, 0);
    SaneStays(p, tokens, index, 0);
    SaneIsWorth(p, tokens - {index}, p.market.size);
    StandsExactly(p, tokens, tokens - {index}, index);
  }

  /** After two takings of one reserve the position stands exactly when enough of it is left. */
  lemma TakingTwice(p: Position, tokens: Tokens, index: nat, x: nat, a: nat)
    requires p.Valid() && p.Covers(tokens) && Sane(tokens) && Exact(p.terms.BoundsOf(), p.market.unit)
    requires index in p.market.reserves && 0 < Held(tokens, index) && p.market.reserves[index].cFactor != 0
    ensures var more := p.market.AfterTaking(p.market.AfterTaking(tokens, index, x), index, a);
      p.Stands(more) <==>
        PartStays(p.market, p.terms.BoundsOf(), p.ValueOf(tokens), index, Held(tokens, index)) <= Held(more, index)
  {
    var next := p.market.AfterTaking(tokens, index, x);
    Leaves(p, tokens, index, x);
    SaneStays(p, tokens, index, x);
    TakingIsBelow(p, tokens, index, x);
    var more := p.market.AfterTaking(next, index, a);
    Leaves(p, next, index, a);
    SaneStays(p, next, index, a);
    TakingIsBelow(p, next, index, a);
    SaneIsWorth(p, more, p.market.size);
    StandsExactly(p, tokens, more, index);
  }

  /** What the part takes of a reserve: none, where there is none to take. */
  lemma TakenOf(p: Position, tokens: Tokens, index: nat) returns (x: nat)
    requires p.Valid() && p.Covers(tokens) && index in p.market.reserves && index != p.Primary()
    requires 0 < Held(tokens, index) && p.market.reserves[index].cFactor != 0
    ensures p.Part(tokens, index) == if x == 0 then None else Some(Withdraw(p.market.reserves[index].asset, x))
    ensures AfterChoice(p, tokens, p.Part(tokens, index)) == p.market.AfterTaking(tokens, index, x)
    ensures p.Goes(tokens, index) <= 0 ==> x == 0
    ensures p.Goes(tokens, index) > 0 ==> x == Max(ToAsset(p.Goes(tokens, index), p.market.reserves[index].bRate), 0)
  {
    var goes := p.Goes(tokens, index);
    x := if goes <= 0 then 0 else Max(ToAsset(goes, p.market.reserves[index].bRate), 0);
    TakesNone(p, tokens, index);
  }

  lemma TakesNone(p: Position, tokens: Tokens, index: nat)
    requires p.Valid() && index in p.market.reserves && 0 < Held(tokens, index)
    ensures p.market.AfterTaking(tokens, index, 0) == tokens
  {
    var q := ToBTokenUp(0, p.market.reserves[index].bRate);
    if q > 0 { Scales(1, q, p.market.reserves[index].bRate); }
  }

  /** A reserve whose factor is nothing carries nothing: moving it moves no value. */
  lemma FactorlessStands(p: Position, tokens: Tokens, after: Tokens, index: nat)
    requires p.Valid() && p.Covers(tokens) && p.Covers(after)
    requires p.market.Prices(index) && p.market.reserves[index].cFactor == 0
    requires forall other: nat :: other != index ==> Held(after, other) == Held(tokens, other)
    ensures p.Stands(after) <==> p.Stands(tokens)
  {
    var reserve := p.market.reserves[index];
    forall held: int ensures p.market.Carries(index, held) == 0 {
      assert reserve.Effective(held) == 0;
      assert p.market.prices[reserve.asset] * 0 == 0;
    }
    OneReserveMoves(p.market, tokens, after, index, p.market.size);
  }

  /** An amount that leaves `keep`, of what is worth it, is within the worth of the rest. */
  lemma Within(held: nat, keep: nat, a: nat, rate: int)
    requires 0 < rate && 0 < a <= ToAsset(held, rate) && keep <= Max(held - ToBTokenUp(a, rate), 0)
    ensures 0 < held - keep && a <= ToAsset(held - keep, rate)
  {
    var worth := ToAsset(held, rate);
    assert worth * SCALAR_12 <= held * rate;
    Scales(a, worth, SCALAR_12);
    CeilDivWithin(a * SCALAR_12, rate, held);
    SomethingBurns(a, rate);
    Scales(ToBTokenUp(a, rate), held - keep, rate);
    FloorReaches(a, (held - keep) * rate, SCALAR_12);
  }

  /** And once what goes is taken, nothing more that leaves `keep` is worth anything. */
  lemma NothingAbove(held: nat, keep: nat, x: nat, a: nat, rate: int)
    requires 0 < rate && keep < held && x == ToAsset(held - keep, rate) && 0 < a
    ensures var left := Max(held - ToBTokenUp(x, rate), 0);
      a <= ToAsset(left, rate) ==> Max(left - ToBTokenUp(a, rate), 0) < keep
  {
    var left := Max(held - ToBTokenUp(x, rate), 0);
    if a <= ToAsset(left, rate) && keep <= Max(left - ToBTokenUp(a, rate), 0) {
      Within(left, keep, a, rate);
      SomethingBurns(a, rate);
      TwoBurnWithin(x, a, held - keep, rate);
    }
  }

  /**
   This much more of one reserve could not go: the position would not stand;
   or it is the primary, and that is more than there is, goes below its
   floor, or is dust.
   */
  ghost predicate Spent(p: Position, tokens: Tokens, index: nat, a: nat)
    requires p.Valid() && index in p.market.reserves
  {
    var rate := p.market.reserves[index].bRate;
    var after := p.market.AfterTaking(tokens, index, a);
    Held(tokens, index) > 0 && p.Stands(after) ==>
      && index == p.Primary()
      && (a > ToAsset(Held(tokens, index), rate)
          || Held(after, index) < FloorTokens(p.terms.floor, rate)
          || p.terms.Dust(a))
  }

  /** What a turn may be taken in: a position that stands, by bounds that leave no gap. */
  ghost predicate Turns(p: Position, tokens: Tokens) {
    && p.Valid() && Exhaustive(p.terms.BoundsOf(), p.market.unit)
    && Sane(tokens) && p.Stands(tokens)
  }

  /** Where there is nothing to be under, every position stands. */
  lemma EverythingStands(p: Position, tokens: Tokens)
    requires p.Valid() && p.Covers(tokens) && Sane(tokens) && Unbound(p.terms.BoundsOf(), p.market.unit)
    ensures p.Stands(tokens)
  {
    SaneIsWorth(p, tokens, p.market.size);
    UnboundAcceptsAll(p.terms.BoundsOf(), p.ValueOf(tokens), p.market.unit);
  }

  lemma OthersFill(p: Position, tokens: Tokens, index: nat, a: nat)
    requires Turns(p, tokens) && index in p.market.reserves && index != p.Primary()
    requires 0 < Held(tokens, index) && 0 < a
    ensures Spent(p, AfterChoice(p, tokens, p.Choice(tokens, index)), index, a)
  {
    CoversLess(p, tokens, index, 0);
    SaneStays(p, tokens, index, 0);
    if p.market.reserves[index].cFactor == 0 { FactorlessStands(p, tokens, tokens - {index}, index); }
    if Unbound(p.terms.BoundsOf(), p.market.unit) { EverythingStands(p, tokens - {index}); }
    if !p.Stands(tokens - {index}) { PartIsAll(p, tokens, index, a); }
  }

  lemma PrimaryFills(p: Position, tokens: Tokens, a: nat)
    requires Turns(p, tokens) && 0 < Held(tokens, p.Primary()) && 0 < a
    ensures Spent(p, AfterChoice(p, tokens, p.Choice(tokens, p.Primary())), p.Primary(), a)
  {
    var index, held := p.Primary(), Held(tokens, p.Primary());
    var reserve := p.market.reserves[index];
    var keep := FloorTokens(p.terms.floor, reserve.bRate);
    var excess := PrimaryExcess(held, reserve.bRate, p.terms.floor);
    if excess <= 0 || p.terms.Dust(excess) {
      NoneFills(p, tokens, keep, a);
    } else {
      Leaves(p, tokens, index, excess);
      var next := p.market.AfterTaking(tokens, index, excess);
      SaneStays(p, tokens, index, excess);
      if reserve.cFactor == 0 { FactorlessStands(p, tokens, next, index); }
      if Unbound(p.terms.BoundsOf(), p.market.unit) { EverythingStands(p, next); }
      if p.Stands(next) {
        Leaves(p, next, index, a);
        NothingAbove(held, keep, excess, a, reserve.bRate);
      } else {
        PrimaryPartFills(p, tokens, a);
      }
    }
  }

  /** What is refused as nothing, or as dust, is all that could go. */
  lemma NoneFills(p: Position, tokens: Tokens, keep: nat, a: nat)
    requires Turns(p, tokens) && 0 < Held(tokens, p.Primary()) && 0 < a
    requires var rate := p.market.reserves[p.Primary()].bRate;
      || Held(tokens, p.Primary()) <= keep
      || ToAsset(Held(tokens, p.Primary()) - keep, rate) <= 0
      || p.terms.Dust(ToAsset(Held(tokens, p.Primary()) - keep, rate))
    ensures var rate, after := p.market.reserves[p.Primary()].bRate, p.market.AfterTaking(tokens, p.Primary(), a);
      a > ToAsset(Held(tokens, p.Primary()), rate) || Held(after, p.Primary()) < keep || p.terms.Dust(a)
  {
    var rate, held := p.market.reserves[p.Primary()].bRate, Held(tokens, p.Primary());
    Leaves(p, tokens, p.Primary(), a);
    if a <= ToAsset(held, rate) && keep <= Max(held - ToBTokenUp(a, rate), 0) { Within(held, keep, a, rate); }
  }

  lemma PrimaryPartFills(p: Position, tokens: Tokens, a: nat)
    requires Turns(p, tokens) && 0 < Held(tokens, p.Primary()) && 0 < a
    requires p.market.reserves[p.Primary()].cFactor != 0 && Exact(p.terms.BoundsOf(), p.market.unit)
    ensures Spent(p, AfterChoice(p, tokens, p.Part(tokens, p.Primary())), p.Primary(), a)
  {
    var index, held := p.Primary(), Held(tokens, p.Primary());
    var rate := p.market.reserves[index].bRate;
    var stays := PartStays(p.market, p.terms.BoundsOf(), p.ValueOf(tokens), index, held);
    var keep := Max(stays, FloorTokens(p.terms.floor, rate));
    assert p.Goes(tokens, index) == held - keep;
    if p.Part(tokens, index).None? {
      NoneFills(p, tokens, keep, a);
      TakesNone(p, tokens, index);
      TakingTwice(p, tokens, index, 0, a);
    } else {
      var x := ToAsset(held - keep, rate);
      Leaves(p, tokens, index, x);
      SaneStays(p, tokens, index, x);
      Leaves(p, p.market.AfterTaking(tokens, index, x), index, a);
      NothingAbove(held, keep, x, a, rate);
      TakingTwice(p, tokens, index, x, a);
    }
  }

  // ----- the whole walk ---------------------------------------------------

  /** A turn takes of its own reserve alone, and leaves a position that still stands. */
  lemma TurnLessens(p: Position, tokens: Tokens, index: nat)
    requires Turns(p, tokens) && index in p.market.reserves && 0 < Held(tokens, index)
    ensures var next := AfterChoice(p, tokens, p.Choice(tokens, index));
      && Turns(p, next) && Below(next, tokens)
      && forall other: nat :: other != index ==> Held(next, other) == Held(tokens, other)
  {
    if p.Choice(tokens, index).Some? {
      ChoiceStands(p, tokens, index);
      var action := p.Choice(tokens, index).value;
      var amount := if action.Withdraw? then action.amount else 0;
      SaneStays(p, tokens, index, amount);
      TakingIsBelow(p, tokens, index, amount);
    }
  }

  /** What nothing more could go of, nothing more can once there is less of the others. */
  lemma SpentStays(p: Position, less: Tokens, more: Tokens, index: nat, a: nat)
    requires p.Valid() && index in p.market.reserves && Sane(less) && p.Covers(more)
    requires Below(less, more) && Held(less, index) == Held(more, index) && Spent(p, more, index, a)
    ensures Spent(p, less, index, a)
  {
    TakingKeepsBelow(p, less, more, index, a);
    CoversLess(p, more, index, a);
    var after, after' := p.market.AfterTaking(less, index, a), p.market.AfterTaking(more, index, a);
    if p.Stands(after) { MoreStands(p, after, after'); }
  }

  /** Where the walk from here ends. */
  ghost function EndOf(p: Position, tokens: Tokens, order: seq<nat>): Tokens
    requires p.Valid() && forall index :: index in order ==> index in p.market.reserves
  {
    AfterActions(p.market, tokens, p.Walk(tokens, order))
  }

  /** Candidates yet to have their turn: each once, and each held. */
  ghost predicate Waiting(p: Position, tokens: Tokens, order: seq<nat>) {
    && (forall k :: 0 <= k < |order| ==> order[k] in p.market.reserves && 0 < Held(tokens, order[k]))
    && (forall i, j :: 0 <= i < j < |order| ==> order[i] != order[j])
  }

  /** A position that stands is not within its margin, so the walk goes on from it. */
  lemma EndsOn(p: Position, tokens: Tokens, order: seq<nat>)
    requires Turns(p, tokens) && order != [] && Waiting(p, tokens, order)
    ensures var next := AfterChoice(p, tokens, p.Choice(tokens, order[0]));
      && Turns(p, next) && Waiting(p, next, order[1..])
      && EndOf(p, tokens, order) == EndOf(p, next, order[1..])
  {
    TurnLessens(p, tokens, order[0]);
    var choice := p.Choice(tokens, order[0]);
    if choice.Some? {
      var next := AfterChoice(p, tokens, choice);
      AfterActionsSplits(p.market, tokens, [choice.value], p.Walk(next, order[1..]));
      assert [choice.value][..0] == [];
      assert AfterActions(p.market, tokens, [choice.value]) == next;
    }
  }

  /** A walk takes of its candidates alone. */
  lemma {:induction false} WalkLessens(p: Position, tokens: Tokens, order: seq<nat>)
    requires Turns(p, tokens) && Waiting(p, tokens, order)
    ensures var end := EndOf(p, tokens, order);
      && Turns(p, end) && Below(end, tokens)
      && forall other: nat :: other !in order ==> Held(end, other) == Held(tokens, other)
    decreases |order|
  {
    if order != [] {
      EndsOn(p, tokens, order);
      TurnLessens(p, tokens, order[0]);
      WalkLessens(p, AfterChoice(p, tokens, p.Choice(tokens, order[0])), order[1..]);
    }
  }

  /** And of every candidate, all that could go. */
  lemma {:induction false} WalkFills(p: Position, tokens: Tokens, order: seq<nat>, index: nat, a: nat)
    requires Turns(p, tokens) && Waiting(p, tokens, order) && index in order && 0 < a
    ensures Spent(p, EndOf(p, tokens, order), index, a)
    decreases |order|
  {
    var next := AfterChoice(p, tokens, p.Choice(tokens, order[0]));
    EndsOn(p, tokens, order);
    if index == order[0] {
      if index == p.Primary() { PrimaryFills(p, tokens, a); } else { OthersFill(p, tokens, index, a); }
      WalkLessens(p, next, order[1..]);
      SpentStays(p, EndOf(p, tokens, order), next, index, a);
    } else {
      WalkFills(p, next, order[1..], index, a);
    }
  }

  /** A position that does not stand is left exactly as it is. */
  lemma {:induction false} NothingIsTakenUnderTheBounds(p: Position, tokens: Tokens, order: seq<nat>)
    requires p.Valid() && p.Covers(tokens) && Sane(tokens) && !p.Stands(tokens)
    requires forall index :: index in order ==> index in p.market.reserves && 0 < Held(tokens, index)
    ensures p.Walk(tokens, order) == []
    decreases |order|
  {
    if order != [] {
      if p.Choice(tokens, order[0]).Some? { ChoiceNeedsStanding(p, tokens, order[0]); }
      NothingIsTakenUnderTheBounds(p, tokens, order[1..]);
    }
  }

  lemma ChoiceNeedsStanding(p: Position, tokens: Tokens, index: nat)
    requires p.Valid() && p.Covers(tokens) && Sane(tokens) && index in p.market.reserves && 0 < Held(tokens, index)
    requires p.Choice(tokens, index).Some?
    ensures p.Stands(tokens)
  {
    ChoiceStands(p, tokens, index);
    var action := p.Choice(tokens, index).value;
    var amount := if action.Withdraw? then action.amount else 0;
    TakingIsBelow(p, tokens, index, amount);
    MoreStands(p, AfterAction(p.market, tokens, action), tokens);
  }

  /** A question of the walk: could this much more of one reserve have gone? */
  ghost predicate Asks(p: Position, tokens: Tokens, order: seq<nat>, index: nat, a: nat) {
    && p.Valid() && p.Covers(tokens) && Sane(tokens) && p.IsOrder(tokens, order)
    && 0 < Held(tokens, index) && 0 < a
  }

  /** No: where the walk ends, it could not go. */
  ghost predicate Exhausts(p: Position, tokens: Tokens, order: seq<nat>, index: nat, a: nat)
    requires p.Valid()
  {
    && (forall i :: i in order ==> i in p.market.reserves) && index in p.market.reserves
    && Spent(p, EndOf(p, tokens, order), index, a)
  }

  /**
   Where bounds leave no gap, a walk leaves nothing it could have moved: of
   another reserve than the primary no amount more stands, and of the
   primary none either, or the floor or the dust limit is in the way.
   */
  lemma NothingMoreStands(p: Position, tokens: Tokens, order: seq<nat>, index: nat, a: nat)
    requires Asks(p, tokens, order, index, a) && Exhaustive(p.terms.BoundsOf(), p.market.unit)
    ensures Exhausts(p, tokens, order, index, a)
  {
    forall i | i in order ensures i in p.market.reserves { assert 0 < Held(tokens, i); }
    if p.Stands(tokens) {
      forall i, j | 0 <= i < j < |order| ensures order[i] != order[j] {
        assert p.Before(tokens, order[i], order[j]);
      }
      WalkFills(p, tokens, order, index, a);
    } else {
      NothingIsTakenUnderTheBounds(p, tokens, order);
      TakingIsBelow(p, tokens, index, a);
      if p.Stands(p.market.AfterTaking(tokens, index, a)) {
        MoreStands(p, p.market.AfterTaking(tokens, index, a), tokens);
      }
    }
  }

  // ----- bounds with a gap ------------------------------------------------

  /** Another asset than this. */
  function Other(asset: Asset): Asset { asset + "'" }

  /** A debt in the primary, and collateral in another asset, all at par. */
  function AtPar(terms: Terms, unit: int, debt: int): Position {
    var other, primary := Other(terms.primaryAsset), terms.primaryAsset;
    Position(
      Market(
        map[0 := Reserve(other, SCALAR_12, SCALAR_12, SCALAR_7, SCALAR_7, 1),
            1 := Reserve(primary, SCALAR_12, SCALAR_12, SCALAR_7, SCALAR_7, 1)],
        map[other := 0, primary := 1], 2, map[other := 1, primary := 1], unit),
      terms,
      map[1 := debt])
  }

  /** So much of the other asset. */
  function Of(held: int): Tokens { if held > 0 then map[0 := held] else map[] }

  lemma ParIsValid(terms: Terms, unit: int, debt: int)
    requires 0 < unit && 0 < debt
    ensures AtPar(terms, unit, debt).Valid() && AtPar(terms, unit, debt).Primary() == 1
    ensures AtPar(terms, unit, debt).market.Prices(0) && AtPar(terms, unit, debt).market.Prices(1)
  {
  }

  /** A token is worth one, and one is a token. */
  lemma ParIsOne(x: nat)
    ensures ToAsset(x, SCALAR_12) == x && ToBTokenUp(x, SCALAR_12) == x
    ensures CeilDiv(x * SCALAR_7, SCALAR_7) == x && CeilDiv(x * 1, 1) == x
  {
  }

  lemma ParCarries(terms: Terms, unit: int, debt: int, held: nat)
    requires 0 < unit && 0 < debt
    ensures AtPar(terms, unit, debt).Valid() && AtPar(terms, unit, debt).market.Carries(0, held) == held
    ensures AtPar(terms, unit, debt).market.StayingTokens(0, held) == held
  {
    ParIsValid(terms, unit, debt);
    ParIsOne(held);
    assert AtPar(terms, unit, debt).market.reserves[0].Effective(held) == held;
  }

  lemma ParOwes(terms: Terms, unit: int, debt: int)
    requires 0 < unit && 0 < debt
    ensures var p := AtPar(terms, unit, debt);
      p.Valid() && p.market.CoversDebts(p.liabilities) && p.market.LiabilityBase(p.liabilities, 2) == debt
  {
    ParIsValid(terms, unit, debt);
    var m, debts := AtPar(terms, unit, debt).market, AtPar(terms, unit, debt).liabilities;
    UpExact(debt, SCALAR_12);
    UpExact(debt, SCALAR_7);
    UpExact(debt, 1);
    assert m.reserves[1].EffectiveDebt(debt) == debt;
    assert m.Weighs(1, debt) == debt;
    assert m.LiabilityBase(debts, 0) == 0 && m.LiabilityBase(debts, 1) == 0;
  }

  lemma ParValued(terms: Terms, unit: int, debt: int, held: nat)
    requires 0 < unit && 0 < debt
    ensures var p := AtPar(terms, unit, debt);
      p.Valid() && p.Covers(Of(held)) && p.ValueOf(Of(held)) == Valued(held, debt)
  {
    ParCarries(terms, unit, debt, held);
    ParOwes(terms, unit, debt);
    var m, tokens := AtPar(terms, unit, debt).market, Of(held);
    assert m.CollateralIn(tokens, 0) == held && m.CollateralIn(tokens, 1) == 0;
    assert m.CollateralBase(tokens, 0) == 0;
    assert m.CollateralBase(tokens, 1) == held;
    assert m.CollateralBase(tokens, 2) == held;
  }

  lemma ParTakes(terms: Terms, unit: int, debt: int, held: nat, amount: nat)
    requires 0 < unit && 0 < debt && amount <= held
    ensures var p := AtPar(terms, unit, debt);
      p.Valid() && p.market.AfterTaking(Of(held), 0, amount) == Of(held - amount)
  {
    ParIsValid(terms, unit, debt);
    ParIsOne(amount);
    assert Held(Of(held), 0) == held;
  }

  /** Where twice what is required is held, and none is too little, what is required is taken. */
  lemma ParChooses(terms: Terms, unit: int, debt: int, needed: nat)
    requires 0 < unit && 0 < debt && 0 < needed == terms.BoundsOf().Required(debt)
    requires !terms.BoundsOf().Accepts(Valued(0, debt), unit)
    ensures var p := AtPar(terms, unit, debt);
      && p.Valid() && p.Covers(Of(2 * needed)) && 0 in p.market.reserves
      && p.Choice(Of(2 * needed), 0) == Some(Withdraw(Other(terms.primaryAsset), needed))
  {
    var p, all := AtPar(terms, unit, debt), Of(2 * needed);
    ParValued(terms, unit, debt, 2 * needed);
    ParValued(terms, unit, debt, 0);
    assert all - {0} == Of(0);
    ParCarries(terms, unit, debt, 2 * needed);
    ParCarries(terms, unit, debt, needed);
    ParIsOne(needed);
    assert p.Goes(all, 0) == needed;
  }

  /** A walk of one candidate, from a position not within its margin, is its choice. */
  lemma OneChoice(p: Position, tokens: Tokens, index: nat)
    requires p.Valid() && p.Covers(tokens) && !p.Rests(tokens) && index in p.market.reserves
    requires p.Choice(tokens, index).Some?
    ensures EndOf(p, tokens, [index]) == AfterAction(p.market, tokens, p.Choice(tokens, index).value)
  {
    var action := p.Choice(tokens, index).value;
    assert [index][1..] == [] && [action][..0] == [];
    assert p.Walk(tokens, [index]) == [action] + [];
    assert AfterActions(p.market, tokens, [action]) == AfterAction(p.market, tokens, action);
  }

  lemma ParEnds(terms: Terms, unit: int, debt: int, needed: nat)
    requires 0 < unit && 0 < debt && 0 < needed == terms.BoundsOf().Required(debt)
    requires !terms.BoundsOf().Accepts(Valued(0, debt), unit)
    ensures var p := AtPar(terms, unit, debt);
      p.Valid() && 0 in p.market.reserves && EndOf(p, Of(2 * needed), [0]) == Of(needed)
  {
    ParChooses(terms, unit, debt, needed);
    ParValued(terms, unit, debt, 2 * needed);
    RequiredIsAccepted(terms.BoundsOf(), Valued(2 * needed, debt), unit);
    ParTakes(terms, unit, debt, 2 * needed, needed);
    OneChoice(AtPar(terms, unit, debt), Of(2 * needed), 0);
  }

  /** Bounds that leave a gap always have a position of which more could have gone. */
  lemma AGapLeavesSome(terms: Terms, unit: int)
    requires 0 < unit && !Exhaustive(terms.BoundsOf(), unit)
    ensures var bounds := terms.BoundsOf();
      var data := Coarse(bounds, unit);
      var p, needed := AtPar(terms, unit, data.liability), bounds.Required(data.liability);
      && 0 <= data.collateral < needed
      && Asks(p, Of(2 * needed), [0], 0, needed - data.collateral)
      && !Exhausts(p, Of(2 * needed), [0], 0, needed - data.collateral)
  {
    var bounds, data := terms.BoundsOf(), Coarse(terms.BoundsOf(), unit);
    CoarselyAccepted(bounds, unit);
    var p, needed := AtPar(terms, unit, data.liability), bounds.Required(data.liability);
    ParValued(terms, unit, data.liability, 2 * needed);
    ParEnds(terms, unit, data.liability, needed);
    ParTakes(terms, unit, data.liability, needed, needed - data.collateral);
    ParValued(terms, unit, data.liability, data.collateral);
  }

  /** Of every position planned by these terms on such an oracle, whatever else it is, nothing is left that could go. */
  ghost predicate LeavesNothing(terms: Terms, unit: int) {
    forall p: Position, tokens: Tokens, order: seq<nat>, index: nat, a: nat ::
      (p.terms == terms && p.market.unit == unit && Asks(p, tokens, order, index, a)) ==>
        Exhausts(p, tokens, order, index, a)
  }

  /**
   When the planner leaves nothing that it could have moved: exactly when
   the oracle's unit can say the margin, or none is asked, or neither it nor
   a minimum can be fallen short of.
   */
  lemma NothingMoreExactly(terms: Terms, unit: int)
    requires 0 < unit
    ensures LeavesNothing(terms, unit) <==> Exhaustive(terms.BoundsOf(), unit)
  {
    if Exhaustive(terms.BoundsOf(), unit) {
      forall p: Position, tokens: Tokens, order: seq<nat>, index: nat, a: nat
        | p.terms == terms && p.market.unit == unit && Asks(p, tokens, order, index, a)
        ensures Exhausts(p, tokens, order, index, a)
      {
        NothingMoreStands(p, tokens, order, index, a);
      }
    } else {
      AGapLeavesSome(terms, unit);
    }
  }

  /** So an oracle of seven decimals or more leaves no gap, whatever the terms. */
  lemma SevenDecimalsLeaveNothing(terms: Terms, unit: int)
    requires 0 < unit && unit % SCALAR_7 == 0
    ensures LeavesNothing(terms, unit)
  {
    Divides(unit, terms.BoundsOf().margin);
    NothingMoreExactly(terms, unit);
  }

  lemma Divides(unit: int, margin: int)
    requires unit % SCALAR_7 == 0
    ensures unit * margin % SCALAR_7 == 0
  {
    var q := unit / SCALAR_7;
    assert unit * margin == SCALAR_7 * (q * margin);
  }

  /** And one of a single decimal does leave one, at a common margin. */
  lemma ACoarseOracleLeavesSome()
    ensures !LeavesNothing(Terms("USDC", 0, 10_500_000, 0), 10)
  {
    NothingMoreExactly(Terms("USDC", 0, 10_500_000, 0), 10);
  }
}
