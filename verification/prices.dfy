/**
 The oracle scan's memory: one reference price per pool and asset, moved by
 a report, by going stale, or by being seen first. A drift too slow to be
 reported is still bounded by how often its reference went stale.
 */
module Prices {
  import opened Types
  import opened FixedPoint

  const WHOLE_BPS := 10_000

  datatype Direction = Up | Down

  datatype PriceMove = PriceMove(asset: Asset, direction: Direction)

  datatype Reference = Reference(price: int, setAt: nat)

  /** How a price compares with its reference, when the arithmetic can say. */
  datatype Comparison = Moved(direction: Direction) | Still | Unjudged

  function MovedDirection(price: int, reference: int, threshold: u32): Comparison
    requires Fits(price) && Fits(reference)
  {
    var diff := if price >= reference then price - reference else reference - price;
    if !Fits(diff) then Unjudged
    else
      match DivFloor(diff, reference, WHOLE_BPS)
      case Failure(_) => Unjudged
      case Value(delta) =>
        if delta < threshold then Still else Comparison.Moved(if price > reference then Up else Down)
  }

  function Distance(price: int, reference: int): nat {
    if price >= reference then price - reference else reference - price
  }

  /** For positive prices: still below the threshold, moved at or past it, unjudged only past 128 bits. */
  lemma MovedExactly(price: int, reference: int, threshold: u32)
    requires Fits(price) && Fits(reference) && 0 < price && 0 < reference
    ensures var compared := MovedDirection(price, reference, threshold);
      && (compared.Still? <==> Distance(price, reference) * WHOLE_BPS < threshold * reference)
      && (compared.Unjudged? <==> Distance(price, reference) * WHOLE_BPS >= (I128_MAX + 1) * reference)
      && (compared.Moved? ==> (compared.direction.Up? <==> price > reference))
  {
    var diff := Distance(price, reference);
    MulDivIsExact(diff, WHOLE_BPS, reference, Floor);
    var q :| IsRounded(q, diff * WHOLE_BPS, reference, Floor)
          && DivFloor(diff, reference, WHOLE_BPS) == Checked(q);
    FloorBelow(q, diff * WHOLE_BPS, reference, threshold);
    FloorBelow(q, diff * WHOLE_BPS, reference, I128_MAX + 1);
    FloorBelow(q, diff * WHOLE_BPS, reference, 0);
  }

  /** A quotient rounded down is below a whole number exactly when the dividend is below its multiple. */
  lemma FloorBelow(q: int, r: int, z: int, bound: int)
    requires z > 0 && IsFloor(q, r, z)
    ensures q < bound <==> r < bound * z
  {
    if q < bound { Apart(q, bound, z); }
    else { assert (q - bound) * z >= 0; }
  }

  // ----- one look at one price --------------------------------------------

  datatype Sight = Seeded | Reported(direction: Direction) | Refreshed | Kept | Unreadable

  predicate Stale(setAt: nat, now: nat, staleAfter: nat) { now >= setAt && now - setAt >= staleAfter }

  function Look(reference: Option<Reference>, price: int, now: nat, threshold: u32, staleAfter: nat): Sight
    requires Fits(price) && (reference.Some? ==> Fits(reference.value.price))
  {
    if reference.None? then Seeded
    else
      match MovedDirection(price, reference.value.price, threshold)
      case Moved(direction) => Reported(direction)
      case Still => if Stale(reference.value.setAt, now, staleAfter) then Refreshed else Kept
      case Unjudged => Unreadable
  }

  function Next(reference: Option<Reference>, price: int, now: nat, threshold: u32, staleAfter: nat): (next: Reference)
    requires Fits(price) && (reference.Some? ==> Fits(reference.value.price))
  {
    var sight := Look(reference, price, now, threshold, staleAfter);
    if reference.Some? && (sight.Kept? || sight.Unreadable?) then reference.value else Reference(price, now)
  }

  // ----- a silent stretch -------------------------------------------------

  datatype Reading = Reading(price: int, now: nat)

  /** Readings of an asset that reported nothing and failed nothing, from a first reference on. */
  predicate Silent(first: Reference, readings: seq<Reading>, threshold: u32, staleAfter: nat)
    decreases |readings|
  {
    readings == [] ||
    (&& Fits(first.price) && 0 < first.price && Fits(readings[0].price) && 0 < readings[0].price
     && var sight := Look(Some(first), readings[0].price, readings[0].now, threshold, staleAfter);
     && (sight.Kept? || sight.Refreshed?)
     && Silent(Next(Some(first), readings[0].price, readings[0].now, threshold, staleAfter), readings[1..],
               threshold, staleAfter))
  }

  /** Where the reference stands after them. */
  function Follow(first: Reference, readings: seq<Reading>, threshold: u32, staleAfter: nat): Reference
    requires Silent(first, readings, threshold, staleAfter)
    decreases |readings|
  {
    if readings == [] then first
    else Follow(Next(Some(first), readings[0].price, readings[0].now, threshold, staleAfter), readings[1..],
                threshold, staleAfter)
  }

  /** How often it was refreshed for standing too long. */
  function Refreshes(first: Reference, readings: seq<Reading>, threshold: u32, staleAfter: nat): nat
    requires Silent(first, readings, threshold, staleAfter)
    decreases |readings|
  {
    if readings == [] then 0
    else
      (if Look(Some(first), readings[0].price, readings[0].now, threshold, staleAfter).Refreshed? then 1 else 0)
      + Refreshes(Next(Some(first), readings[0].price, readings[0].now, threshold, staleAfter), readings[1..],
                  threshold, staleAfter)
  }

  lemma {:induction false} SilentMore(first: Reference, readings: seq<Reading>, last: Reading, threshold: u32,
                                      staleAfter: nat)
    requires Silent(first, readings, threshold, staleAfter) && Fits(first.price) && 0 < first.price
    requires Fits(last.price) && 0 < last.price
    ensures var at := Follow(first, readings, threshold, staleAfter);
      && Fits(at.price) && 0 < at.price
      && (var sight := Look(Some(at), last.price, last.now, threshold, staleAfter);
          sight.Kept? || sight.Refreshed? ==>
            && Silent(first, readings + [last], threshold, staleAfter)
            && Follow(first, readings + [last], threshold, staleAfter)
               == Next(Some(at), last.price, last.now, threshold, staleAfter))
    decreases |readings|
  {
    if readings == [] {
      assert (readings + [last])[1..] == [];
    } else {
      assert (readings + [last])[1..] == readings[1..] + [last];
      SilentMore(Next(Some(first), readings[0].price, readings[0].now, threshold, staleAfter), readings[1..], last,
                 threshold, staleAfter);
    }
  }

  // ----- how far a silent stretch can drift -------------------------------

  function Pow(base: nat, n: nat): nat {
    if n == 0 then 1 else base * Pow(base, n - 1)
  }

  lemma {:induction false} PowPositive(base: nat, n: nat)
    requires 0 < base
    ensures Pow(base, n) > 0
  {
    if n > 0 { PowPositive(base, n - 1); }
  }

  /** One link of the chain: `p / a < b / q` and `b / c <= d / e`, cross-multiplied. */
  lemma ChainAbove(p: nat, low: nat, ref: nat, high: nat, far: nat, highPow: nat, lowPow: nat)
    requires p * low < ref * high && far * lowPow <= p * highPow && 0 < highPow
    ensures far * (low * lowPow) < ref * (high * highPow)
  {
    calc {
      far * (low * lowPow);
      == low * (far * lowPow);
      <= { Times(far * lowPow, p * highPow, low); }
      low * (p * highPow);
      == (p * low) * highPow;
      < { Less(p * low, ref * high, highPow); }
      (ref * high) * highPow;
      == ref * (high * highPow);
    }
  }

  lemma ChainBelow(p: nat, whole: nat, ref: nat, low: nat, far: nat, lowPow: nat, wholePow: nat)
    requires ref * low < p * whole && p * lowPow <= far * wholePow && 0 < whole && 0 < far && 0 < wholePow
    ensures ref * (low * lowPow) < far * (whole * wholePow)
  {
    if lowPow == 0 {
      assert far * (whole * wholePow) > 0 by { Less(0, whole, wholePow); Less(0, far, whole * wholePow); }
    } else {
      calc {
        ref * (low * lowPow);
        == (ref * low) * lowPow;
        < { Less(ref * low, p * whole, lowPow); }
        (p * whole) * lowPow;
        == whole * (p * lowPow);
        <= { Times(p * lowPow, far * wholePow, whole); }
        whole * (far * wholePow);
        == far * (whole * wholePow);
      }
    }
  }

  lemma Times(a: nat, b: nat, c: nat)
    requires a <= b
    ensures c * a <= c * b
  {
    assert c * (b - a) >= 0;
  }

  lemma Less(a: nat, b: nat, c: nat)
    requires a < b && 0 < c
    ensures a * c < b * c
  {
    assert (b - a) * c > 0;
  }

  /** The two sides of "below the threshold". */
  lemma StillMeansNear(price: int, reference: int, threshold: u32)
    requires Fits(price) && Fits(reference) && 0 < price && 0 < reference
    requires MovedDirection(price, reference, threshold).Still?
    ensures 0 < threshold
    ensures price * WHOLE_BPS < reference * (WHOLE_BPS + threshold)
    ensures reference * Max(WHOLE_BPS - threshold, 0) < price * WHOLE_BPS
  {
    MovedExactly(price, reference, threshold);
    assert Distance(price, reference) * WHOLE_BPS >= 0;
    assert reference * (WHOLE_BPS + threshold) == reference * WHOLE_BPS + threshold * reference;
    assert reference * (WHOLE_BPS - threshold) == reference * WHOLE_BPS - threshold * reference;
  }

  /** A step within one threshold, then `m` thresholds compounded: `m + 1` of them. */
  lemma Compounds(first: nat, next: nat, last: nat, low: nat, high: nat, m: nat)
    requires next * WHOLE_BPS < first * high && first * low < next * WHOLE_BPS
    requires last * Pow(WHOLE_BPS, m) <= next * Pow(high, m) && next * Pow(low, m) <= last * Pow(WHOLE_BPS, m)
    requires 0 < high && 0 < last
    ensures last * Pow(WHOLE_BPS, m + 1) < first * Pow(high, m + 1)
    ensures first * Pow(low, m + 1) < last * Pow(WHOLE_BPS, m + 1)
  {
    PowPositive(WHOLE_BPS, m);
    PowPositive(high, m);
    ChainAbove(next, WHOLE_BPS, first, high, last, Pow(high, m), Pow(WHOLE_BPS, m));
    ChainBelow(next, WHOLE_BPS, first, low, last, Pow(low, m), Pow(WHOLE_BPS, m));
  }

  lemma PowOne(base: nat)
    ensures Pow(base, 1) == base
  {
    assert Pow(base, 1) == base * Pow(base, 0) && Pow(base, 0) == 1;
  }

  /** What `m` thresholds compounded allow: `last` strictly within them of `first`, above and below. */
  ghost predicate Near(first: int, last: int, threshold: u32, m: nat) {
    && last * Pow(WHOLE_BPS, m) < first * Pow(WHOLE_BPS + threshold, m)
    && first * Pow(Max(WHOLE_BPS - threshold, 0), m) < last * Pow(WHOLE_BPS, m)
  }

  /** A price that did not move enough to report. */
  predicate StillAt(next: int, first: int, threshold: u32) {
    Fits(next) && Fits(first) && 0 < next && 0 < first && MovedDirection(next, first, threshold).Still?
  }

  lemma StillIsNear(price: int, reference: int, threshold: u32)
    requires StillAt(price, reference, threshold)
    ensures Near(reference, price, threshold, 1)
  {
    StillMeansNear(price, reference, threshold);
    PowOne(WHOLE_BPS);
    PowOne(WHOLE_BPS + threshold);
    PowOne(Max(WHOLE_BPS - threshold, 0));
  }

  /** A refresh to a price within a threshold, from which the stretch goes on to one within `m`. */
  lemma RefreshCompounds(first: int, next: int, last: int, threshold: u32, m: nat)
    requires StillAt(next, first, threshold) && 0 < last && Near(next, last, threshold, m)
    ensures Near(first, last, threshold, m + 1)
  {
    StillMeansNear(next, first, threshold);
    Compounds(first, next, last, Max(WHOLE_BPS - threshold, 0), WHOLE_BPS + threshold, m);
  }

  /** Or ends there. */
  lemma RefreshEnds(first: int, next: int, threshold: u32)
    requires StillAt(next, first, threshold)
    ensures Near(first, next, threshold, 2)
  {
    var low, high := Max(WHOLE_BPS - threshold, 0), WHOLE_BPS + threshold;
    StillMeansNear(next, first, threshold);
    PowOne(WHOLE_BPS);
    PowOne(low);
    PowOne(high);
    Times(WHOLE_BPS, high, next);
    Times(low, WHOLE_BPS, next);
    Compounds(first, next, next, low, high, 1);
  }

  /** Whatever relation of prices holds across one still reading, and carries over a refresh, holds across a stretch. */
  lemma {:induction false} StretchCarries(near: (int, int, nat) -> bool, first: Reference, readings: seq<Reading>,
                                          threshold: u32, staleAfter: nat)
    requires readings != [] && Silent(first, readings, threshold, staleAfter)
    requires forall p, q :: StillAt(q, p, threshold) ==> near(p, q, 1) && near(p, q, 2)
    requires forall p, q, r, m: nat :: StillAt(q, p, threshold) && 0 < r && near(q, r, m) ==> near(p, r, m + 1)
    ensures near(first.price, readings[|readings| - 1].price, Refreshes(first, readings, threshold, staleAfter) + 1)
    decreases |readings|
  {
    var next, rest := readings[0], readings[1..];
    assert StillAt(next.price, first.price, threshold);
    SilentPricesArePositive(first, readings, threshold, staleAfter);
    if rest != [] {
      assert rest[|rest| - 1] == readings[|readings| - 1];
      StretchCarries(near, Next(Some(first), next.price, next.now, threshold, staleAfter), rest, threshold, staleAfter);
    }
  }

  /**
   The silent-drift bound: after `m` staleness refreshes with nothing
   reported and nothing failing, the last price is within `m + 1` thresholds
   of the first reference, compounded, above and below.
   */
  lemma SilentDriftIsBounded(first: Reference, readings: seq<Reading>, threshold: u32, staleAfter: nat)
    requires readings != [] && Silent(first, readings, threshold, staleAfter)
    ensures var m := Refreshes(first, readings, threshold, staleAfter); var p := readings[|readings| - 1].price;
      && p * Pow(WHOLE_BPS, m + 1) < first.price * Pow(WHOLE_BPS + threshold, m + 1)
      && first.price * Pow(Max(WHOLE_BPS - threshold, 0), m + 1) < p * Pow(WHOLE_BPS, m + 1)
  {
    var near: (int, int, nat) -> bool := (p, q, m: nat) => Near(p, q, threshold, m);
    forall p, q | StillAt(q, p, threshold) ensures near(p, q, 1) && near(p, q, 2) {
      StillIsNear(q, p, threshold);
      RefreshEnds(p, q, threshold);
    }
    forall p, q, r, m: nat | StillAt(q, p, threshold) && 0 < r && near(q, r, m) ensures near(p, r, m + 1) {
      RefreshCompounds(p, q, r, threshold, m);
    }
    StretchCarries(near, first, readings, threshold, staleAfter);
  }

  lemma {:induction false} SilentPricesArePositive(first: Reference, readings: seq<Reading>, threshold: u32,
                                                   staleAfter: nat)
    requires Silent(first, readings, threshold, staleAfter)
    ensures forall i :: 0 <= i < |readings| ==> readings[i].price > 0
    decreases |readings|
  {
    if readings != [] {
      SilentPricesArePositive(Next(Some(first), readings[0].price, readings[0].now, threshold, staleAfter),
                              readings[1..], threshold, staleAfter);
      assert forall i :: 1 <= i < |readings| ==> readings[i] == readings[1..][i - 1];
    }
  }

  // ----- the watch --------------------------------------------------------

  /** The stretch since an asset was last seeded, reported or unreadable: its first reference and the readings since. */
  datatype Stretch = Stretch(first: Reference, readings: seq<Reading>)

  /** The moves one call reports, in the order the prices come. */
  function MovesOf(before: map<Asset, Reference>, prices: seq<(Asset, int)>, now: nat, threshold: u32,
                   staleAfter: nat): seq<PriceMove>
    requires forall asset :: asset in before ==> Fits(before[asset].price)
    requires forall i :: 0 <= i < |prices| ==> Fits(prices[i].1)
    decreases |prices|
  {
    if prices == [] then []
    else
      var (asset, price) := prices[|prices| - 1];
      var sight := Look(ReferenceOf(before, asset), price, now, threshold, staleAfter);
      MovesOf(before, prices[..|prices| - 1], now, threshold, staleAfter)
        + (if sight.Reported? then [PriceMove(asset, sight.direction)] else [])
  }

  /** A pool's references after one call. */
  function AfterScan(before: map<Asset, Reference>, prices: seq<(Asset, int)>, now: nat, threshold: u32,
                     staleAfter: nat): map<Asset, Reference>
    requires forall asset :: asset in before ==> Fits(before[asset].price)
    requires forall i :: 0 <= i < |prices| ==> Fits(prices[i].1)
    decreases |prices|
  {
    if prices == [] then before
    else
      var (asset, price) := prices[|prices| - 1];
      AfterScan(before, prices[..|prices| - 1], now, threshold, staleAfter)
        [asset := Next(ReferenceOf(before, asset), price, now, threshold, staleAfter)]
  }

  lemma {:induction false} ScanMovesOnlyTheNamed(before: map<Asset, Reference>, prices: seq<(Asset, int)>, now: nat,
                                                 threshold: u32, staleAfter: nat, asset: Asset)
    requires forall known :: known in before ==> Fits(before[known].price)
    requires forall i :: 0 <= i < |prices| ==> Fits(prices[i].1) && prices[i].0 != asset
    ensures ReferenceOf(AfterScan(before, prices, now, threshold, staleAfter), asset) == ReferenceOf(before, asset)
    decreases |prices|
  {
    if prices != [] {
      ScanMovesOnlyTheNamed(before, prices[..|prices| - 1], now, threshold, staleAfter, asset);
    }
  }

  /** Every asset priced is judged against its own reference from before the call, whatever its place. */
  lemma {:induction false} ScanJudgesEachOnItsOwn(before: map<Asset, Reference>, prices: seq<(Asset, int)>, now: nat,
                                                  threshold: u32, staleAfter: nat, i: nat)
    requires forall known :: known in before ==> Fits(before[known].price)
    requires IsSnapshot(prices) && i < |prices|
    ensures var (asset, price) := prices[i];
      && ReferenceOf(AfterScan(before, prices, now, threshold, staleAfter), asset)
         == Some(Next(ReferenceOf(before, asset), price, now, threshold, staleAfter))
      && (forall direction ::
            PriceMove(asset, direction) in MovesOf(before, prices, now, threshold, staleAfter)
            <==> Look(ReferenceOf(before, asset), price, now, threshold, staleAfter) == Reported(direction))
    decreases |prices|
  {
    var last := |prices| - 1;
    var rest := prices[..last];
    if i < last {
      ScanJudgesEachOnItsOwn(before, rest, now, threshold, staleAfter, i);
    } else {
      ReportsOnlyTheNamed(before, rest, now, threshold, staleAfter, prices[last].0);
    }
  }

  lemma {:induction false} ReportsOnlyTheNamed(before: map<Asset, Reference>, prices: seq<(Asset, int)>, now: nat,
                                               threshold: u32, staleAfter: nat, asset: Asset)
    requires forall known :: known in before ==> Fits(before[known].price)
    requires forall i :: 0 <= i < |prices| ==> Fits(prices[i].1) && prices[i].0 != asset
    ensures forall direction :: PriceMove(asset, direction) !in MovesOf(before, prices, now, threshold, staleAfter)
    decreases |prices|
  {
    if prices != [] {
      ReportsOnlyTheNamed(before, prices[..|prices| - 1], now, threshold, staleAfter, asset);
    }
  }

  /** A snapshot's prices: one per asset, positive and in 128 bits, as the oracle reader guarantees. */
  ghost predicate IsSnapshot(prices: seq<(Asset, int)>) {
    && (forall i :: 0 <= i < |prices| ==> Fits(prices[i].1) && 0 < prices[i].1)
    && (forall i, j :: 0 <= i < j < |prices| ==> prices[i].0 != prices[j].0)
  }

  /** One price more: its asset's reference is still the one from before the call, and only it moves. */
  lemma ScanOneMore(before: map<Asset, Reference>, prices: seq<(Asset, int)>, now: nat, threshold: u32,
                    staleAfter: nat, i: nat)
    requires forall known :: known in before ==> Fits(before[known].price)
    requires IsSnapshot(prices) && i < |prices|
    ensures var (asset, price) := prices[i]; var so := AfterScan(before, prices[..i], now, threshold, staleAfter);
      var sight := Look(ReferenceOf(before, asset), price, now, threshold, staleAfter);
      && ReferenceOf(so, asset) == ReferenceOf(before, asset)
      && AfterScan(before, prices[..i + 1], now, threshold, staleAfter)
         == so[asset := Next(ReferenceOf(before, asset), price, now, threshold, staleAfter)]
      && MovesOf(before, prices[..i + 1], now, threshold, staleAfter)
         == MovesOf(before, prices[..i], now, threshold, staleAfter)
              + (if sight.Reported? then [PriceMove(asset, sight.direction)] else [])
  {
    assert prices[..i + 1][..i] == prices[..i];
    ScanMovesOnlyTheNamed(before, prices[..i], now, threshold, staleAfter, prices[i].0);
  }

  class PriceWatch {
    const deltaBps: u32
    const staleAfter: nat
    var references: map<Pool, map<Asset, Reference>>
    ghost var stretches: map<(Pool, Asset), Stretch>

    /** Every reference is where its silent stretch led. */
    ghost predicate Valid()
      reads this
    {
      forall pool, asset :: pool in references && asset in references[pool] ==>
        && Fits(references[pool][asset].price) && 0 < references[pool][asset].price
        && Stretched(stretches, pool, asset, references[pool][asset])
    }

    ghost predicate Stretched(stretches: map<(Pool, Asset), Stretch>, pool: Pool, asset: Asset, reference: Reference) {
      && (pool, asset) in stretches
      && var stretch := stretches[(pool, asset)];
      && Fits(stretch.first.price) && 0 < stretch.first.price
      && Silent(stretch.first, stretch.readings, deltaBps, staleAfter)
      && Follow(stretch.first, stretch.readings, deltaBps, staleAfter) == reference
    }

    constructor (deltaBps: u32, staleAfter: nat)
      ensures Valid() && references == map[]
      ensures this.deltaBps == deltaBps && this.staleAfter == staleAfter
    {
      this.deltaBps, this.staleAfter := deltaBps, staleAfter;
      references, stretches := map[], map[];
    }

    /** A new silent stretch begins at `here`. */
    method Anchor(pool: Pool, asset: Asset, here: Reference)
      requires Valid() && pool in references && Fits(here.price) && 0 < here.price
      modifies this
      ensures Valid() && references == old(references)[pool := old(references)[pool][asset := here]]
    {
      references := references[pool := references[pool][asset := here]];
      stretches := stretches[(pool, asset) := Stretch(here, [])];
    }

    /** The silent stretch goes on through one more reading, which a stale reference is refreshed to. */
    method Drift(pool: Pool, asset: Asset, price: int, now: nat)
      requires Valid() && pool in references && asset in references[pool] && Fits(price) && 0 < price
      requires MovedDirection(price, references[pool][asset].price, deltaBps).Still?
      modifies this
      ensures Valid()
      ensures references == old(references)[pool := old(references)[pool][asset :=
        Next(Some(old(references)[pool][asset]), price, now, deltaBps, staleAfter)]]
    {
      var reference := references[pool][asset];
      ghost var stretch := stretches[(pool, asset)];
      SilentMore(stretch.first, stretch.readings, Reading(price, now), deltaBps, staleAfter);
      stretches := stretches[(pool, asset) := Stretch(stretch.first, stretch.readings + [Reading(price, now)])];
      if Stale(reference.setAt, now, staleAfter) {
        references := references[pool := references[pool][asset := Reference(price, now)]];
      } else {
        Unmoved(references, pool, asset);
      }
    }

    static lemma Unmoved(references: map<Pool, map<Asset, Reference>>, pool: Pool, asset: Asset)
      requires pool in references && asset in references[pool]
      ensures references[pool := references[pool][asset := references[pool][asset]]] == references
    {
      assert references[pool][asset := references[pool][asset]] == references[pool];
    }

    /** One asset's price against its pool's reference. */
    method LookAt(pool: Pool, asset: Asset, price: int, now: nat) returns (report: Option<Direction>)
      requires Valid() && pool in references && Fits(price) && 0 < price
      modifies this
      ensures Valid()
      ensures var before := ReferenceOf(old(references)[pool], asset);
        var sight := Look(before, price, now, deltaBps, staleAfter);
        && references == old(references)[pool :=
             old(references)[pool][asset := Next(before, price, now, deltaBps, staleAfter)]]
        && report == (if sight.Reported? then Some(sight.direction) else None)
    {
      report := None;
      if asset !in references[pool] {
        Anchor(pool, asset, Reference(price, now));
        return;
      }
      var reference := references[pool][asset];
      match MovedDirection(price, reference.price, deltaBps) {
        case Moved(direction) =>
          report := Some(direction);
          Anchor(pool, asset, Reference(price, now));
        case Still => Drift(pool, asset, price, now);
        case Unjudged =>
          Unmoved(references, pool, asset);
          stretches := stretches[(pool, asset) := Stretch(reference, [])];
      }
    }

    /**
     One oracle scan of a pool: every asset priced is compared with its own
     reference, and nothing else moves.
     */
    method Moved(pool: Pool, prices: seq<(Asset, int)>, now: nat) returns (moves: seq<PriceMove>)
      requires Valid() && IsSnapshot(prices)
      modifies this
      ensures Valid()
      ensures references ==
        old(references)[pool := AfterScan(old(PoolReferences(pool)), prices, now, deltaBps, staleAfter)]
      ensures moves == MovesOf(old(PoolReferences(pool)), prices, now, deltaBps, staleAfter)
    {
      if pool !in references {
        references := references[pool := map[]];
      }
      moves := Scan(pool, prices, now);
    }

    /** The scan itself, over the pool's references. */
    method Scan(pool: Pool, prices: seq<(Asset, int)>, now: nat) returns (moves: seq<PriceMove>)
      requires Valid() && IsSnapshot(prices) && pool in references
      modifies this
      ensures Valid()
      ensures references ==
        old(references)[pool := AfterScan(old(references)[pool], prices, now, deltaBps, staleAfter)]
      ensures moves == MovesOf(old(references)[pool], prices, now, deltaBps, staleAfter)
    {
      ghost var before := references[pool];
      moves := [];
      for i := 0 to |prices|
        invariant Valid() && references ==
          old(references)[pool := AfterScan(before, prices[..i], now, deltaBps, staleAfter)]
        invariant moves == MovesOf(before, prices[..i], now, deltaBps, staleAfter)
      {
        var (asset, price) := prices[i];
        ScanOneMore(before, prices, now, deltaBps, staleAfter, i);
        var report := LookAt(pool, asset, price, now);
        if report.Some? {
          moves := moves + [PriceMove(asset, report.value)];
        }
      }
      assert prices[..|prices|] == prices;
    }

    /** The pool's references: none for a pool never scanned. */
    ghost function PoolReferences(pool: Pool): map<Asset, Reference>
      reads this
    {
      if pool in references then references[pool] else map[]
    }

    /**
     Whatever calls led here: an asset's reference, and the last price read,
     are within one more threshold than it went stale since it was last
     seeded, reported or unreadable.
     */
    lemma EveryDriftIsBounded(pool: Pool, asset: Asset)
      requires Valid() && pool in references && asset in references[pool]
      requires stretches[(pool, asset)].readings != []
      ensures var first, readings := stretches[(pool, asset)].first, stretches[(pool, asset)].readings;
        var m, p := Refreshes(first, readings, deltaBps, staleAfter), readings[|readings| - 1].price;
        && p * Pow(WHOLE_BPS, m + 1) < first.price * Pow(WHOLE_BPS + deltaBps, m + 1)
        && first.price * Pow(Max(WHOLE_BPS - deltaBps, 0), m + 1) < p * Pow(WHOLE_BPS, m + 1)
    {
      SilentDriftIsBounded(stretches[(pool, asset)].first, stretches[(pool, asset)].readings, deltaBps, staleAfter);
    }
  }

  function ReferenceOf(references: map<Asset, Reference>, asset: Asset): Option<Reference> {
    if asset in references then Some(references[asset]) else None
  }

  /** After a look that the arithmetic could judge, the reference is the price, or near it and not yet stale. */
  lemma LookedAtIsCurrentOrNear(reference: Option<Reference>, price: int, now: nat, threshold: u32, staleAfter: nat)
    requires Fits(price) && 0 < price
    requires reference.Some? ==> Fits(reference.value.price) && 0 < reference.value.price
    requires !Look(reference, price, now, threshold, staleAfter).Unreadable?
    ensures var next := Next(reference, price, now, threshold, staleAfter);
      || next == Reference(price, now)
      || (&& reference == Some(next)
          && Distance(price, next.price) * WHOLE_BPS < threshold * next.price
          && !Stale(next.setAt, now, staleAfter))
  {
    if reference.Some? { MovedExactly(price, reference.value.price, threshold); }
  }

  /** A threshold of none reports every reading of a known asset, even one that did not move. */
  lemma NoThresholdReportsEverything(reference: Reference, price: int, now: nat, staleAfter: nat)
    requires Fits(price) && 0 < price && Fits(reference.price) && 0 < reference.price
    ensures var sight := Look(Some(reference), price, now, 0, staleAfter); sight.Reported? || sight.Unreadable?
  {
    MovedExactly(price, reference.price, 0);
    assert Distance(price, reference.price) * WHOLE_BPS >= 0;
  }
}
