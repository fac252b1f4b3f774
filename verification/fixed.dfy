/**
 Checked fixed-point arithmetic: `x * y / z` with mathematical floor or
 ceiling, through a 128-bit fast path and a 256-bit one. Nothing panics; a
 zero divisor or a result outside 128 bits is an error.
 */
module FixedPoint {

  datatype MathError = DivisionByZero | Overflow

  datatype Computed = Value(value: int) | Failure(error: MathError)

  datatype Rounding = Floor | Ceil

  const I128_MAX := 0x7FFF_FFFF_FFFF_FFFF_FFFF_FFFF_FFFF_FFFF
  const I128_MIN := -I128_MAX - 1

  predicate Fits(x: int) { I128_MIN <= x <= I128_MAX }

  function Checked(x: int): Computed {
    if Fits(x) then Value(x) else Failure(Overflow)
  }

  /** The 256-bit path: the product always fits, only the quotient may not. */
  function DivideWide(r: int, z: int, rounding: Rounding): Computed
    requires z != 0
  {
    var (r, z) := if z < 0 then (-r, -z) else (r, z);
    var quotient := r / z;
    Checked(if rounding.Floor? || r % z == 0 then quotient else quotient + 1)
  }

  /** The 128-bit path, with the two values that have no 128-bit negation sent to the wide one. */
  function DivideNarrow(r: int, z: int, rounding: Rounding): Computed
    requires Fits(r) && Fits(z) && z != 0
  {
    if r == I128_MIN || z == I128_MIN then DivideWide(r, z, rounding)
    else
      var (r, z) := if z < 0 then (-r, -z) else (r, z);
      var quotient := r / z;
      if rounding.Floor? || r % z == 0 then Value(quotient)
      else Checked(quotient + 1)
  }

  function MulDiv(x: int, y: int, z: int, rounding: Rounding): Computed
    requires Fits(x) && Fits(y) && Fits(z)
  {
    if z == 0 then Failure(DivisionByZero)
    else if Fits(x * y) then DivideNarrow(x * y, z, rounding)
    else DivideWide(x * y, z, rounding)
  }

  /** floor(x * denominator / y) */
  function DivFloor(x: int, y: int, denominator: int): Computed
    requires Fits(x) && Fits(y) && Fits(denominator)
  {
    MulDiv(x, denominator, y, Floor)
  }

  /** `q` is `r / z` rounded down: the greatest whole number at or below it. */
  predicate IsFloor(q: int, r: int, z: int)
    requires z != 0
  {
    if z > 0 then q * z <= r < (q + 1) * z else (q + 1) * z < r <= q * z
  }

  /** `q` is `r / z` rounded up. */
  predicate IsCeil(q: int, r: int, z: int)
    requires z != 0
  {
    if z > 0 then (q - 1) * z < r <= q * z else q * z <= r < (q - 1) * z
  }

  predicate IsRounded(q: int, r: int, z: int, rounding: Rounding)
    requires z != 0
  {
    if rounding.Floor? then IsFloor(q, r, z) else IsCeil(q, r, z)
  }

  lemma Quotients(r: int, z: int)
    requires z > 0
    ensures r == (r / z) * z + r % z && 0 <= r % z < z
  {
  }

  lemma Divided(r: int, z: int, rounding: Rounding)
    requires z > 0
    ensures IsRounded(if rounding.Floor? || r % z == 0 then r / z else r / z + 1, r, z, rounding)
  {
    Quotients(r, z);
    var q := r / z;
    assert (q + 1) * z == q * z + z && (q - 1) * z == q * z - z;
  }

  /** Rounding a quotient is rounding that of the negated pair. */
  lemma NegatedPair(q: int, r: int, z: int, rounding: Rounding)
    requires z < 0 && IsRounded(q, -r, -z, rounding)
    ensures IsRounded(q, r, z, rounding)
  {
    assert q * -z == -(q * z) && (q + 1) * -z == -((q + 1) * z) && (q - 1) * -z == -((q - 1) * z);
  }

  lemma WideIsExact(r: int, z: int, rounding: Rounding)
    requires z != 0
    ensures exists q :: IsRounded(q, r, z, rounding) && DivideWide(r, z, rounding) == Checked(q)
  {
    var (r', z') := if z < 0 then (-r, -z) else (r, z);
    var q := if rounding.Floor? || r' % z' == 0 then r' / z' else r' / z' + 1;
    Divided(r', z', rounding);
    if z < 0 { NegatedPair(q, r, z, rounding); }
  }

  lemma NoSmaller(q: nat, z: nat)
    requires z > 0
    ensures q * z >= q
  {
    assert q * z == q * (z - 1) + q;
  }

  /** Neither rounding leaves the range the dividend is in. */
  lemma QuotientShrinks(q: int, rest: int, z: int)
    requires z > 0 && 0 <= rest < z
    ensures var r := q * z + rest;
      && (r >= 0 ==> 0 <= q <= r)
      && (r < 0 ==> r <= q < 0)
      && (rest != 0 ==> q < Top(r))
  {
    if q < 0 {
      NoSmaller(-q - 1, z);
      assert q * z == -((-q - 1) * z) - z;
    } else {
      NoSmaller(q, z);
    }
  }

  function Top(x: int): nat { if x < 0 then 0 else x }

  /** The fast path answers what the wide one does, and never overflows. */
  lemma NarrowIsWide(r: int, z: int, rounding: Rounding)
    requires Fits(r) && Fits(z) && z != 0
    ensures DivideNarrow(r, z, rounding) == DivideWide(r, z, rounding)
  {
    if r != I128_MIN && z != I128_MIN {
      var (r', z') := if z < 0 then (-r, -z) else (r, z);
      Quotients(r', z');
      QuotientShrinks(r' / z', r' % z', z');
    }
  }

  /** The rounded quotient is only ever one number. */
  lemma RoundedIsUnique(q: int, p: int, r: int, z: int, rounding: Rounding)
    requires z != 0 && IsRounded(q, r, z, rounding) && IsRounded(p, r, z, rounding)
    ensures q == p
  {
    if q < p { Apart(q, p, z); } else if p < q { Apart(p, q, z); }
  }

  lemma Apart(q: int, p: int, z: int)
    requires q < p
    ensures z > 0 ==> (q + 1) * z <= p * z && q * z <= (p - 1) * z
    ensures z < 0 ==> (q + 1) * z >= p * z && q * z >= (p - 1) * z
  {
    if z > 0 { assert (p - q - 1) * z >= 0; } else if z < 0 { assert (p - q - 1) * -z >= 0; }
  }

  /**
   Every operation rounds the exact quotient of the unbounded product, the
   one number that does so, and fails only where the divisor is zero or that
   quotient leaves 128 bits.
   */
  lemma MulDivIsExact(x: int, y: int, z: int, rounding: Rounding)
    requires Fits(x) && Fits(y) && Fits(z)
    ensures z == 0 ==> MulDiv(x, y, z, rounding) == Failure(DivisionByZero)
    ensures z != 0 ==> exists q :: IsRounded(q, x * y, z, rounding)
    ensures z != 0 ==> forall q :: IsRounded(q, x * y, z, rounding) ==> MulDiv(x, y, z, rounding) == Checked(q)
  {
    if z != 0 {
      WideIsExact(x * y, z, rounding);
      if Fits(x * y) { NarrowIsWide(x * y, z, rounding); }
      var q :| IsRounded(q, x * y, z, rounding) && DivideWide(x * y, z, rounding) == Checked(q);
      forall p | IsRounded(p, x * y, z, rounding) ensures p == q {
        RoundedIsUnique(q, p, x * y, z, rounding);
      }
    }
  }
}
