/**
 A decimal knob read into 7-decimal fixed point: by splitting at the point,
 padding the fraction's digits and parsing the whole as one 128-bit integer.
 No digit is ever rounded away.
 */
module Decimals {
  import opened Types
  import opened FixedPoint

  datatype DecimalError = NotADecimal | TooManyPlaces | DoesNotFit

  datatype Parsed = Scaled(units: int) | Rejected(error: DecimalError)

  const PLACES := 7

  predicate IsDigit(c: char) { '0' <= c <= '9' }

  predicate AllDigits(text: string) { forall i :: 0 <= i < |text| ==> IsDigit(text[i]) }

  function DigitOf(c: char): nat
    requires IsDigit(c)
  {
    (c as int) - ('0' as int)
  }

  /** The number a run of digits denotes. */
  function Number(digits: string): nat
    requires AllDigits(digits)
  {
    if digits == "" then 0 else 10 * Number(digits[..|digits| - 1]) + DigitOf(digits[|digits| - 1])
  }

  function Pow10(n: nat): (p: nat)
    ensures p > 0
  {
    if n == 0 then 1 else 10 * Pow10(n - 1)
  }

  // ----- the parser -------------------------------------------------------

  /** The text before the first point and after it; nothing after when there is none. */
  function SplitOnce(text: string): (parts: (string, string))
  {
    if text == "" then ("", "")
    else if text[0] == '.' then ("", text[1..])
    else
      var (whole, fraction) := SplitOnce(text[1..]);
      ([text[0]] + whole, fraction)
  }

  function Zeros(n: nat): (zeros: string)
    ensures |zeros| == n && AllDigits(zeros)
  {
    seq(n, i => '0')
  }

  /** Digits accumulated left to right, failing at the first step that leaves 128 bits. */
  function ParseFrom(sum: nat, digits: string): Option<nat>
    requires AllDigits(digits)
    decreases |digits|
  {
    if digits == "" then Some(sum)
    else if !Fits(sum * 10) || !Fits(sum * 10 + DigitOf(digits[0])) then None
    else ParseFrom(sum * 10 + DigitOf(digits[0]), digits[1..])
  }

  function FromStr(text: string): Parsed {
    var (whole, fraction) := SplitOnce(text);
    if whole == "" || !AllDigits(whole) || !AllDigits(fraction) then Rejected(NotADecimal)
    else if |fraction| > PLACES then Rejected(TooManyPlaces)
    else
      match ParseFrom(0, whole + fraction + Zeros(PLACES - |fraction|))
      case Some(units) => Scaled(units)
      case None => Rejected(DoesNotFit)
  }

  // ----- what it means ----------------------------------------------------

  lemma {:induction false} NumberOfConcat(a: string, b: string)
    requires AllDigits(a) && AllDigits(b)
    ensures AllDigits(a + b) && Number(a + b) == Number(a) * Pow10(|b|) + Number(b)
  {
    if b == "" {
      assert a + b == a;
    } else {
      var front := b[..|b| - 1];
      assert (a + b)[..|a + b| - 1] == a + front;
      NumberOfConcat(a, front);
      assert Number(a + b) == 10 * Number(a + front) + DigitOf(b[|b| - 1]);
      assert Number(b) == 10 * Number(front) + DigitOf(b[|b| - 1]);
      TimesTen(Number(a), Pow10(|front|), Number(front));
    }
  }

  lemma TimesTen(a: nat, power: nat, rest: nat)
    ensures 10 * (a * power + rest) == a * (10 * power) + 10 * rest
  {
  }

  lemma {:induction false} NumberOfZeros(n: nat)
    ensures Number(Zeros(n)) == 0
  {
    if n > 0 {
      assert Zeros(n)[..n - 1] == Zeros(n - 1);
      NumberOfZeros(n - 1);
    }
  }

  /** What accumulating digit by digit, with nothing ever overflowing, comes to. */
  function Accumulated(sum: nat, digits: string): nat
    requires AllDigits(digits)
    decreases |digits|
  {
    if digits == "" then sum else Accumulated(sum * 10 + DigitOf(digits[0]), digits[1..])
  }

  lemma {:induction false} AccumulatedAppend(sum: nat, digits: string, last: char)
    requires AllDigits(digits) && '0' <= last <= '9'
    ensures AllDigits(digits + [last])
    ensures Accumulated(sum, digits + [last]) == 10 * Accumulated(sum, digits) + DigitOf(last)
    decreases |digits|
  {
    var longer := digits + [last];
    if digits == "" {
      assert longer == [last] && longer[1..] == "";
    } else {
      assert longer[0] == digits[0] && longer[1..] == digits[1..] + [last];
      AccumulatedAppend(sum * 10 + DigitOf(digits[0]), digits[1..], last);
    }
  }

  lemma {:induction false} AccumulatedIs(sum: nat, digits: string)
    requires AllDigits(digits)
    ensures Accumulated(sum, digits) == sum * Pow10(|digits|) + Number(digits)
    decreases |digits|
  {
    if digits != "" {
      var front, last := digits[..|digits| - 1], digits[|digits| - 1];
      assert digits == front + [last];
      AccumulatedAppend(sum, front, last);
      AccumulatedIs(sum, front);
      TimesTen(sum, Pow10(|front|), Number(front));
    }
  }

  lemma {:induction false} AccumulatedGrows(sum: nat, digits: string)
    requires AllDigits(digits)
    ensures Accumulated(sum, digits) >= sum
    decreases |digits|
  {
    if digits != "" { AccumulatedGrows(sum * 10 + DigitOf(digits[0]), digits[1..]); }
  }

  /** The checked accumulation fails exactly when the number leaves 128 bits, though only its steps are checked. */
  lemma {:induction false} ParseFromIsChecked(sum: nat, digits: string)
    requires AllDigits(digits) && Fits(sum)
    ensures var n := Accumulated(sum, digits); ParseFrom(sum, digits) == if Fits(n) then Some(n) else None
    decreases |digits|
  {
    if digits != "" {
      var next := sum * 10 + DigitOf(digits[0]);
      if Fits(next) { ParseFromIsChecked(next, digits[1..]); } else { AccumulatedGrows(next, digits[1..]); }
    }
  }

  /** `text` spells this whole part and fraction, with the point optional when the fraction is empty. */
  predicate Spells(text: string, whole: string, fraction: string) {
    && AllDigits(whole) && AllDigits(fraction)
    && (text == whole + "." + fraction || (fraction == "" && text == whole))
  }

  lemma {:induction false} SplitSpells(text: string)
    ensures var (whole, fraction) := SplitOnce(text);
      text == whole + "." + fraction || (fraction == "" && text == whole)
    decreases |text|
  {
    if text != "" && text[0] != '.' {
      SplitSpells(text[1..]);
      assert text == [text[0]] + text[1..];
    }
  }

  lemma {:induction false} SpellingIsUnique(text: string, whole: string, fraction: string)
    requires Spells(text, whole, fraction)
    ensures SplitOnce(text) == (whole, fraction)
    decreases |text|
  {
    if whole == "" {
      if text != "" { assert text[1..] == fraction; }
    } else {
      assert text[0] == whole[0] && whole == [whole[0]] + whole[1..];
      assert text[1..] == if text == whole then whole[1..] else whole[1..] + "." + fraction;
      SpellingIsUnique(text[1..], whole[1..], fraction);
    }
  }

  /** The spelled number in units of 10^-7: exact, for at most seven places. */
  function Units(whole: string, fraction: string): nat
    requires AllDigits(whole) && AllDigits(fraction) && |fraction| <= PLACES
  {
    Number(whole) * Pow10(PLACES) + Number(fraction) * Pow10(PLACES - |fraction|)
  }

  /** Padding the digits and reading them as one integer is scaling by 10^7. */
  lemma PaddingScales(whole: string, fraction: string)
    requires AllDigits(whole) && AllDigits(fraction) && |fraction| <= PLACES
    ensures Number(whole + fraction + Zeros(PLACES - |fraction|)) == Units(whole, fraction)
    ensures Units(whole, fraction) * Pow10(|fraction|) == Number(whole + fraction) * Pow10(PLACES)
  {
    var pad := PLACES - |fraction|;
    NumberOfConcat(whole, fraction);
    NumberOfConcat(whole + fraction, Zeros(pad));
    NumberOfZeros(pad);
    PowersAdd(|fraction|, pad);
    Distributes(Number(whole), Number(fraction), Pow10(|fraction|), Pow10(pad));
  }

  lemma Distributes(w: nat, f: nat, a: nat, b: nat)
    ensures (w * a + f) * b == w * (a * b) + f * b
    ensures (w * (a * b) + f * b) * a == (w * a + f) * (a * b)
  {
    assert (w * a + f) * b == w * (a * b) + f * b by { assert w * a * b == w * (a * b); }
    calc {
      (w * (a * b) + f * b) * a;
      == ((w * a + f) * b) * a;
      == (w * a + f) * (a * b);
    }
  }

  lemma {:induction false} PowersAdd(a: nat, b: nat)
    ensures Pow10(a) * Pow10(b) == Pow10(a + b)
  {
    if a > 0 { PowersAdd(a - 1, b); }
  }

  /** The text is accepted as the split at its first point says. */
  lemma AcceptsTheSplit(text: string, units: int)
    ensures var (whole, fraction) := SplitOnce(text);
      FromStr(text) == Scaled(units) <==>
        && whole != "" && AllDigits(whole) && AllDigits(fraction) && |fraction| <= PLACES
        && units == Units(whole, fraction) && Fits(units)
  {
    var (whole, fraction) := SplitOnce(text);
    if whole != "" && AllDigits(whole) && AllDigits(fraction) && |fraction| <= PLACES {
      PaddingScales(whole, fraction);
      var padded := whole + fraction + Zeros(PLACES - |fraction|);
      ParseFromIsChecked(0, padded);
      AccumulatedIs(0, padded);
    }
  }

  /**
   Exactly the decimals accepted: a spelling with a whole part, at most
   seven places and units that fit 128 bits; the result is those units.
   */
  lemma AcceptsExactly(text: string, units: int)
    ensures FromStr(text) == Scaled(units) <==>
      exists whole, fraction :: Spells(text, whole, fraction) && whole != "" && |fraction| <= PLACES
        && units == Units(whole, fraction) && Fits(units)
  {
    SplitSpells(text);
    AcceptsTheSplit(text, units);
    var (whole, fraction) := SplitOnce(text);
    if AllDigits(whole) && AllDigits(fraction) { assert Spells(text, whole, fraction); }
    forall w, f | Spells(text, w, f) ensures w == whole && f == fraction {
      SpellingIsUnique(text, w, f);
    }
  }

  // ----- printing ---------------------------------------------------------

  /** The last `width` digits of `n`. */
  function Digits(n: nat, width: nat): (digits: string)
    decreases width
  {
    if width == 0 then "" else Digits(n / 10, width - 1) + [('0' as int + n % 10) as char]
  }

  /** All of `n`'s digits. */
  function WholeDigits(n: nat): string {
    if n < 10 then [('0' as int + n) as char] else WholeDigits(n / 10) + [('0' as int + n % 10) as char]
  }

  /** A fixed-point value as a decimal with all seven places. */
  function Print(units: nat): string {
    WholeDigits(units / Pow10(PLACES)) + "." + Digits(units % Pow10(PLACES), PLACES)
  }

  lemma {:induction false} DigitsRead(n: nat, width: nat)
    requires n < Pow10(width)
    ensures AllDigits(Digits(n, width)) && |Digits(n, width)| == width && Number(Digits(n, width)) == n
  {
    if width > 0 {
      DigitsRead(n / 10, width - 1);
      assert Digits(n, width)[..width - 1] == Digits(n / 10, width - 1);
    }
  }

  lemma {:induction false} WholeDigitsRead(n: nat)
    ensures WholeDigits(n) != "" && AllDigits(WholeDigits(n)) && Number(WholeDigits(n)) == n
  {
    if n < 10 {
      assert WholeDigits(n)[..0] == "";
    } else {
      WholeDigitsRead(n / 10);
      assert WholeDigits(n)[..|WholeDigits(n)| - 1] == WholeDigits(n / 10);
    }
  }

  /** Every fixed-point value, printed and parsed, is itself. */
  lemma PrintedValuesReadBack(units: nat)
    requires Fits(units)
    ensures FromStr(Print(units)) == Scaled(units)
  {
    PrintedUnits(units);
    AcceptsExactly(Print(units), units);
  }

  lemma DividesBack(n: nat, d: nat)
    requires 0 < d
    ensures n / d * d + n % d == n
  {
  }

  lemma PrintedUnits(units: nat)
    ensures var scale := Pow10(PLACES);
      var whole, fraction := WholeDigits(units / scale), Digits(units % scale, PLACES);
      && whole != "" && Spells(Print(units), whole, fraction) && |fraction| <= PLACES
      && Units(whole, fraction) == units
  {
    var scale := Pow10(PLACES);
    WholeDigitsRead(units / scale);
    DigitsRead(units % scale, PLACES);
    assert Pow10(0) == 1;
    DividesBack(units, scale);
  }
}
