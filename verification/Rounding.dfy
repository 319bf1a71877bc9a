/** Half-up rounding of decimal text, the display of a figure, and an amount as an input starts out. */
module Rounding {
  import opened Arithmetic
  import opened Options
  import opened Digits
  import opened Decimals
  import opened Money

  function RoundsUp(fraction: string, digits: nat): bool {
    digits < |fraction| && fraction[digits] >= '5'
  }

  /** The number whose last `digits` digits are the rounded fraction. */
  function RoundedNumber(p: Spelled, digits: nat): nat
    requires WellSpelled(p)
  {
    var kept := if digits < |p.fraction| then p.fraction[..digits] else p.fraction;
    NumberOf(p.integer + PadEnd(kept, digits)) + if RoundsUp(p.fraction, digits) then 1 else 0
  }

  function RoundSpelled(p: Spelled, digits: nat): (q: Spelled)
    requires WellSpelled(p)
    ensures WellSpelled(q) && |q.fraction| == digits
  {
    var scaled := RoundedNumber(p, digits);
    var text := PadStart(Decimal(scaled), digits + 1);
    Spelled(p.negative && scaled != 0, text[..|text| - digits], text[|text| - digits..])
  }

  function RoundDecimal(p: Spelled, digits: nat): string
    requires WellSpelled(p)
  {
    Text(RoundSpelled(p, digits))
  }

  /** What the digits of a spelling come to, sign aside. */
  function Magnitude(p: Spelled): nat
    requires WellSpelled(p)
  {
    NumberOf(p.integer + p.fraction)
  }

  lemma RoundedMagnitude(p: Spelled, digits: nat)
    requires WellSpelled(p)
    ensures Magnitude(RoundSpelled(p, digits)) == RoundedNumber(p, digits)
  {
    hide RoundedNumber;
    var scaled := RoundedNumber(p, digits);
    var text := PadStart(Decimal(scaled), digits + 1);
    NumberOfPadStart(Decimal(scaled), digits + 1);
    DecimalNumber(scaled);
    hide PadStart, Decimal, NumberOf;
    assert text == text[..|text| - digits] + text[|text| - digits..];
  }

  /** The first digit dropped decides whether what is dropped is at least half. */
  lemma HalfDigit(s: string)
    requires s != "" && AllDigits(s)
    ensures s[0] >= '5' <==> 2 * NumberOf(s) >= Pow10(|s|)
  {
    var d, rest := [s[0]], s[1..];
    assert s == d + rest;
    assert d[..0] == "";
    assert NumberOf(d) == DigitValue(s[0]);
    NumberOfAppend(d, rest);
    NumberOfBound(rest);
    hide NumberOf;
    assert Pow10(|s|) == 10 * Pow10(|rest|);
    if DigitValue(s[0]) >= 5 {
      MulMonotone(5, DigitValue(s[0]), Pow10(|rest|));
    } else {
      MulMonotone(DigitValue(s[0]), 4, Pow10(|rest|));
    }
  }

  /** Rounding `hi * t + lo` to a multiple of `t`, the half going up. */
  lemma RoundedMultiple(hi: nat, lo: nat, t: nat, d: nat, up: bool)
    requires lo < t && d > 0 && (up <==> 2 * lo >= t)
    ensures var m: int, n: int := hi + if up then 1 else 0, hi * t + lo; 0 - t * d < 2 * (m * (t * d) - n * d) <= t * d
  {
    var m: int, n: int := hi + if up then 1 else 0, hi * t + lo;
    var off := m * t - n;
    assert off == if up then t - lo else 0 - lo by {
      assert (hi + 1) * t == hi * t + t;
    }
    assert m * (t * d) - n * d == off * d by {
      assert m * (t * d) == (m * t) * d;
    }
    assert 0 - t < 2 * off <= t;
    MulStrict(0 - t, 2 * off, d);
    MulMonotone(2 * off, t, d);
    assert (2 * off) * d == 2 * (off * d);
  }

  /** Rounding when digits are dropped, and when none are. */
  lemma RoundDropping(p: Spelled, digits: nat)
    requires WellSpelled(p) && digits < |p.fraction|
    ensures var m: int, n: int, d: int, f: int := RoundedNumber(p, digits), Magnitude(p), Pow10(digits), Pow10(|p.fraction|);
            -f < 2 * (m * f - n * d) <= f
  {
    hide NumberOf, Pow10;
    var kept, dropped := p.fraction[..digits], p.fraction[digits..];
    HalfDigit(dropped);
    NumberOfBound(dropped);
    SplitFraction(p.integer, p.fraction, digits);
    NumberOfAppend(p.integer + kept, dropped);
    Pow10Add(|p.fraction| - digits, digits);
    assert PadEnd(kept, digits) == kept;
    RoundedMultiple(NumberOf(p.integer + kept), NumberOf(dropped), Pow10(|p.fraction| - digits), Pow10(digits), RoundsUp(p.fraction, digits));
  }

  lemma SplitFraction(integer: string, fraction: string, digits: nat)
    requires digits <= |fraction|
    ensures integer + fraction == integer + fraction[..digits] + fraction[digits..]
  {
  }

  lemma RoundKeeping(p: Spelled, digits: nat)
    requires WellSpelled(p) && |p.fraction| <= digits
    ensures RoundedNumber(p, digits) * Pow10(|p.fraction|) == Magnitude(p) * Pow10(digits)
  {
    hide NumberOf, Pow10, Zeros, PadEnd, RoundedNumber, Magnitude;
    var k := digits - |p.fraction|;
    RoundKeepingDigits(p, digits);
    NumberOfAppend(p.integer + p.fraction, Zeros(k));
    NumberOfZeros(k);
    Pow10Add(k, |p.fraction|);
    MulAssoc(Magnitude(p), Pow10(k), Pow10(|p.fraction|));
  }

  lemma RoundKeepingDigits(p: Spelled, digits: nat)
    requires WellSpelled(p) && |p.fraction| <= digits
    ensures RoundedNumber(p, digits) == NumberOf(p.integer + p.fraction + Zeros(digits - |p.fraction|))
    ensures Magnitude(p) == NumberOf(p.integer + p.fraction)
  {
    hide NumberOf, Zeros;
    PadEndIs(p.fraction, digits);
    Concat3(p.integer, p.fraction, Zeros(digits - |p.fraction|));
  }

  /**
   Rounding to `digits` places: exactly that many digits, within half a unit of the value with a tie
   going away from zero, and never a negative zero.
   */
  lemma RoundExact(p: Spelled, digits: nat)
    requires WellSpelled(p)
    ensures var q := RoundSpelled(p, digits);
            var m: int, n: int, d: int, f: int := Magnitude(q), Magnitude(p), Pow10(digits), Pow10(|p.fraction|);
            && |q.fraction| == digits
            && -f < 2 * (m * f - n * d) <= f
            && (q.negative <==> p.negative && m > 0)
  {
    RoundedMagnitude(p, digits);
    if digits < |p.fraction| {
      RoundDropping(p, digits);
    } else {
      RoundKeeping(p, digits);
    }
    assert RoundSpelled(p, digits).negative <==> p.negative && RoundedNumber(p, digits) != 0;
    hide *;
  }

  // ---------------------------------------------------------------- formatMoney, up to the locale

  /** What `formatMoney` hands the locale: the amount as it came, or a sign, a whole number and digits. */
  datatype Shown = AsItCame(amount: string) | Figure(negative: bool, whole: nat, digits: string)

  function ShownDigits(iso: bool, currencyDigits: nat, p: Spelled): nat {
    if iso then currencyDigits else if currencyDigits < |p.fraction| then |p.fraction| else currencyDigits
  }

  function FractionLength(amount: string): nat {
    match ReadDecimal(amount)
    case Some(p) => |p.fraction|
    case None => 0
  }

  function FormatMoney(amount: string, iso: bool, currencyDigits: nat): Shown
    decreases FractionLength(amount)
  {
    match ReadDecimal(amount)
    case Some(p) =>
      ReadingIsText(amount);
      if |p.fraction| > SCALE then AsItCame(amount)
      else
        var digits := ShownDigits(iso, currencyDigits, p);
        if |p.fraction| > digits then
          TextReads(RoundSpelled(p, digits));
          FormatMoney(RoundDecimal(p, digits), iso, currencyDigits)
        else Figure(p.negative, NumberOf(p.integer), PadEnd(p.fraction, digits))
    case None => AsItCame(amount)
  }

  lemma FormatFits(p: Spelled, iso: bool, currencyDigits: nat)
    requires WellSpelled(p) && |p.fraction| <= SCALE && (!iso || |p.fraction| <= currencyDigits)
    ensures FormatMoney(Text(p), iso, currencyDigits) ==
              Figure(p.negative, NumberOf(p.integer), PadEnd(p.fraction, ShownDigits(iso, currencyDigits, p)))
  {
    TextReads(p);
    hide Text, ReadDecimal, NumberOf, PadEnd;
  }

  /** Only a currency's own digits round, and only once: what the rounding prints has no digit left over,
      so it is formatted as it stands. */
  lemma FormatRoundsOnce(p: Spelled, iso: bool, currencyDigits: nat)
    requires WellSpelled(p) && iso && currencyDigits < |p.fraction| <= SCALE
    ensures var q := RoundSpelled(p, currencyDigits);
            && |q.fraction| == currencyDigits
            && FormatMoney(Text(p), iso, currencyDigits) == FormatMoney(Text(q), iso, currencyDigits)
               == Figure(q.negative, NumberOf(q.integer), q.fraction)
  {
    hide RoundSpelled, Text, ReadDecimal, NumberOf, Zeros, FormatMoney;
    var q := RoundSpelled(p, currencyDigits);
    FormatRounds(p, currencyDigits);
    FormatFits(q, iso, currencyDigits);
  }

  lemma FormatRounds(p: Spelled, currencyDigits: nat)
    requires WellSpelled(p) && currencyDigits < |p.fraction| <= SCALE
    ensures FormatMoney(Text(p), true, currencyDigits) == FormatMoney(Text(RoundSpelled(p, currencyDigits)), true, currencyDigits)
  {
    TextReads(p);
    hide RoundSpelled, Text, ReadDecimal, NumberOf, Zeros;
  }

  /** An ISO currency shows its own number of digits, any other at least that many and all it has; a figure
      whose digits fit keeps them, with zeros after them. */
  lemma FormatKeeps(p: Spelled, iso: bool, currencyDigits: nat)
    requires WellSpelled(p) && |p.fraction| <= SCALE
    ensures var s := FormatMoney(Text(p), iso, currencyDigits);
              && s.Figure?
              && |s.digits| == if iso || currencyDigits > |p.fraction| then currencyDigits else |p.fraction|
    ensures |p.fraction| <= currencyDigits || !iso ==>
              var s := FormatMoney(Text(p), iso, currencyDigits);
              s.negative == p.negative && s.whole == NumberOf(p.integer) && AllDigits(s.digits) && p.fraction <= s.digits
              && NumberOf(s.digits) == NumberOf(p.fraction) * Pow10(|s.digits| - |p.fraction|)
  {
    hide Text, ReadDecimal, NumberOf, Pow10, FormatMoney, RoundSpelled;
    if iso && currencyDigits < |p.fraction| {
      FormatRoundsOnce(p, iso, currencyDigits);
    } else {
      FormatFits(p, iso, currencyDigits);
      NumberOfPadEnd(p.fraction, ShownDigits(iso, currencyDigits, p));
    }
  }

  /** What cannot be read, or has more places than the ledger, is shown as it came, and nothing else is. */
  lemma ShownAsItCame(amount: string, iso: bool, currencyDigits: nat)
    ensures var s := FormatMoney(amount, iso, currencyDigits);
      && (s.AsItCame? <==> ReadDecimal(amount).None? || |ReadDecimal(amount).value.fraction| > SCALE)
      && (s.AsItCame? ==> s.amount == amount)
  {
    if ReadDecimal(amount).Some? && |ReadDecimal(amount).value.fraction| <= SCALE {
      ReadingIsText(amount);
      FormatKeeps(ReadDecimal(amount).value, iso, currencyDigits);
    }
  }

  // ---------------------------------------------------------------- amountForInput

  function InputSpelled(p: Spelled, digits: nat): (q: Spelled)
    requires WellSpelled(p)
    ensures WellSpelled(q)
  {
    StripZerosValue(p.fraction);
    Spelled(p.negative, p.integer, PadEnd(StripZeros(p.fraction), digits))
  }

  /** `digits` is the currency's own number of decimals, or none for one that has no ISO precision. */
  function AmountForInput(amount: string, digits: nat): string {
    match ReadDecimal(amount)
    case Some(p) =>
      ReadingIsText(amount);
      Text(InputSpelled(p, digits))
    case None => amount
  }

  /** Only zeros are added or removed, all that can be: the currency's own digits at least, and past them
      none that is a zero at the end. What cannot be read is left as it is. */
  lemma InputKeepsValue(p: Spelled, digits: nat)
    requires WellSpelled(p)
    ensures AmountForInput(Text(p), digits) == Text(InputSpelled(p, digits))
    ensures var q := InputSpelled(p, digits);
      && SameValue(p, q) && q.negative == p.negative && q.integer == p.integer
      && |q.fraction| >= digits && (|q.fraction| > digits ==> q.fraction[|q.fraction| - 1] != '0')
  {
    InputValue(p, digits);
    InputReads(p, digits);
    hide SameValue, AmountForInput;
    StripZerosValue(p.fraction);
    hide StripZeros, NumberOf, Pow10;
  }

  lemma InputReads(p: Spelled, digits: nat)
    requires WellSpelled(p)
    ensures AmountForInput(Text(p), digits) == Text(InputSpelled(p, digits))
  {
    TextReads(p);
    hide ReadDecimal, Text, InputSpelled;
  }

  lemma InputLeavesOthers(amount: string, digits: nat)
    ensures ReadDecimal(amount).None? ==> AmountForInput(amount, digits) == amount
    ensures ReadDecimal(amount).Some? ==> ReadDecimal(AmountForInput(amount, digits)) == Some(InputSpelled(ReadDecimal(amount).value, digits))
  {
    if ReadDecimal(amount).Some? {
      ReadingIsText(amount);
      TextReads(InputSpelled(ReadDecimal(amount).value, digits));
    }
  }

  lemma InputValue(p: Spelled, digits: nat)
    requires WellSpelled(p)
    ensures SameValue(p, InputSpelled(p, digits))
  {
    hide NumberOf, Pow10, StripZeros, PadEnd, Numerator, AllDigits;
    var q := InputSpelled(p, digits);
    var s := StripZeros(p.fraction);
    var k := if |s| < digits then digits - |s| else 0;
    StripZerosValue(p.fraction);
    PadValue(s, digits);
    NumeratorParts(p);
    NumeratorParts(q);
    assert q.fraction == PadEnd(s, digits);
    Pow10Add(|s|, k);
    Pow10Add(|s|, |p.fraction| - |s|);
    SameScaled(NumberOf(p.integer), NumberOf(s), Pow10(|s|), Pow10(|p.fraction| - |s|), Pow10(k));
  }

  lemma PadValue(s: string, digits: nat)
    requires AllDigits(s)
    ensures NumberOf(PadEnd(s, digits)) == NumberOf(s) * Pow10(if |s| < digits then digits - |s| else 0)
  {
    if |s| < digits {
      NumberOfPadEnd(s, digits);
    }
  }

  lemma SameScaled(i: int, n: int, a: int, b: int, c: int)
    ensures (i * (a * b) + n * b) * (a * c) == (i * (a * c) + n * c) * (a * b)
  {
    var x := i * a + n;
    MulAssoc(i, a, b);
    MulAssoc(i, a, c);
    assert i * (a * b) + n * b == x * b;
    assert i * (a * c) + n * c == x * c;
    assert (x * b) * (a * c) == (x * c) * (a * b);
  }

  /** Opening a field on what another field started with changes nothing. */
  lemma InputIdempotent(amount: string, digits: nat)
    ensures AmountForInput(AmountForInput(amount, digits), digits) == AmountForInput(amount, digits)
  {
    if ReadDecimal(amount).Some? {
      var p := ReadDecimal(amount).value;
      ReadingIsText(amount);
      var q := InputSpelled(p, digits);
      TextReads(q);
      var s := StripZeros(p.fraction);
      StripZerosValue(p.fraction);
      if |s| < digits {
        StripPadded(s, digits);
      } else {
        assert q.fraction == s;
        StripKept(s);
      }
      assert StripZeros(q.fraction) == s;
      hide Text, ReadDecimal, StripZeros, PadEnd;
    }
  }

  lemma StripKept(s: string)
    requires s != "" ==> s[|s| - 1] != '0'
    ensures StripZeros(s) == s
  {
  }

  /** In the ledger's own eighteen places the input opens on exactly what is stored. */
  lemma InputKeepsUnits(p: Spelled, digits: nat)
    requires WellSpelled(p) && |p.fraction| <= SCALE && digits <= SCALE
    ensures MoneyUnits(AmountForInput(Text(p), digits)) == MoneyUnits(Text(p)) == Some(UnitsOf(p))
  {
    var q := InputSpelled(p, digits);
    InputKeepsValue(p, digits);
    assert |q.fraction| <= SCALE;
    SpelledUnits(p);
    SpelledUnits(q);
    CompareIsValue(p, q);
    hide Text, UnitsOf, MoneyUnits, SameValue, AmountForInput, InputSpelled;
  }
}
