/** The second printer and adder of exact amounts (src/shared/ledger-file-import.ts): one text per
    amount, whatever number of places it was written with. */
module ExactText {
  import opened Arithmetic
  import opened Options
  import opened Digits
  import opened Decimals
  import opened Money

  /** `whole.replace(/^0+(?=\d)/, "")`. */
  function StripLeading(s: string): (r: string)
    ensures |r| <= |s| && r == s[|s| - |r|..]
    ensures s != "" ==> r != "" && (|r| == 1 || r[0] != '0')
    ensures forall i :: 0 <= i < |s| - |r| ==> s[i] == '0'
  {
    if |s| >= 2 && s[0] == '0' then StripLeading(s[1..]) else s
  }

  function CanonicalSpelled(p: Spelled): (c: Spelled)
    requires WellSpelled(p)
    ensures WellSpelled(c)
  {
    StripZerosValue(p.fraction);
    var (integer, fraction) := (StripLeading(p.integer), StripZeros(p.fraction));
    Spelled(p.negative && (integer != "0" || fraction != ""), integer, fraction)
  }

  function CanonicalDecimalText(value: string): string {
    match ReadDecimal(Trim(value))
    case None => value
    case Some(p) =>
      ReadingIsText(Trim(value));
      Text(CanonicalSpelled(p))
  }

  function FromUnits(units: int): string {
    var digits := PadStart(Decimal(if units < 0 then -units else units), SCALE + 1);
    CanonicalDecimalText((if units < 0 then "-" else "") + digits[..|digits| - SCALE] + "." + digits[|digits| - SCALE..])
  }

  /** `toUnits` reads what `moneyUnits` reads, and throws where that answers null: `None` here. */
  function AddDecimalText(left: string, right: string): Option<string> {
    if MoneyUnits(left).Some? && MoneyUnits(right).Some?
    then Some(FromUnits(MoneyUnits(left).value + MoneyUnits(right).value)) else None
  }

  lemma OneZero(s: string)
    requires AllDigits(s) && s != "" && s[0] == '0'
    ensures AllDigits(s[1..]) && NumberOf(s[1..]) == NumberOf(s)
  {
    hide NumberOf, Pow10;
    var r := s[1..];
    assert s == "0" + r;
    NumberOfAppend("0", r);
    NumberOfNothing();
    ZeroTimes(NumberOf("0"), Pow10(|r|));
  }

  lemma {:induction false} LeadingZerosAddNothing(s: string)
    requires AllDigits(s)
    ensures AllDigits(StripLeading(s)) && NumberOf(StripLeading(s)) == NumberOf(s)
  {
    hide NumberOf;
    if |s| >= 2 && s[0] == '0' {
      OneZero(s);
      LeadingZerosAddNothing(s[1..]);
    }
  }

  lemma ZeroTimes(a: int, b: int)
    requires a == 0
    ensures a * b == 0
  {
  }

  /** The form is canonical, and its digits are the old ones without the spare zeros. */
  lemma CanonicalDigitsOf(p: Spelled)
    requires WellSpelled(p)
    ensures var c := CanonicalSpelled(p);
      && Canonical(c) && |c.fraction| <= |p.fraction| && NumberOf(c.integer) == NumberOf(p.integer)
      && NumberOf(p.fraction) == NumberOf(c.fraction) * Pow10(|p.fraction| - |c.fraction|)
      && (p.negative != c.negative ==> p.negative && NumberOf(c.integer) == 0 && NumberOf(c.fraction) == 0)
  {
    hide NumberOf, Pow10;
    var c := CanonicalSpelled(p);
    LeadingZerosAddNothing(p.integer);
    StripZerosValue(p.fraction);
    if p.negative && !c.negative { NumberOfNothing(); }
  }

  /** Zeros dropped at the end scale the digits, and nothing else changes. */
  lemma CanonicalValue(p: Spelled)
    requires WellSpelled(p)
    ensures Canonical(CanonicalSpelled(p)) && SameValue(p, CanonicalSpelled(p))
  {
    hide CanonicalSpelled, Numerator, NumberOf, Pow10, Canonical;
    CanonicalDigitsOf(p);
    var c := CanonicalSpelled(p);
    var k := |p.fraction| - |c.fraction|;
    Pow10Add(|c.fraction|, k);
    NumeratorParts(p);
    NumeratorParts(c);
    SignedParts(Numerator(p), Numerator(c), NumberOf(c.integer), NumberOf(c.fraction), Pow10(|c.fraction|), Pow10(k),
                p.negative, c.negative);
  }

  lemma SignedParts(x: int, y: int, i: int, f: int, a: int, b: int, p: bool, c: bool)
    requires x == if p then -(i * (a * b) + f * b) else i * (a * b) + f * b
    requires y == if c then -(i * a + f) else i * a + f
    requires p != c ==> i == 0 && f == 0
    ensures x * a == y * (a * b)
  {
    if p != c { assert x == 0 && y == 0; } else { Rescale(i, f, a, b); }
  }

  /** The last digit of a canonical fraction is not zero, so its digits are no multiple of ten. */
  lemma NoSpareZero(q: Spelled)
    requires Canonical(q) && q.fraction != ""
    ensures Numerator(q) % 10 != 0
  {
    var s := q.integer + q.fraction;
    assert s[|s| - 1] == q.fraction[|q.fraction| - 1] != '0';
    assert NumberOf(s) == 10 * NumberOf(s[..|s| - 1]) + DigitValue(s[|s| - 1]);
    hide NumberOf;
  }

  lemma Cancel(a: int, b: int, k: int)
    requires k > 0 && a * k == b * k
    ensures a == b
  {
    if a < b { MulStrict(a, b, k); }
    if b < a { MulStrict(b, a, k); }
  }

  lemma ShorterCannotBe(p: Spelled, q: Spelled)
    requires Canonical(p) && Canonical(q) && SameValue(p, q)
    ensures |p.fraction| >= |q.fraction|
  {
    if |p.fraction| < |q.fraction| {
      var (a, k) := (Pow10(|p.fraction|), |q.fraction| - |p.fraction|);
      Pow10Add(|p.fraction|, k);
      var (x, y, t) := (Numerator(p), Numerator(q), Pow10(k));
      MulAssoc(x, t, a);
      assert Pow10(|q.fraction|) == t * a;
      Cancel(x * t, y, a);
      NoSpareZero(q);
      assert t == 10 * Pow10(k - 1);
      TimesTen(x, Pow10(k - 1));
    }
  }

  lemma TimesTen(x: int, t: int)
    ensures (x * (10 * t)) % 10 == 0
  {
    assert x * (10 * t) == 10 * (x * t);
  }

  lemma SignTold(p: Spelled)
    requires Canonical(p)
    ensures p.negative ==> Numerator(p) < 0
    ensures !p.negative ==> Numerator(p) >= 0
  {
    if p.negative {
      NumeratorParts(p);
      PlainUnique(p.integer);
      if p.fraction != "" {
        ZeroDigits(p.fraction);
        assert !AllZero(p.fraction);
      }
      DecimalNumber(NumberOf(p.integer));
      MulMonotone(0, NumberOf(p.integer), Pow10(|p.fraction|));
      if p.integer != "0" { PlainPositive(p.integer); MulPositive(NumberOf(p.integer), Pow10(|p.fraction|)); }
    }
  }

  lemma PlainPositive(s: string)
    requires Plain(s) && s != "0"
    ensures NumberOf(s) > 0
  {
    PlainUnique(s);
    assert Decimal(0) == "0";
  }

  lemma SameParts(i: int, f: int, j: int, g: int, t: int)
    requires 0 <= f < t && 0 <= g < t && i * t + f == j * t + g
    ensures i == j && f == g
  {
    DivisionUnique(i * t + f, t, i);
    DivisionUnique(i * t + f, t, j);
  }

  /** Two canonical spellings of one amount are the same spelling. */
  lemma CanonicalSame(p: Spelled, q: Spelled)
    requires Canonical(p) && Canonical(q) && SameValue(p, q)
    ensures p == q
  {
    ShorterCannotBe(p, q);
    ShorterCannotBe(q, p);
    hide NumberOf, Pow10, Numerator, Decimal;
    var t := Pow10(|p.fraction|);
    Cancel(Numerator(p), Numerator(q), t);
    SignTold(p);
    SignTold(q);
    NumeratorParts(p);
    NumeratorParts(q);
    NumberOfBound(p.fraction);
    NumberOfBound(q.fraction);
    SameParts(NumberOf(p.integer), NumberOf(p.fraction), NumberOf(q.integer), NumberOf(q.fraction), t);
    PlainUnique(p.integer);
    PlainUnique(q.integer);
    SameLengthUnique(p.fraction, q.fraction);
  }

  lemma ValueCarries(x: int, y: int, z: int, a: int, b: int, c: int)
    requires a > 0 && b > 0 && c > 0 && x * c == z * a && y * c == z * b
    ensures x * b == y * a
  {
    assert (x * b) * c == (x * c) * b == (z * a) * b == (z * b) * a == (y * c) * a == (y * a) * c;
    Cancel(x * b, y * a, c);
  }

  lemma SameThrough(p: Spelled, q: Spelled, c: Spelled)
    requires WellSpelled(p) && WellSpelled(q) && WellSpelled(c) && SameValue(p, c) && SameValue(q, c)
    ensures SameValue(p, q)
  {
    ValueCarries(Numerator(p), Numerator(q), Numerator(c), Pow10(|p.fraction|), Pow10(|q.fraction|), Pow10(|c.fraction|));
  }

  lemma SameMeets(p: Spelled, q: Spelled, c: Spelled, d: Spelled)
    requires WellSpelled(p) && WellSpelled(q) && WellSpelled(c) && WellSpelled(d)
    requires SameValue(p, c) && SameValue(q, d) && SameValue(p, q)
    ensures SameValue(c, d)
  {
    hide Numerator;
    assert SameValue(c, p) && SameValue(q, p) && SameValue(d, q);
    SameThrough(c, q, p);
    SameThrough(c, d, q);
  }

  /** Two decimal texts are the same amount, at any number of places, exactly when this makes them
      the same text. */
  lemma SameTextSameAmount(left: string, right: string)
    requires ReadDecimal(Trim(left)).Some? && ReadDecimal(Trim(right)).Some?
    ensures var (p, q) := (ReadDecimal(Trim(left)).value, ReadDecimal(Trim(right)).value);
      && WellSpelled(p) && WellSpelled(q)
      && (CanonicalDecimalText(left) == CanonicalDecimalText(right) <==> SameValue(p, q))
  {
    ReadingIsText(Trim(left));
    ReadingIsText(Trim(right));
    hide ReadDecimal, Trim, SameValue, CanonicalSpelled, Canonical, Text;
    var (p, q) := (ReadDecimal(Trim(left)).value, ReadDecimal(Trim(right)).value);
    var (c, d) := (CanonicalSpelled(p), CanonicalSpelled(q));
    CanonicalValue(p);
    CanonicalValue(q);
    TextReads(c);
    TextReads(d);
    if SameValue(p, q) {
      SameMeets(p, q, c, d);
      CanonicalSame(c, d);
    }
    if c == d { SameThrough(p, q, c); }
  }

  /** The two printers of scaled units write one text. */
  lemma PrintersAgree(units: int)
    ensures FromUnits(units) == MoneyFromUnits(units)
  {
    hide Decimal, PadStart, StripZeros, StripLeading, ReadDecimal, Text, Trim, CanonicalSpelled;
    var p := Printed(units);
    TrimText(p);
    TextReads(p);
    PrintedPlain(units, p);
  }

  /** What `FromUnits` writes before its text is made canonical. */
  lemma Printed(units: int) returns (p: Spelled)
    ensures WellSpelled(p) && FromUnits(units) == CanonicalDecimalText(Text(p))
    ensures p.negative == (units < 0) && p.integer == SpellUnits(units).integer
    ensures StripZeros(p.fraction) == SpellUnits(units).fraction
  {
    hide CanonicalDecimalText, Decimal;
    var digits := PadStart(Decimal(if units < 0 then -units else units), SCALE + 1);
    p := Spelled(units < 0, digits[..|digits| - SCALE], digits[|digits| - SCALE..]);
    assert "." + p.fraction == "." + digits[|digits| - SCALE..];
    var sign := if units < 0 then "-" else "";
    Concat3(sign + p.integer, ".", p.fraction);
    assert Text(p) == sign + p.integer + "." + p.fraction;
  }

  lemma PrintedPlain(units: int, p: Spelled)
    requires WellSpelled(p) && p.negative == (units < 0) && p.integer == SpellUnits(units).integer
    requires StripZeros(p.fraction) == SpellUnits(units).fraction
    ensures CanonicalSpelled(p) == SpellUnits(units)
  {
    hide Decimal, PadStart, StripZeros;
    SpellUnitsRight(units);
    assert SpellUnits(units).negative == (units < 0);
  }

  /** Adding is exact, and prints the one text of the sum. */
  lemma AddIsExact(left: string, right: string)
    requires MoneyUnits(left).Some? && MoneyUnits(right).Some?
    ensures AddDecimalText(left, right) == Some(MoneyFromUnits(MoneyUnits(left).value + MoneyUnits(right).value))
    ensures MoneyUnits(AddDecimalText(left, right).value) == Some(MoneyUnits(left).value + MoneyUnits(right).value)
  {
    hide MoneyUnits, MoneyFromUnits, FromUnits;
    PrintersAgree(MoneyUnits(left).value + MoneyUnits(right).value);
    PrintThenRead(MoneyUnits(left).value + MoneyUnits(right).value);
  }
}
