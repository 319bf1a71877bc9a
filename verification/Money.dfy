/**
 Money as text, exactly: decimal strings to integers of the ledger's eighteen places and back,
 their order, sums, extents and percentages.
 */
module Money {
  import opened Arithmetic
  import opened Options
  import opened Digits
  import opened Decimals

  const SCALE: nat := 18

  // ---------------------------------------------------------------- reading and printing

  /** White space and line terminators of ECMA-262, sections 12.2 and 12.3, which `trim` takes off. */
  predicate IsSpace(c: char) {
    || '\t' <= c <= '\r' || c == ' ' || c == '\U{00A0}' || c == '\U{FEFF}' || c == '\U{1680}'
    || '\U{2000}' <= c <= '\U{200A}' || '\U{2028}' <= c <= '\U{2029}' || c == '\U{202F}'
    || c == '\U{205F}' || c == '\U{3000}'
  }

  function TrimEnd(s: string): string {
    if s != "" && IsSpace(s[|s| - 1]) then TrimEnd(s[..|s| - 1]) else s
  }

  function Trim(s: string): string {
    if s != "" && IsSpace(s[0]) then Trim(s[1..]) else TrimEnd(s)
  }

  function UnitsOf(p: Spelled): int
    requires WellSpelled(p) && |p.fraction| <= SCALE
  {
    var n: int := NumberOf(p.integer + PadEnd(p.fraction, SCALE));
    if p.negative then -n else n
  }

  /** The captures `moneyUnits` matches: at most eighteen fraction digits. */
  function ReadMoney(value: string): (r: Option<Spelled>)
    ensures r.Some? ==> WellSpelled(r.value) && |r.value.fraction| <= SCALE && Trim(value) == Text(r.value)
  {
    var t := Trim(value);
    match ReadDecimal(t)
    case Some(p) =>
      ReadingIsText(t);
      if |p.fraction| <= SCALE then Some(p) else None
    case None => None
  }

  function MoneyUnits(value: string): Option<int> {
    match ReadMoney(value)
    case Some(p) => Some(UnitsOf(p))
    case None => None
  }

  function SpellUnits(units: int): (p: Spelled)
    ensures WellSpelled(p) && |p.fraction| <= SCALE
  {
    var digits := PadStart(Decimal(if units < 0 then -units else units), SCALE + 1);
    StripZerosValue(digits[|digits| - SCALE..]);
    Spelled(units < 0, digits[..|digits| - SCALE], StripZeros(digits[|digits| - SCALE..]))
  }

  function MoneyFromUnits(units: int): string {
    Text(SpellUnits(units))
  }

  /** One spelling per amount: no redundant zero at either end, no bare point, no negative zero. */
  predicate Canonical(p: Spelled) {
    && WellSpelled(p)
    && Plain(p.integer)
    && (p.fraction != "" ==> p.fraction[|p.fraction| - 1] != '0')
    && (p.negative ==> p.integer != "0" || p.fraction != "")
  }

  lemma TrimText(p: Spelled)
    requires WellSpelled(p)
    ensures Trim(Text(p)) == Text(p)
  {
    var s := Text(p);
    assert s[0] == (if p.negative then '-' else p.integer[0]);
    assert s[|s| - 1] == if p.fraction == "" then p.integer[|p.integer| - 1] else p.fraction[|p.fraction| - 1];
    hide Text;
    assert !IsSpace(s[0]) && !IsSpace(s[|s| - 1]);
  }

  predicate AllSpace(s: string) {
    forall i :: 0 <= i < |s| ==> IsSpace(s[i])
  }

  lemma {:induction false} TrimEndIs(s: string) returns (after: string)
    ensures s == TrimEnd(s) + after && AllSpace(after)
    ensures TrimEnd(s) != "" ==> !IsSpace(TrimEnd(s)[|TrimEnd(s)| - 1])
  {
    if s != "" && IsSpace(s[|s| - 1]) {
      after := TrimEndIs(s[..|s| - 1]);
      after := after + [s[|s| - 1]];
      assert s == s[..|s| - 1] + [s[|s| - 1]];
    } else {
      after := "";
    }
  }

  /** Trimming takes the spaces at both ends off and nothing else. */
  lemma {:induction false} TrimIs(s: string) returns (before: string, after: string)
    ensures s == before + Trim(s) + after && AllSpace(before) && AllSpace(after)
    ensures Trim(s) != "" ==> !IsSpace(Trim(s)[0]) && !IsSpace(Trim(s)[|Trim(s)| - 1])
  {
    if s != "" && IsSpace(s[0]) {
      before, after := TrimIs(s[1..]);
      before := [s[0]] + before;
      assert s == [s[0]] + s[1..];
    } else {
      before := "";
      after := TrimEndIs(s);
      assert s == "" + Trim(s) + after;
      assert Trim(s) != "" ==> Trim(s)[0] == s[0];
    }
  }

  lemma {:induction false} TrimAround(before: string, s: string, after: string)
    requires AllSpace(before) && AllSpace(after) && s != "" && !IsSpace(s[0]) && !IsSpace(s[|s| - 1])
    ensures Trim(before + s + after) == s
  {
    var all := before + s + after;
    if before == "" {
      assert all == s + after;
      TrimEndAround(s, after);
    } else {
      assert all[0] == before[0] && all[1..] == before[1..] + s + after;
      TrimAround(before[1..], s, after);
    }
  }

  lemma {:induction false} TrimEndAround(s: string, after: string)
    requires AllSpace(after) && s != "" && !IsSpace(s[|s| - 1])
    ensures TrimEnd(s + after) == s
  {
    if after == "" {
      assert s + after == s;
    } else {
      assert (s + after)[|s + after| - 1] == after[|after| - 1] && (s + after)[..|s + after| - 1] == s + after[..|after| - 1];
      TrimEndAround(s, after[..|after| - 1]);
    }
  }

  /** Money is read of exactly the texts that are a spelling of at most eighteen places with spaces about it. */
  lemma SpacedReads(before: string, p: Spelled, after: string)
    requires AllSpace(before) && AllSpace(after) && WellSpelled(p)
    ensures MoneyUnits(before + Text(p) + after) == if |p.fraction| <= SCALE then Some(UnitsOf(p)) else None
  {
    hide Text, ReadDecimal, UnitsOf, Trim, IsSpace, AllSpace, WellSpelled;
    var s := Text(p);
    TextReads(p);
    TextEnds(p);
    TrimAround(before, s, after);
    ReadTrimmed(before + s + after, p);
  }

  lemma ReadTrimmed(value: string, p: Spelled)
    requires WellSpelled(p) && ReadDecimal(Trim(value)) == Some(p)
    ensures MoneyUnits(value) == if |p.fraction| <= SCALE then Some(UnitsOf(p)) else None
  {
    hide Trim, ReadDecimal, UnitsOf;
  }

  lemma TextEnds(p: Spelled)
    requires WellSpelled(p)
    ensures var s := Text(p); s != "" && !IsSpace(s[0]) && !IsSpace(s[|s| - 1])
  {
    var s := Text(p);
    assert s[0] == (if p.negative then '-' else p.integer[0]);
    assert s[|s| - 1] == if p.fraction == "" then p.integer[|p.integer| - 1] else p.fraction[|p.fraction| - 1];
  }

  lemma ReadIsSpaced(s: string) returns (before: string, p: Spelled, after: string)
    requires MoneyUnits(s).Some?
    ensures AllSpace(before) && AllSpace(after) && WellSpelled(p) && |p.fraction| <= SCALE
    ensures s == before + Text(p) + after && MoneyUnits(s) == Some(UnitsOf(p))
  {
    before, after := TrimIs(s);
    p := ReadMoney(s).value;
    hide Trim, UnitsOf, Text;
  }

  /** The text of any spelling of at most eighteen places reads as that spelling. */
  lemma SpelledUnits(p: Spelled)
    requires WellSpelled(p) && |p.fraction| <= SCALE
    ensures ReadMoney(Text(p)) == Some(p) && MoneyUnits(Text(p)) == Some(UnitsOf(p))
  {
    TrimText(p);
    TextReads(p);
  }

  /** The units of a spelling, sign aside, from its two runs of digits. */
  lemma UnitsParts(p: Spelled)
    requires WellSpelled(p) && |p.fraction| <= SCALE
    ensures var n: int := NumberOf(p.integer) * Pow10(SCALE) + NumberOf(p.fraction) * Pow10(SCALE - |p.fraction|);
            UnitsOf(p) == if p.negative then -n else n
  {
    hide NumberOf, Pow10, PadEnd;
    NumberOfAppend(p.integer, PadEnd(p.fraction, SCALE));
    NumberOfPadEnd(p.fraction, SCALE);
  }

  /** Units are the value scaled by ten to the eighteenth, whatever the number of places written. */
  lemma UnitsExact(p: Spelled)
    requires WellSpelled(p) && |p.fraction| <= SCALE
    ensures UnitsOf(p) * Pow10(|p.fraction|) == Numerator(p) * Pow10(SCALE)
  {
    hide NumberOf, Pow10, UnitsOf, Numerator;
    UnitsParts(p);
    NumeratorParts(p);
    Pow10Add(|p.fraction|, SCALE - |p.fraction|);
    Rescale(NumberOf(p.integer), NumberOf(p.fraction), Pow10(|p.fraction|), Pow10(SCALE - |p.fraction|));
  }

  lemma PadStripped(f: string, width: nat)
    requires AllDigits(f) && |f| <= width
    ensures AllDigits(StripZeros(f)) && PadEnd(StripZeros(f), width) == PadEnd(f, width)
  {
    StripZerosShape(f);
    StripZerosValue(f);
    hide *;
    PadLonger(StripZeros(f), f, width);
  }

  lemma PadLonger(r: string, f: string, width: nat)
    requires |r| <= |f| <= width && f == r + Zeros(|f| - |r|)
    ensures PadEnd(r, width) == PadEnd(f, width)
  {
    hide PadEnd, Zeros;
    ZerosAppend(|f| - |r|, width - |f|);
    PadEndIs(f, width);
    PadEndIs(r, width);
    Restrung(r, f, Zeros(|f| - |r|), Zeros(width - |f|), Zeros(width - |r|));
  }

  lemma Restrung(r: string, f: string, x: string, y: string, z: string)
    requires f == r + x && x + y == z
    ensures r + z == f + y
  {
  }

  lemma PadEndIs(f: string, width: nat)
    requires |f| <= width
    ensures PadEnd(f, width) == f + Zeros(width - |f|)
  {
  }

  lemma StripPadded(f: string, width: nat)
    requires AllDigits(f) && |f| <= width && (f != "" ==> f[|f| - 1] != '0')
    ensures StripZeros(PadEnd(f, width)) == f
  {
    StripAppended(f, width - |f|);
  }

  lemma {:induction false} StripAppended(f: string, n: nat)
    requires f != "" ==> f[|f| - 1] != '0'
    ensures StripZeros(f + Zeros(n)) == f
  {
    var s := f + Zeros(n);
    if n == 0 {
      assert s == f;
    } else {
      assert s[..|s| - 1] == f + Zeros(n - 1);
      StripAppended(f, n - 1);
    }
  }

  lemma SpellDigits(units: int)
    ensures var p, digits := SpellUnits(units), PadStart(Decimal(if units < 0 then -units else units), SCALE + 1);
            p.integer + PadEnd(p.fraction, SCALE) == digits
  {
    var digits := PadStart(Decimal(if units < 0 then -units else units), SCALE + 1);
    var low := digits[|digits| - SCALE..];
    PadStripped(low, SCALE);
    hide PadStart, Decimal, StripZeros;
    assert PadEnd(low, SCALE) == low;
    assert digits == digits[..|digits| - SCALE] + low;
  }

  lemma SpellUnitsValue(units: int)
    ensures UnitsOf(SpellUnits(units)) == units
  {
    var n: nat := if units < 0 then -units else units;
    SpellDigits(units);
    NumberOfPadStart(Decimal(n), SCALE + 1);
    DecimalNumber(n);
    hide PadEnd, PadStart, Decimal, NumberOf, StripZeros;
  }

  lemma SpellUnitsPlain(units: int)
    ensures Plain(SpellUnits(units).integer)
  {
    var n: nat := if units < 0 then -units else units;
    var p := SpellUnits(units);
    DecimalPlain(n);
    hide Decimal, StripZeros, NumberOf;
    assert |p.integer| > 1 ==> p.integer[0] == Decimal(n)[0];
  }

  lemma SpellUnitsRight(units: int)
    ensures UnitsOf(SpellUnits(units)) == units && Canonical(SpellUnits(units))
  {
    var p := SpellUnits(units);
    SpellUnitsValue(units);
    SpellUnitsPlain(units);
    NonzeroSpelled(p);
    assert p.fraction != "" ==> p.fraction[|p.fraction| - 1] != '0';
    assert p.negative <==> units < 0;
    hide SpellUnits, UnitsOf;
  }

  /** Sign aside, a spelling is worth nothing only if both runs of digits are. */
  lemma NonzeroSpelled(p: Spelled)
    requires WellSpelled(p) && |p.fraction| <= SCALE
    ensures UnitsOf(p) != 0 ==> p.integer != "0" || p.fraction != ""
  {
    hide UnitsOf, Pow10, NumberOf;
    UnitsParts(p);
    NumberOfNothing();
  }

  /** Printing then reading is the identity, on every integer. */
  lemma PrintThenRead(units: int)
    ensures MoneyUnits(MoneyFromUnits(units)) == Some(units)
  {
    SpellUnitsRight(units);
    SpelledUnits(SpellUnits(units));
  }

  lemma CanonicalDigits(p: Spelled)
    requires Canonical(p) && |p.fraction| <= SCALE
    ensures PadStart(Decimal(NumberOf(p.integer + PadEnd(p.fraction, SCALE))), SCALE + 1) == p.integer + PadEnd(p.fraction, SCALE)
  {
    hide NumberOf, Decimal, Pow10;
    var t := p.integer + PadEnd(p.fraction, SCALE);
    var n := NumberOf(t);
    if |t| > SCALE + 1 {
      assert t[0] == p.integer[0];
      PlainUnique(t);
    } else {
      var d := PadStart(Decimal(n), SCALE + 1);
      NumberOfBound(t);
      DecimalShort(n, SCALE + 1);
      NumberOfPadStart(Decimal(n), SCALE + 1);
      DecimalNumber(n);
      SameLengthUnique(d, t);
    }
  }

  lemma DecimalShort(n: nat, width: nat)
    requires width > 0 && n < Pow10(width)
    ensures |Decimal(n)| <= width
  {
    if n > 0 && |Decimal(n)| > width {
      DecimalLength(n);
      hide Pow10, Decimal;
      var k := |Decimal(n)| - 1 - width;
      Pow10Add(width, k);
      MulMonotone(1, Pow10(k), Pow10(width));
    }
  }

  /** Two canonical spellings of one amount are the same text: the printer's. */
  lemma CanonicalUnique(p: Spelled)
    requires Canonical(p) && |p.fraction| <= SCALE
    ensures Text(p) == MoneyFromUnits(UnitsOf(p))
  {
    hide PadEnd, PadStart, StripZeros, NumberOf, Decimal, Text;
    var f := PadEnd(p.fraction, SCALE);
    var t := p.integer + f;
    CanonicalDigits(p);
    StripPadded(p.fraction, SCALE);
    assert t[|t| - SCALE..] == f && t[..|t| - SCALE] == p.integer;
    if p.negative {
      CanonicalPositive(p);
    }
    assert SpellUnits(UnitsOf(p)) == p;
  }

  lemma CanonicalPositive(p: Spelled)
    requires Canonical(p) && |p.fraction| <= SCALE && p.negative
    ensures NumberOf(p.integer + PadEnd(p.fraction, SCALE)) > 0
  {
    ZeroUnits(p);
    assert p.integer[0] != '0' || p.integer == "0";
    hide NumberOf, PadEnd;
    assert UnitsOf(p) != 0;
  }

  // ---------------------------------------------------------------- order and sign

  function CompareMoney(left: string, right: string): int {
    match (MoneyUnits(left), MoneyUnits(right))
    case (Some(a), Some(b)) => if a == b then 0 else if a < b then -1 else 1
    case (None, None) => 0
    case (None, _) => 1
    case (_, None) => -1
  }

  /** A total preorder that is the order of the values, with everything unreadable last and tied. */
  lemma CompareIsOrder(a: string, b: string, c: string)
    ensures CompareMoney(a, b) == -CompareMoney(b, a)
    ensures CompareMoney(a, b) <= 0 && CompareMoney(b, c) <= 0 ==> CompareMoney(a, c) <= 0
    ensures CompareMoney(a, b) == 0 && CompareMoney(b, c) == 0 ==> CompareMoney(a, c) == 0
    ensures MoneyUnits(a).Some? && MoneyUnits(b).None? ==> CompareMoney(a, b) < 0
  {
  }

  /** The order of two spellings is the order of the numbers they spell, at any number of places. */
  lemma CompareIsValue(p: Spelled, q: Spelled)
    requires WellSpelled(p) && WellSpelled(q) && |p.fraction| <= SCALE && |q.fraction| <= SCALE
    ensures CompareMoney(Text(p), Text(q)) < 0 <==> Numerator(p) * Pow10(|q.fraction|) < Numerator(q) * Pow10(|p.fraction|)
    ensures CompareMoney(Text(p), Text(q)) == 0 <==> SameValue(p, q)
  {
    SpelledUnits(p);
    SpelledUnits(q);
    UnitsExact(p);
    UnitsExact(q);
    hide UnitsOf, Numerator, Pow10, Text, MoneyUnits;
    ScaledOrder(UnitsOf(p), UnitsOf(q), Pow10(|p.fraction|), Pow10(|q.fraction|), Numerator(p), Numerator(q), Pow10(SCALE));
  }

  lemma ScaledOrder(u: int, v: int, a: int, b: int, n: int, m: int, s: int)
    requires a > 0 && b > 0 && s > 0 && u * a == n * s && v * b == m * s
    ensures (u < v <==> n * b < m * a) && (u == v <==> n * b == m * a)
  {
    assert u * (a * b) == n * s * b == (n * b) * s;
    assert v * (a * b) == m * s * a == (m * a) * s;
    assert (u - v) * (a * b) == u * (a * b) - v * (a * b) == (n * b - m * a) * s;
    MulPositive(a, b);
    SameSign(u - v, a * b, n * b - m * a, s);
  }

  /** `/^0(?:\.0+)?$/.test(s)`. */
  predicate PlainZero(s: string) {
    s == "0" || (|s| >= 3 && s[0] == '0' && s[1] == '.' && AllZero(s[2..]))
  }

  predicate IsNegativeMoney(amount: string) {
    amount != "" && amount[0] == '-' && !PlainZero(amount[1..])
  }

  predicate IsPositiveMoney(amount: string) {
    (amount == "" || amount[0] != '-') && !PlainZero(amount)
  }

  predicate IsZeroMoney(amount: Option<string>) {
    amount.Some? && CompareMoney(amount.value, "0") == 0
  }

  predicate AllZero(s: string) {
    forall i :: 0 <= i < |s| ==> s[i] == '0'
  }

  /** A numeral is zero exactly when every digit is. */
  lemma {:induction false} ZeroDigits(s: string)
    requires AllDigits(s)
    ensures NumberOf(s) == 0 <==> AllZero(s)
  {
    if s != "" {
      ZeroDigits(s[..|s| - 1]);
      assert s == s[..|s| - 1] + [s[|s| - 1]];
    }
  }

  lemma ZeroUnits(p: Spelled)
    requires WellSpelled(p) && |p.fraction| <= SCALE
    ensures UnitsOf(p) == 0 <==> AllZero(p.integer) && AllZero(p.fraction)
  {
    hide NumberOf, Pow10, UnitsOf;
    UnitsParts(p);
    ZeroDigits(p.integer);
    ZeroDigits(p.fraction);
    var i, f, a, b := NumberOf(p.integer), NumberOf(p.fraction), Pow10(SCALE), Pow10(SCALE - |p.fraction|);
    if i > 0 { MulPositive(i, a); }
    if f > 0 { MulPositive(f, b); }
  }

  lemma PlainZeroText(p: Spelled)
    requires WellSpelled(p) && |p.fraction| <= SCALE && !p.negative
    ensures PlainZero(Text(p)) <==> UnitsOf(p) == 0 && |p.integer| == 1
  {
    ZeroUnits(p);
    hide UnitsOf;
    var s := Text(p);
    if |p.integer| == 1 {
      assert p.fraction != "" ==> s[2..] == p.fraction;
      assert s == "0" ==> p.integer == "0";
      assert AllZero(p.integer) ==> p.integer == "0";
    } else {
      assert s[1] == p.integer[1];
    }
  }

  /** The bounded pattern the money fields accept: no redundant leading zero, at most eighteen places. */
  predicate FormSpelled(p: Spelled) {
    WellSpelled(p) && Plain(p.integer) && |p.integer| <= 26 && |p.fraction| <= SCALE
  }

  /** On everything the form pattern accepts, the spelled sign tests are arithmetic. */
  lemma SignTestsOnForm(p: Spelled)
    requires FormSpelled(p)
    ensures IsNegativeMoney(Text(p)) <==> MoneyUnits(Text(p)).Some? && MoneyUnits(Text(p)).value < 0
    ensures IsPositiveMoney(Text(p)) <==> MoneyUnits(Text(p)).Some? && MoneyUnits(Text(p)).value > 0
  {
    SpelledUnits(p);
    TrimText(p);
    SignTestsExact(Text(p));
    ZeroUnits(p);
    if UnitsOf(p) == 0 && |p.integer| > 1 {
      assert p.integer[0] == '0';
    }
  }

  /**
   On every readable string, when the spelled tests agree with arithmetic. They fail on a redundant
   leading zero ("-00" counts as negative, "00" as positive) and on surrounding space.
   */
  lemma SignTestsExact(amount: string)
    requires MoneyUnits(amount).Some?
    ensures var u, whole := MoneyUnits(amount).value, |ReadMoney(amount).value.integer| == 1 && Trim(amount) == amount;
            && ((IsNegativeMoney(amount) <==> u < 0) <==> if u < 0 then amount[0] == '-' else amount[0] == '-' ==> whole)
            && ((IsPositiveMoney(amount) <==> u > 0) <==> amount[0] == '-' || u > 0 || (u == 0 && whole))
  {
    if Trim(amount) == amount {
      TrimmedShape(amount);
    } else {
      SpacedShape(amount);
    }
    UnitsSign(ReadMoney(amount).value);
    hide Trim, ReadMoney, UnitsOf, PlainZero;
  }

  lemma UnitsSign(p: Spelled)
    requires WellSpelled(p) && |p.fraction| <= SCALE
    ensures UnitsOf(p) < 0 ==> p.negative
    ensures UnitsOf(p) > 0 ==> !p.negative
  {
  }

  lemma TrimmedShape(amount: string)
    requires ReadMoney(amount).Some? && Trim(amount) == amount
    ensures var p := ReadMoney(amount).value;
            && (amount[0] == '-' <==> p.negative)
            && (PlainZero(if p.negative then amount[1..] else amount) <==> UnitsOf(p) == 0 && |p.integer| == 1)
  {
    var p := ReadMoney(amount).value;
    var plain := p.(negative := false);
    PlainZeroText(plain);
    assert UnitsOf(p) == 0 <==> UnitsOf(plain) == 0;
    assert amount == Text(p);
    TextShape(p);
    hide *;
  }

  lemma TextShape(p: Spelled)
    requires WellSpelled(p)
    ensures Text(p) != "" && (Text(p)[0] == '-' <==> p.negative)
    ensures (if p.negative then Text(p)[1..] else Text(p)) == Text(p.(negative := false))
  {
    assert Text(p)[0] == if p.negative then '-' else p.integer[0];
  }

  lemma SpacedShape(amount: string)
    requires ReadMoney(amount).Some? && Trim(amount) != amount
    ensures amount != "" && (amount[0] == '-' ==> ReadMoney(amount).value.negative)
    ensures !PlainZero(amount) && (amount[0] == '-' ==> !PlainZero(amount[1..]))
  {
    var p := ReadMoney(amount).value;
    TrimShape(amount);
    NotPlainZero(amount);
    assert Trim(amount) == Text(p);
    TextShape(p);
    hide Trim, PlainZero, Text;
  }

  /** Trimming takes only spaces off, from the two ends. */
  lemma {:induction false} TrimShape(s: string)
    ensures Trim(s) == s || (s != "" && (IsSpace(s[0]) || IsSpace(s[|s| - 1])))
    ensures s != "" && !IsSpace(s[0]) && Trim(s) != "" ==> Trim(s)[0] == s[0]
  {
    if s != "" && !IsSpace(s[0]) {
      TrimEndShape(s);
    }
  }

  lemma {:induction false} TrimEndShape(s: string)
    ensures TrimEnd(s) <= s
  {
    if s != "" && IsSpace(s[|s| - 1]) {
      TrimEndShape(s[..|s| - 1]);
    }
  }

  lemma NotPlainZero(s: string)
    requires s != "" && (IsSpace(s[0]) || IsSpace(s[|s| - 1]))
    ensures !PlainZero(s) && (s[0] == '-' ==> !PlainZero(s[1..]))
  {
    assert |s| > 1 ==> s[|s| - 1] == s[1..][|s| - 2];
  }

  // ---------------------------------------------------------------- sums

  predicate Readable(amounts: seq<string>) {
    forall i :: 0 <= i < |amounts| ==> MoneyUnits(amounts[i]).Some?
  }

  function UnitsOrZero(amount: string): int {
    match MoneyUnits(amount)
    case Some(u) => u
    case None => 0
  }

  /** What readable amounts come to. */
  function Total(amounts: seq<string>): int {
    if amounts == [] then 0 else Total(amounts[..|amounts| - 1]) + UnitsOrZero(amounts[|amounts| - 1])
  }

  lemma {:induction false} TotalAppend(a: seq<string>, b: seq<string>)
    ensures Total(a + b) == Total(a) + Total(b)
  {
    if b == [] {
      assert a + b == a;
    } else {
      hide UnitsOrZero;
      TotalAppend(a, b[..|b| - 1]);
      assert (a + b)[..|a + b| - 1] == a + b[..|b| - 1];
    }
  }

  lemma TotalWithout(amounts: seq<string>, i: nat)
    requires i < |amounts|
    ensures Total(amounts) == Total(amounts[..i] + amounts[i + 1..]) + UnitsOrZero(amounts[i])
  {
    hide UnitsOrZero, Total;
    var a, m, b := amounts[..i], amounts[i], amounts[i + 1..];
    TotalAround(a, m, b);
    assert amounts == a + ([m] + b);
  }

  lemma TotalAround(a: seq<string>, m: string, b: seq<string>)
    ensures Total(a + ([m] + b)) == Total(a + b) + UnitsOrZero(m)
  {
    hide *;
    TotalOne(m);
    TotalAppend(a, [m] + b);
    TotalAppend([m], b);
    TotalAppend(a, b);
  }

  lemma TotalOne(amount: string)
    ensures Total([amount]) == UnitsOrZero(amount)
  {
    hide UnitsOrZero;
    assert [amount][..0] == [];
  }

  /** Order does not matter: amounts that are the same bag come to the same total. */
  lemma {:induction false} TotalOrderFree(a: seq<string>, b: seq<string>)
    requires multiset(a) == multiset(b)
    ensures Total(a) == Total(b)
    decreases |a|
  {
    hide UnitsOrZero;
    if a == [] {
      assert |b| == |multiset(b)| == |multiset(a)| == 0;
    } else {
      var last := |a| - 1;
      var i := SameBag(a, b);
      TotalWithout(b, i);
      TotalOrderFree(a[..last], b[..i] + b[i + 1..]);
    }
  }

  /** Two equal bags: where the last of one is in the other, and what taking it out leaves. */
  lemma SameBag(a: seq<string>, b: seq<string>) returns (i: nat)
    requires a != [] && multiset(a) == multiset(b)
    ensures i < |b| && b[i] == a[|a| - 1]
    ensures multiset(a[..|a| - 1]) == multiset(b[..i] + b[i + 1..])
  {
    var last := |a| - 1;
    assert a == a[..last] + [a[last]];
    assert a[last] in multiset(b);
    i :| 0 <= i < |b| && b[i] == a[last];
    var rest := b[..i] + b[i + 1..];
    assert b == b[..i] + ([b[i]] + b[i + 1..]);
    assert multiset(b) == multiset(rest) + multiset{b[i]};
    assert multiset(a) == multiset(a[..last]) + multiset{a[last]};
    assert multiset(rest) == multiset(b) - multiset{a[last]};
    assert multiset(a[..last]) == multiset(a) - multiset{a[last]};
  }

  method MoneyRemainder(total: string, shares: seq<string>) returns (r: Option<string>)
    ensures r.Some? <==> MoneyUnits(total).Some? && Readable(shares)
    ensures r.Some? ==> r.value == MoneyFromUnits(MoneyUnits(total).value - Total(shares))
  {
    hide MoneyUnits, MoneyFromUnits;
    var totalUnits := MoneyUnits(total);
    if totalUnits.None? { return None; }
    var remaining := totalUnits.value;
    for i := 0 to |shares|
      invariant Readable(shares[..i])
      invariant remaining == totalUnits.value - Total(shares[..i])
    {
      var units := MoneyUnits(shares[i]);
      assert shares[..i + 1][..i] == shares[..i];
      if units.None? { return None; }
      remaining := remaining - units.value;
    }
    assert shares[..|shares|] == shares;
    return Some(MoneyFromUnits(remaining));
  }

  /** What the remainder line shows, as `MoneyRemainder` computes it. */
  function Remainder(total: string, shares: seq<string>): Option<string> {
    if MoneyUnits(total).Some? && Readable(shares)
    then Some(MoneyFromUnits(MoneyUnits(total).value - Total(shares)))
    else None
  }

  /** The remainder and the shares, in whatever order, add back to the total exactly. */
  lemma RemainderConserves(total: string, shares: seq<string>, reordered: seq<string>)
    requires Remainder(total, shares).Some? && multiset(shares) == multiset(reordered)
    ensures MoneyUnits(Remainder(total, shares).value).Some?
    ensures MoneyUnits(Remainder(total, shares).value).value + Total(reordered) == MoneyUnits(total).value
    ensures IsZeroMoney(Remainder(total, shares)) <==> Total(shares) == MoneyUnits(total).value
  {
    hide MoneyUnits, MoneyFromUnits, Total;
    PrintThenRead(MoneyUnits(total).value - Total(shares));
    TotalOrderFree(shares, reordered);
    ZeroReads();
  }

  /** Zero is worked out, not spelled: any text that reads as nothing is zero, and what cannot be read is not. */
  lemma ZeroIsWorkedOut(amount: Option<string>)
    ensures IsZeroMoney(amount) <==> amount.Some? && MoneyUnits(amount.value) == Some(0)
  {
    hide MoneyUnits;
    ZeroReads();
  }

  lemma ZeroReads()
    ensures MoneyUnits("0") == Some(0) && MoneyFromUnits(0) == "0"
  {
    var zero := Spelled(false, "0", "");
    assert Text(zero) == "0" && Canonical(zero) && AllZero(zero.integer) && AllZero(zero.fraction);
    hide MoneyUnits, MoneyFromUnits, UnitsOf, Text, AllZero, Canonical;
    SpelledUnits(zero);
    ZeroUnits(zero);
    CanonicalUnique(zero);
  }

  method SumMoney(amounts: seq<string>) returns (r: string)
    ensures Readable(amounts) ==> r == MoneyFromUnits(Total(amounts)) && MoneyUnits(r) == Some(Total(amounts))
    ensures !Readable(amounts) ==> r == amounts[0]
  {
    hide MoneyUnits, MoneyFromUnits;
    var total := 0;
    for i := 0 to |amounts|
      invariant Readable(amounts[..i]) && total == Total(amounts[..i])
    {
      var units := MoneyUnits(amounts[i]);
      assert amounts[..i + 1][..i] == amounts[..i];
      if units.None? { return amounts[0]; }
      total := total + units.value;
    }
    assert amounts[..|amounts|] == amounts;
    PrintThenRead(total);
    return MoneyFromUnits(total);
  }

  /** `best` is the units of a readable amount of the list, and none is on the far side of it. */
  ghost predicate IsExtreme(amounts: seq<string>, best: int, up: bool) {
    && (exists i :: 0 <= i < |amounts| && MoneyUnits(amounts[i]) == Some(best))
    && (forall i :: 0 <= i < |amounts| && MoneyUnits(amounts[i]).Some? ==>
          if up then MoneyUnits(amounts[i]).value <= best else best <= MoneyUnits(amounts[i]).value)
  }

  method MoneyExtent(amounts: seq<string>) returns (r: Option<(string, string)>)
    ensures r.None? <==> forall i :: 0 <= i < |amounts| ==> MoneyUnits(amounts[i]).None?
    ensures r.Some? ==> exists low, high ::
              && IsExtreme(amounts, low, false) && IsExtreme(amounts, high, true)
              && r.value == (MoneyFromUnits(low), MoneyFromUnits(high))
  {
    hide MoneyUnits, MoneyFromUnits;
    var low: Option<int>, high: Option<int> := None, None;
    for i := 0 to |amounts|
      invariant low.Some? <==> high.Some?
      invariant low.None? ==> forall k :: 0 <= k < i ==> MoneyUnits(amounts[k]).None?
      invariant low.Some? ==> IsExtreme(amounts[..i], low.value, false) && IsExtreme(amounts[..i], high.value, true)
    {
      var units := MoneyUnits(amounts[i]);
      ghost var before := amounts[..i];
      assert amounts[..i + 1] == before + [amounts[i]];
      if units.Some? {
        assert amounts[..i + 1][i] == amounts[i];
        if low.None? || units.value < low.value { low := units; }
        if high.None? || units.value > high.value { high := units; }
        ExtremeExtend(before, amounts[i], low.value, false);
        ExtremeExtend(before, amounts[i], high.value, true);
      } else if low.Some? {
        ExtremeExtend(before, amounts[i], low.value, false);
        ExtremeExtend(before, amounts[i], high.value, true);
      }
    }
    assert amounts[..|amounts|] == amounts;
    if low.None? { return None; }
    return Some((MoneyFromUnits(low.value), MoneyFromUnits(high.value)));
  }

  lemma ExtremeExtend(before: seq<string>, next: string, best: int, up: bool)
    requires IsExtreme(before, best, up) || MoneyUnits(next) == Some(best)
    requires forall i :: 0 <= i < |before| && MoneyUnits(before[i]).Some? ==>
               if up then MoneyUnits(before[i]).value <= best else best <= MoneyUnits(before[i]).value
    requires MoneyUnits(next).Some? ==> if up then MoneyUnits(next).value <= best else best <= MoneyUnits(next).value
    ensures IsExtreme(before + [next], best, up)
  {
    var all := before + [next];
    if IsExtreme(before, best, up) {
      var i :| 0 <= i < |before| && MoneyUnits(before[i]) == Some(best);
      assert all[i] == before[i];
    } else {
      assert all[|before|] == next;
    }
  }

  // ---------------------------------------------------------------- percentages

  function PercentSpelled(hundredths: nat): (p: Spelled)
    ensures WellSpelled(p) && |p.fraction| <= 2
  {
    var two := PadStart(Decimal(hundredths % 100), 2);
    StripZerosValue(two);
    DecimalShort(hundredths % 100, 2);
    Spelled(false, Decimal(hundredths / 100), StripZeros(two))
  }

  function PercentText(hundredths: nat): string {
    Text(PercentSpelled(hundredths))
  }

  function Clamp(value: int, low: int, high: int): int {
    if value < low then low else if value > high then high else value
  }

  function Hundredths(value: int, low: int, high: int): (h: nat)
    requires low < high
    ensures h <= 10_000
    ensures h * (high - low) <= (Clamp(value, low, high) - low) * 10_000 < (h + 1) * (high - low)
  {
    var span, above := high - low, Clamp(value, low, high) - low;
    assert 0 <= above * 10_000 <= span * 10_000;
    var h := above * 10_000 / span;
    DivisionBounds(above * 10_000, span);
    assert h <= 10_000 by { if h > 10_000 { MulStrict(10_000, h, span); } }
    h
  }

  function MoneyScalePercent(amount: string, low: string, high: string): string {
    match (MoneyUnits(amount), MoneyUnits(low), MoneyUnits(high))
    case (Some(value), Some(bottom), Some(top)) =>
      if top - bottom <= 0 then "50" else PercentText(Hundredths(value, bottom, top))
    case _ => "0"
  }

  /** A percentage reads back as its hundredths, exactly. */
  lemma PercentReads(hundredths: nat)
    ensures MoneyUnits(PercentText(hundredths)) == Some(hundredths * Pow10(SCALE - 2))
  {
    hide NumberOf, Pow10, UnitsOf, MoneyUnits, ReadMoney, PercentSpelled, PercentText;
    SpelledUnits(PercentSpelled(hundredths));
    PercentUnits(hundredths);
    HundredSplit(hundredths, Pow10(SCALE - 2));
  }

  lemma PercentUnits(hundredths: nat)
    ensures PercentText(hundredths) == Text(PercentSpelled(hundredths))
    ensures UnitsOf(PercentSpelled(hundredths)) == (hundredths / 100) * (100 * Pow10(SCALE - 2)) + (hundredths % 100) * Pow10(SCALE - 2)
  {
    var two := PadStart(Decimal(hundredths % 100), 2);
    DecimalShort(hundredths % 100, 2);
    PadStripped(two, SCALE);
    NumberOfPadEnd(two, SCALE);
    NumberOfPadStart(Decimal(hundredths % 100), 2);
    DecimalNumber(hundredths / 100);
    DecimalNumber(hundredths % 100);
    hide StripZeros, NumberOf, Decimal, PadEnd, PadStart;
    NumberOfAppend(Decimal(hundredths / 100), PadEnd(two, SCALE));
    assert Pow10(SCALE) == 100 * Pow10(SCALE - 2);
  }

  /**
   The percent of a figure between two bounds: in 0..100, within a hundredth below the true ratio,
   0 at or below the low bound and 100 at or above the high one.
   */
  lemma ScalePercentExact(amount: string, low: string, high: string)
    requires MoneyUnits(amount).Some? && MoneyUnits(low).Some? && MoneyUnits(high).Some?
    requires MoneyUnits(low).value < MoneyUnits(high).value
    ensures var (v, lo, hi) := (MoneyUnits(amount).value, MoneyUnits(low).value, MoneyUnits(high).value);
            exists h: nat {:trigger PercentText(h)} :: h <= 10_000
              && MoneyScalePercent(amount, low, high) == PercentText(h)
              && MoneyUnits(MoneyScalePercent(amount, low, high)) == Some(h * Pow10(SCALE - 2))
              && h * (hi - lo) <= (Clamp(v, lo, hi) - lo) * 10_000 < (h + 1) * (hi - lo)
              && (v <= lo ==> h == 0) && (v >= hi ==> h == 10_000)
  {
    hide MoneyUnits, Hundredths, PercentText, Pow10;
    var v, lo, hi := MoneyUnits(amount).value, MoneyUnits(low).value, MoneyUnits(high).value;
    var h := Hundredths(v, lo, hi);
    PercentReads(h);
    if v <= lo && h > 0 { MulPositive(h, hi - lo); }
    if v >= hi && h < 10_000 { MulMonotone(h + 1, 10_000, hi - lo); }
  }

  /** What cannot be placed is put at the bottom, and anything between equal bounds in the middle. */
  lemma ScalePercentElse(amount: string, low: string, high: string)
    ensures MoneyUnits(amount).None? || MoneyUnits(low).None? || MoneyUnits(high).None? ==> MoneyScalePercent(amount, low, high) == "0"
    ensures (MoneyUnits(amount).Some? && MoneyUnits(low).Some? && MoneyUnits(high).Some?
             && MoneyUnits(high).value <= MoneyUnits(low).value) ==> MoneyScalePercent(amount, low, high) == "50"
  {
  }

  lemma HundredthsMonotone(v: int, w: int, low: int, high: int)
    requires low < high && v <= w
    ensures Hundredths(v, low, high) <= Hundredths(w, low, high)
  {
    hide Hundredths;
    var h, k := Hundredths(v, low, high), Hundredths(w, low, high);
    MulMonotone(Clamp(v, low, high) - low, Clamp(w, low, high) - low, 10_000);
    if h > k {
      MulMonotone(k + 1, h, high - low);
    }
  }

  /** Positions never invert an order of amounts. */
  lemma ScalePercentMonotone(left: string, right: string, low: string, high: string)
    requires MoneyUnits(left).Some? && MoneyUnits(right).Some? && MoneyUnits(low).Some? && MoneyUnits(high).Some?
    requires CompareMoney(left, right) <= 0
    ensures CompareMoney(MoneyScalePercent(left, low, high), MoneyScalePercent(right, low, high)) <= 0
  {
    hide MoneyUnits, Hundredths, PercentText, Pow10;
    var lo, hi := MoneyUnits(low).value, MoneyUnits(high).value;
    if lo < hi {
      var v, w := MoneyUnits(left).value, MoneyUnits(right).value;
      HundredthsMonotone(v, w, lo, hi);
      PercentReads(Hundredths(v, lo, hi));
      PercentReads(Hundredths(w, lo, hi));
      MulMonotone(Hundredths(v, lo, hi), Hundredths(w, lo, hi), Pow10(SCALE - 2));
    }
  }
}
