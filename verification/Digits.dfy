/**
 Decimal numerals as text: what `BigInt(text)`, `bigint.toString()`, `padStart`, `padEnd`
 and a trailing-zero strip do to a string of ASCII digits.
 */
module Digits {

  predicate IsDigit(c: char) {
    '0' <= c <= '9'
  }

  predicate AllDigits(s: string) {
    forall i :: 0 <= i < |s| ==> IsDigit(s[i])
  }

  function DigitValue(c: char): nat
    requires IsDigit(c)
  {
    c as int - '0' as int
  }

  function DigitChar(d: nat): (c: char)
    requires d < 10
    ensures IsDigit(c) && DigitValue(c) == d
  {
    ('0' as int + d) as char
  }

  function Pow10(n: nat): (p: nat)
    ensures p >= 1
  {
    if n == 0 then 1 else 10 * Pow10(n - 1)
  }

  /** The number a string of digits spells, `BigInt(s)`; the empty string spells zero. */
  function NumberOf(s: string): nat
    requires AllDigits(s)
  {
    if s == "" then 0 else 10 * NumberOf(s[..|s| - 1]) + DigitValue(s[|s| - 1])
  }

  /** `bigint.toString()` of a non-negative integer. */
  function Decimal(n: nat): (s: string)
    ensures s != "" && AllDigits(s)
  {
    if n < 10 then [DigitChar(n)] else Decimal(n / 10) + [DigitChar(n % 10)]
  }

  /** A numeral with no redundant leading zero. */
  predicate Plain(s: string) {
    s != "" && AllDigits(s) && (|s| == 1 || s[0] != '0')
  }

  function Zeros(n: nat): (s: string)
    ensures |s| == n && AllDigits(s)
  {
    seq(n, i => '0')
  }

  /** `s.padStart(width, "0")`. */
  function PadStart(s: string, width: nat): (r: string)
    ensures |r| == if |s| < width then width else |s|
    ensures AllDigits(s) ==> AllDigits(r)
  {
    if |s| < width then Zeros(width - |s|) + s else s
  }

  /** `s.padEnd(width, "0")`. */
  function PadEnd(s: string, width: nat): (r: string)
    ensures |r| == if |s| < width then width else |s|
    ensures AllDigits(s) ==> AllDigits(r)
  {
    if |s| < width then s + Zeros(width - |s|) else s
  }

  /** `s.replace(/0+$/, "")`. */
  function StripZeros(s: string): (r: string)
    ensures |r| <= |s| && r == s[..|r|]
    ensures r != "" ==> r[|r| - 1] != '0'
    ensures forall i :: |r| <= i < |s| ==> s[i] == '0'
  {
    if s == "" || s[|s| - 1] != '0' then s else StripZeros(s[..|s| - 1])
  }

  lemma Pow10Add(a: nat, b: nat)
    ensures Pow10(a + b) == Pow10(a) * Pow10(b)
  {
    if a > 0 {
      Pow10Add(a - 1, b);
      assert Pow10(a + b) == 10 * Pow10(a - 1 + b);
    }
  }

  lemma {:induction false} NumberOfAppend(a: string, b: string)
    requires AllDigits(a) && AllDigits(b)
    ensures AllDigits(a + b)
    ensures NumberOf(a + b) == NumberOf(a) * Pow10(|b|) + NumberOf(b)
  {
    if b == "" {
      assert a + b == a;
    } else {
      var rest, last := b[..|b| - 1], b[|b| - 1];
      NumberOfAppend(a, rest);
      NumberOfSnoc(a + rest, last);
      NumberOfSnoc(rest, last);
      assert a + b == a + rest + [last] && b == rest + [last];
      assert Pow10(|b|) == 10 * Pow10(|rest|);
      hide NumberOf, Pow10;
      Shifted(NumberOf(a), Pow10(|rest|), NumberOf(rest));
    }
  }

  lemma NumberOfSnoc(s: string, c: char)
    requires AllDigits(s) && IsDigit(c)
    ensures AllDigits(s + [c]) && NumberOf(s + [c]) == 10 * NumberOf(s) + DigitValue(c)
  {
    assert (s + [c])[..|s|] == s;
  }

  lemma Shifted(x: int, y: int, z: int)
    ensures 10 * (x * y + z) == x * (10 * y) + 10 * z
  {
  }

  lemma NumberOfNothing()
    ensures NumberOf("") == 0 && NumberOf("0") == 0
  {
    assert "0"[..0] == "";
  }

  lemma {:induction false} NumberOfZeros(n: nat)
    ensures NumberOf(Zeros(n)) == 0
  {
    if n > 0 {
      assert Zeros(n)[..n - 1] == Zeros(n - 1);
      NumberOfZeros(n - 1);
    }
  }

  lemma ZerosAppend(a: nat, b: nat)
    ensures Zeros(a) + Zeros(b) == Zeros(a + b)
  {
  }

  lemma NumberOfPadStart(s: string, width: nat)
    requires AllDigits(s)
    ensures NumberOf(PadStart(s, width)) == NumberOf(s)
  {
    hide NumberOf, Pow10;
    if |s| < width {
      NumberOfAppend(Zeros(width - |s|), s);
      NumberOfZeros(width - |s|);
      Shifted(0, Pow10(|s|), 0);
    }
  }

  lemma NumberOfPadEnd(s: string, width: nat)
    requires AllDigits(s) && |s| <= width
    ensures NumberOf(PadEnd(s, width)) == NumberOf(s) * Pow10(width - |s|)
  {
    NumberOfAppend(s, Zeros(width - |s|));
    NumberOfZeros(width - |s|);
    if |s| == width {
      assert PadEnd(s, width) == s;
    }
  }

  lemma {:induction false} NumberOfBound(s: string)
    requires AllDigits(s)
    ensures NumberOf(s) < Pow10(|s|)
  {
    if s != "" {
      NumberOfBound(s[..|s| - 1]);
    }
  }

  lemma {:induction false} DecimalNumber(n: nat)
    ensures NumberOf(Decimal(n)) == n
  {
    if n < 10 {
      assert Decimal(n)[..0] == "";
    } else {
      DecimalNumber(n / 10);
      assert Decimal(n)[..|Decimal(n)| - 1] == Decimal(n / 10);
    }
  }

  lemma {:induction false} DecimalPlain(n: nat)
    ensures Plain(Decimal(n))
    ensures n > 0 ==> Decimal(n)[0] != '0'
  {
    if n >= 10 {
      DecimalPlain(n / 10);
    }
  }

  /** A numeral without redundant leading zeros is the only one of its number. */
  lemma {:induction false} PlainUnique(s: string)
    requires Plain(s)
    ensures Decimal(NumberOf(s)) == s
    ensures s[0] != '0' ==> NumberOf(s) > 0
  {
    var rest, last := s[..|s| - 1], s[|s| - 1];
    if |s| == 1 {
      assert NumberOf(rest) == 0;
      assert s == [DigitChar(DigitValue(last))];
    } else {
      PlainUnique(rest);
      assert NumberOf(s) / 10 == NumberOf(rest);
      assert s == rest + [last];
    }
  }

  /** Digit count is the order of magnitude: the exact `floor(log10(n))`. */
  lemma {:induction false} DecimalLength(n: nat)
    requires n > 0
    ensures Pow10(|Decimal(n)| - 1) <= n < Pow10(|Decimal(n)|)
  {
    if n >= 10 {
      DecimalLength(n / 10);
    }
  }

  lemma StripZerosShape(s: string)
    ensures s == StripZeros(s) + Zeros(|s| - |StripZeros(s)|)
  {
  }

  /** Trailing zeros add a power of ten and nothing else. */
  lemma StripZerosValue(s: string)
    requires AllDigits(s)
    ensures AllDigits(StripZeros(s))
    ensures NumberOf(s) == NumberOf(StripZeros(s)) * Pow10(|s| - |StripZeros(s)|)
  {
    var r := StripZeros(s);
    StripZerosShape(s);
    NumberOfAppend(r, Zeros(|s| - |r|));
    NumberOfZeros(|s| - |r|);
  }

  /** Numerals of one length are ordered by their numbers, so equal numbers are equal text. */
  lemma {:induction false} SameLengthUnique(a: string, b: string)
    requires AllDigits(a) && AllDigits(b) && |a| == |b|
    requires NumberOf(a) == NumberOf(b)
    ensures a == b
  {
    if a != "" {
      var i := |a| - 1;
      assert DigitValue(a[i]) == DigitValue(b[i]);
      SameLengthUnique(a[..i], b[..i]);
      assert a == a[..i] + [a[i]] && b == b[..i] + [b[i]];
    }
  }
}
