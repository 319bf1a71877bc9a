/**
 Reading a decimal string: the two regular expressions `^(-?)(\d+)(?:\.(\d+))?$` and
 `^(-?)(\d+)(?:\.(\d{1,18}))?$` every exact figure goes through, and what the text is worth.
 */
module Decimals {
  import opened Options
  import opened Digits

  /** The three captures of a match. An absent fraction is the empty one. */
  datatype Spelled = Spelled(negative: bool, integer: string, fraction: string)

  predicate WellSpelled(p: Spelled) {
    p.integer != "" && AllDigits(p.integer) && AllDigits(p.fraction)
  }

  /** The text a match was read from. */
  function Text(p: Spelled): string {
    (if p.negative then "-" else "") + p.integer + (if p.fraction == "" then "" else "." + p.fraction)
  }

  /** The longest run of digits `s` starts with. */
  function LeadingDigits(s: string): (d: string)
    ensures |d| <= |s| && d == s[..|d|] && AllDigits(d)
    ensures |d| < |s| ==> !IsDigit(s[|d|])
  {
    if s == "" || !IsDigit(s[0]) then "" else [s[0]] + LeadingDigits(s[1..])
  }

  /** `/^(-?)(\d+)(?:\.(\d+))?$/.exec(s)`. */
  function ReadDecimal(s: string): Option<Spelled> {
    var negative := s != "" && s[0] == '-';
    var body := if negative then s[1..] else s;
    var whole := LeadingDigits(body);
    if whole == "" then None
    else if |whole| == |body| then Some(Spelled(negative, whole, ""))
    else
      var fraction := body[|whole| + 1..];
      if body[|whole|] == '.' && fraction != "" && AllDigits(fraction)
      then Some(Spelled(negative, whole, fraction))
      else None
  }

  lemma {:induction false} LeadingDigitsStop(d: string, rest: string)
    requires AllDigits(d) && (rest == "" || !IsDigit(rest[0]))
    ensures LeadingDigits(d + rest) == d
  {
    if d == "" {
      assert d + rest == rest;
    } else {
      assert (d + rest)[1..] == d[1..] + rest;
      LeadingDigitsStop(d[1..], rest);
    }
  }

  lemma TextReads(p: Spelled)
    requires WellSpelled(p)
    ensures ReadDecimal(Text(p)) == Some(p)
  {
    var tail := if p.fraction == "" then "" else "." + p.fraction;
    BodyReads(p, tail);
    SignReads(p, tail);
    hide Text, LeadingDigits, ReadDecimal;
    ReadFrom(Text(p), p, p.integer + tail);
  }

  lemma ReadFrom(s: string, p: Spelled, body: string)
    requires WellSpelled(p) && s != "" && (s[0] == '-' <==> p.negative) && body == if p.negative then s[1..] else s
    requires LeadingDigits(body) == p.integer && (|p.integer| == |body| <==> p.fraction == "")
    requires p.fraction != "" ==> body[|p.integer|] == '.' && body[|p.integer| + 1..] == p.fraction
    ensures ReadDecimal(s) == Some(p)
  {
    hide LeadingDigits, AllDigits;
  }

  /** A minus at the start is the sign and nothing else. */
  lemma SignReads(p: Spelled, tail: string)
    requires WellSpelled(p) && tail == if p.fraction == "" then "" else "." + p.fraction
    ensures var s := Text(p);
      && s != "" && (s[0] == '-' <==> p.negative) && (if p.negative then s[1..] else s) == p.integer + tail
  {
    assert IsDigit(p.integer[0]);
    hide AllDigits;
    Concat3(if p.negative then "-" else "", p.integer, tail);
  }

  /** After the sign, a text is its digits and what follows them. */
  lemma BodyReads(p: Spelled, tail: string)
    requires WellSpelled(p) && tail == if p.fraction == "" then "" else "." + p.fraction
    ensures var body := p.integer + tail;
      && LeadingDigits(body) == p.integer && (|p.integer| == |body| <==> p.fraction == "")
      && (p.fraction != "" ==> body[|p.integer|] == '.' && body[|p.integer| + 1..] == p.fraction)
  {
    LeadingDigitsStop(p.integer, tail);
  }

  lemma ReadingIsText(s: string)
    requires ReadDecimal(s).Some?
    ensures WellSpelled(ReadDecimal(s).value) && s == Text(ReadDecimal(s).value)
  {
    var p := ReadDecimal(s).value;
    var body := if p.negative then s[1..] else s;
    assert p.integer == LeadingDigits(body);
    assert p.fraction == if |p.integer| == |body| then "" else body[|p.integer| + 1..];
    assert |p.integer| < |body| ==> body[|p.integer|] == '.' && p.fraction != "";
    assert p.negative ==> s[0] == '-';
    assert AllDigits(p.fraction) && p.integer != "";
    hide LeadingDigits, ReadDecimal;
    SplitAt(body, |p.integer|);
    SignSplit(s, p.negative);
    var tail := if p.fraction == "" then "" else "." + p.fraction;
    Concat3(if p.negative then "-" else "", p.integer, tail);
  }

  lemma SplitAt(body: string, n: nat)
    requires n <= |body|
    ensures n == |body| ==> body == body[..n] + ""
    ensures n < |body| ==> body == body[..n] + ([body[n]] + body[n + 1..])
  {
  }

  lemma SignSplit(s: string, negative: bool)
    requires negative ==> s != "" && s[0] == '-'
    ensures s == (if negative then "-" else "") + (if negative then s[1..] else s)
  {
  }

  lemma Concat3(a: string, b: string, c: string)
    ensures a + (b + c) == a + b + c
  {
  }

  /** A string reads as `p` exactly when it is the text of `p`: one reading at most, and no other text has it. */
  lemma ReadDecimalExact(s: string, p: Spelled)
    ensures ReadDecimal(s) == Some(p) <==> WellSpelled(p) && s == Text(p)
  {
    if WellSpelled(p) && s == Text(p) {
      TextReads(p);
    }
    if ReadDecimal(s) == Some(p) {
      ReadingIsText(s);
    }
  }

  /** What the digits come to before the point is placed, with the sign. */
  function Numerator(p: Spelled): int
    requires WellSpelled(p)
  {
    var n: int := NumberOf(p.integer + p.fraction);
    if p.negative then -n else n
  }

  /** Two spellings of one number, compared as fractions so that no scale is assumed. */
  ghost predicate SameValue(p: Spelled, q: Spelled)
    requires WellSpelled(p) && WellSpelled(q)
  {
    Numerator(p) * Pow10(|q.fraction|) == Numerator(q) * Pow10(|p.fraction|)
  }

  lemma NumeratorParts(p: Spelled)
    requires WellSpelled(p)
    ensures var n: int := NumberOf(p.integer) * Pow10(|p.fraction|) + NumberOf(p.fraction);
            Numerator(p) == if p.negative then -n else n
  {
    NumberOfAppend(p.integer, p.fraction);
  }
}
