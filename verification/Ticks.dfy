/** Where a chart of money draws its gridlines and labels, in exact units. */
module Ticks {
  import opened Arithmetic
  import opened Options
  import opened Digits
  import opened Decimals
  import opened Money

  // ---------------------------------------------------------------- the bounds of a chart

  function Flatten(series: seq<seq<string>>): seq<string> {
    if series == [] then [] else series[0] + Flatten(series[1..])
  }

  /** The lowest and highest of the readable amounts of every series, and zero. */
  ghost predicate Brackets(series: seq<seq<string>>, low: int, high: int) {
    && low <= 0 <= high
    && (forall s, a :: s in series && a in s && MoneyUnits(a).Some? ==> low <= MoneyUnits(a).value <= high)
    && (low == 0 || exists s, a :: s in series && a in s && MoneyUnits(a) == Some(low))
    && (high == 0 || exists s, a :: s in series && a in s && MoneyUnits(a) == Some(high))
  }

  lemma {:induction false} FlattenHolds(series: seq<seq<string>>, a: string)
    ensures a in Flatten(series) <==> exists s :: s in series && a in s
  {
    if series != [] {
      FlattenHolds(series[1..], a);
      assert series == [series[0]] + series[1..];
    }
  }

  ghost predicate BracketsAll(amounts: seq<string>, low: int, high: int) {
    && low <= 0 <= high
    && (forall i :: 0 <= i < |amounts| && MoneyUnits(amounts[i]).Some? ==> low <= MoneyUnits(amounts[i]).value <= high)
    && (low == 0 || exists i :: 0 <= i < |amounts| && MoneyUnits(amounts[i]) == Some(low))
    && (high == 0 || exists i :: 0 <= i < |amounts| && MoneyUnits(amounts[i]) == Some(high))
  }

  lemma BracketsFlat(series: seq<seq<string>>, low: int, high: int)
    requires BracketsAll(Flatten(series), low, high)
    ensures Brackets(series, low, high)
  {
    hide MoneyUnits, Flatten;
    var every := Flatten(series);
    forall a: string ensures a in every <==> exists s :: s in series && a in s { FlattenHolds(series, a); }
    forall s, a | s in series && a in s && MoneyUnits(a).Some? ensures low <= MoneyUnits(a).value <= high {
      assert a in every;
    }
    if low != 0 {
      var i :| 0 <= i < |every| && MoneyUnits(every[i]) == Some(low);
      assert every[i] in every;
    }
    if high != 0 {
      var i :| 0 <= i < |every| && MoneyUnits(every[i]) == Some(high);
      assert every[i] in every;
    }
  }

  /** The axis always takes zero in, and no more than the values and zero need. */
  method Bounds(series: seq<seq<string>>) returns (low: string, high: string)
    ensures MoneyUnits(low).Some? && MoneyUnits(high).Some?
    ensures Brackets(series, MoneyUnits(low).value, MoneyUnits(high).value)
  {
    hide MoneyUnits, MoneyFromUnits, IsPositiveMoney, IsNegativeMoney, Flatten;
    var every := Flatten(series);
    var extent := MoneyExtent(every);
    ZeroReads();
    if extent.None? {
      BracketsFlat(series, 0, 0);
      return "0", "0";
    }
    ghost var l, h :| IsExtreme(every, l, false) && IsExtreme(every, h, true)
                      && extent.value == (MoneyFromUnits(l), MoneyFromUnits(h));
    PrintThenRead(l);
    PrintThenRead(h);
    PrintedSigns(l);
    PrintedSigns(h);
    low := if IsPositiveMoney(extent.value.0) then "0" else extent.value.0;
    high := if IsNegativeMoney(extent.value.1) then "0" else extent.value.1;
    BracketsFlat(series, MoneyUnits(low).value, MoneyUnits(high).value);
  }

  /** On what the printer writes the spelled sign tests are arithmetic, at any size. */
  lemma PrintedSigns(units: int)
    ensures IsPositiveMoney(MoneyFromUnits(units)) <==> units > 0
    ensures IsNegativeMoney(MoneyFromUnits(units)) <==> units < 0
  {
    hide UnitsOf, ReadMoney, IsPositiveMoney, IsNegativeMoney, Text, NumberOf, Trim;
    var p := SpellUnits(units);
    SpellUnitsRight(units);
    SpelledUnits(p);
    TextShape(p);
    TrimText(p);
    SignTestsExact(Text(p));
    if units == 0 {
      ZeroSpelled();
    }
  }

  lemma ZeroSpelled()
    ensures SpellUnits(0) == Spelled(false, "0", "")
  {
    ZeroReads();
    TextReads(SpellUnits(0));
    TextReads(Spelled(false, "0", ""));
    assert Text(Spelled(false, "0", "")) == "0";
  }

  // ---------------------------------------------------------------- the step

  /** `%` on BigInts: the remainder takes the sign of the dividend. */
  function TruncatedRemainder(a: int, b: int): int
    requires b > 0
  {
    if a >= 0 then a % b else -((-a) % b)
  }

  function Distance(span: int, count: int, candidate: int): int {
    var difference := span - count * candidate;
    if difference < 0 then -difference else difference
  }

  function Closer(span: int, count: int, best: int, candidate: int): int {
    if Distance(span, count, candidate) < Distance(span, count, best) then candidate else best
  }

  /** The power of ten at or below a positive number. */
  function Magnitude(rough: nat): (m: nat)
    requires rough > 0
    ensures m >= 1
  {
    Pow10(|Decimal(rough)| - 1)
  }

  /** One, two, five or ten times that power: the one `count` of which come closest to the span. */
  function NiceStep(span: int, count: int): int
    requires 1 <= count <= span
  {
    DivisionBounds(span, count);
    var m := Magnitude(span / count);
    Closer(span, count, Closer(span, count, Closer(span, count, m, 2 * m), 5 * m), 10 * m)
  }

  lemma MagnitudeBounds(span: int, count: int)
    requires 1 <= count <= span
    ensures span / count > 0
    ensures var m := Magnitude(span / count); count * m <= span < 10 * (count * m)
  {
    RoughIsPositive(span, count);
    var rough := span / count;
    DecimalLength(rough);
    var m := Magnitude(rough);
    assert Pow10(|Decimal(rough)|) == 10 * m;
    hide Pow10, Decimal, Magnitude;
    BracketSpan(span, count, rough, m);
  }

  lemma BracketSpan(span: int, count: int, rough: int, m: int)
    requires 1 <= count && rough == span / count && m <= rough && rough + 1 <= 10 * m
    ensures count * m <= span < 10 * (count * m)
  {
    DivisionBounds(span, count);
    MulMonotone(m, rough, count);
    MulMonotone(rough + 1, 10 * m, count);
  }

  lemma DistanceIs(span: int, count: int, k: int, m: int)
    ensures var d := span - k * (count * m); Distance(span, count, k * m) == if d < 0 then -d else d
  {
    assert count * (k * m) == k * (count * m);
  }

  /** The step is the multiple closest to the span, the smaller of two as close: the cuts are at 1.5, 3.5 and 7.5. */
  lemma NiceStepIs(span: int, count: int, m: int, c: int)
    requires 1 <= count <= span && m == Magnitude(span / count) && c == count * m && c <= span < 10 * c
    ensures NiceStep(span, count) == if 2 * span <= 3 * c then m else if 2 * span <= 7 * c then 2 * m else if 2 * span <= 15 * c then 5 * m else 10 * m
  {
    hide Magnitude, Distance;
    DistanceIs(span, count, 1, m);
    DistanceIs(span, count, 2, m);
    DistanceIs(span, count, 5, m);
    DistanceIs(span, count, 10, m);
  }

  /** For every range wide enough, the span is more than 0.7 and at most 1.75 times `count` steps. */
  lemma StepBounds(span: int, count: int)
    requires 1 <= count <= span
    ensures var step := NiceStep(span, count);
            step >= 1 && 7 * (count * step) < 10 * span && 4 * span <= 7 * (count * step)
  {
    hide Magnitude, NiceStep;
    MagnitudeBounds(span, count);
    var m := Magnitude(span / count);
    NiceStepIs(span, count, m, count * m);
    StepMultiples(count, m);
    ScaledStep(span, count * m, if 2 * span <= 3 * (count * m) then 1 else if 2 * span <= 7 * (count * m) then 2 else if 2 * span <= 15 * (count * m) then 5 else 10,
      count * NiceStep(span, count));
  }

  lemma ScaledStep(span: int, c: int, k: int, scaled: int)
    requires c <= span < 10 * c
    requires k == if 2 * span <= 3 * c then 1 else if 2 * span <= 7 * c then 2 else if 2 * span <= 15 * c then 5 else 10
    requires scaled == if k == 1 then c else if k == 2 then 2 * c else if k == 5 then 5 * c else 10 * c
    ensures 7 * scaled < 10 * span && 4 * span <= 7 * scaled
  {
  }

  lemma StepMultiples(count: int, m: int)
    ensures count * (2 * m) == 2 * (count * m) && count * (5 * m) == 5 * (count * m) && count * (10 * m) == 10 * (count * m)
  {
  }

  // ---------------------------------------------------------------- the ticks

  /** The first multiple of `step` at or above `low`. */
  function FirstTick(low: int, step: int): (t: int)
    requires step > 0
    ensures low <= t < low + step && t % step == 0
  {
    var q := low / step;
    MultipleMod(q, step);
    MultipleMod(q + 1, step);
    if low % step == 0 then low else low - low % step + step
  }

  lemma MultipleMod(q: int, step: int)
    requires step > 0
    ensures (q * step) % step == 0
  {
    DivisionUnique(q * step, step, q);
  }

  function TicksFrom(tick: int, high: int, step: int): seq<int>
    requires step > 0
    decreases high - tick
  {
    if tick > high then [] else [tick] + TicksFrom(tick + step, high, step)
  }

  function TickUnits(low: int, high: int, step: int): seq<int>
    requires step > 0
  {
    TicksFrom(FirstTick(low, step), high, step)
  }

  function Printed(units: seq<int>): seq<string> {
    seq(|units|, i requires 0 <= i < |units| => MoneyFromUnits(units[i]))
  }

  lemma {:induction false} TicksFromSpaced(tick: int, high: int, step: int)
    requires step > 0
    ensures var ticks := TicksFrom(tick, high, step);
            && (forall i :: 0 <= i < |ticks| ==> ticks[i] == tick + i * step && ticks[i] <= high)
            && tick + |ticks| * step > high
    decreases high - tick
  {
    if tick <= high {
      var rest := TicksFrom(tick + step, high, step);
      var ticks := TicksFrom(tick, high, step);
      assert ticks == [tick] + rest;
      TicksFromSpaced(tick + step, high, step);
      hide TicksFrom;
      forall i | 0 <= i < |ticks| ensures ticks[i] == tick + i * step && ticks[i] <= high {
        if i > 0 {
          assert ticks[i] == rest[i - 1];
          NextMultiple(i - 1, step);
        }
      }
      NextMultiple(|rest|, step);
    }
  }

  /** The ticks are exactly the multiples of the step in the range. */
  lemma TicksAreMultiples(low: int, high: int, step: int)
    requires step > 0 && low <= high
    ensures forall t :: t in TickUnits(low, high, step) <==> low <= t <= high && t % step == 0
  {
    hide FirstTick, TicksFrom;
    var first, ticks := FirstTick(low, step), TickUnits(low, high, step);
    TicksFromSpaced(first, high, step);
    forall t | t in ticks ensures low <= t <= high && t % step == 0 {
      var i :| 0 <= i < |ticks| && ticks[i] == t;
      MultipleAfter(first, t, i, step);
    }
    forall t | low <= t <= high && t % step == 0 ensures t in ticks {
      var k := MultipleIndex(first, t, step);
      if k >= |ticks| { MulMonotone(|ticks|, k, step); }
      assert ticks[k] == t;
    }
  }

  /** And they come in order, one step apart, as many as fit. */
  lemma TicksSpaced(low: int, high: int, step: int)
    requires step > 0 && low <= high
    ensures var ticks := TickUnits(low, high, step);
            && (forall i :: 0 < i < |ticks| ==> ticks[i] == ticks[i - 1] + step)
            && (|ticks| - 1) * step <= high - low < (|ticks| + 1) * step
  {
    hide FirstTick, TicksFrom;
    var first, ticks := FirstTick(low, step), TickUnits(low, high, step);
    var n := |ticks|;
    TicksFromSpaced(first, high, step);
    forall i | 0 < i < n ensures ticks[i] == ticks[i - 1] + step {
      NextMultiple(i - 1, step);
    }
    NextMultiple(n, step);
    NextMultiple(n - 1, step);
    if n > 0 {
      assert ticks[n - 1] == first + (n - 1) * step;
    }
  }

  lemma NextMultiple(i: int, step: int)
    ensures (i + 1) * step == i * step + step
  {
  }

  lemma MultipleAfter(first: int, t: int, i: nat, step: int)
    requires step > 0 && first % step == 0 && t == first + i * step
    ensures t >= first && t % step == 0
  {
    var q := first / step;
    assert t == (q + i) * step;
    MultipleMod(q + i, step);
    MulMonotone(0, i, step);
  }

  lemma MultipleIndex(first: int, t: int, step: int) returns (k: nat)
    requires step > 0 && first % step == 0 && t % step == 0 && first - step < t
    ensures t == first + k * step
  {
    var d := t / step - first / step;
    assert t == first + d * step;
    if d < 0 { MulMonotone(d, -1, step); }
    k := d;
  }

  /** How many ticks a range wide enough gets: about `count`, and two at least unless `count` is one or two. */
  lemma TickCount(low: int, high: int, count: int)
    requires 1 <= count <= high - low
    ensures var n := |TickUnits(low, high, StepOf(low, high, count))|;
            7 * count < 10 * (n + 1) && 4 * (n - 1) <= 7 * count && (count >= 3 ==> n >= 2) && (count == 4 ==> n <= 8)
  {
    hide NiceStep, TickUnits;
    var step := StepOf(low, high, count);
    StepBounds(high - low, count);
    TicksSpaced(low, high, step);
    CountBounds(count, |TickUnits(low, high, step)|, step, high - low);
  }

  lemma CountBounds(count: int, n: int, step: int, span: int)
    requires step > 0 && 7 * (count * step) < 10 * span && 4 * span <= 7 * (count * step)
    requires (n - 1) * step <= span < (n + 1) * step
    ensures 7 * count < 10 * (n + 1) && 4 * (n - 1) <= 7 * count
  {
    if 7 * count >= 10 * (n + 1) {
      MulMonotone(10 * (n + 1), 7 * count, step);
      MulAssoc(10, n + 1, step);
      MulAssoc(7, count, step);
    }
    if 4 * (n - 1) > 7 * count {
      MulStrict(7 * count, 4 * (n - 1), step);
      MulAssoc(4, n - 1, step);
      MulAssoc(7, count, step);
    }
  }

  function StepOf(low: int, high: int, count: int): (step: int)
    requires 1 <= count <= high - low
    ensures step > 0
  {
    StepBounds(high - low, count);
    NiceStep(high - low, count)
  }

  /** A range wide enough holds fewer than two multiples, and its ends are drawn instead, exactly when the
      one after the first is past its high bound; and that happens only with one or two asked for. */
  lemma FewTicks(low: int, high: int, count: int)
    requires 1 <= count <= high - low
    ensures var step := StepOf(low, high, count);
            && (|TickUnits(low, high, step)| < 2 <==> FirstTick(low, step) + step > high)
            && (FirstTick(low, step) + step > high ==> count <= 2)
  {
    hide NiceStep;
    var step := StepOf(low, high, count);
    var first := FirstTick(low, step);
    TickCount(low, high, count);
    assert TicksFrom(first, high, step) ==
      if first > high then [] else [first] + if first + step > high then [] else [first + step] + TicksFrom(first + step + step, high, step);
  }

  /** As it does: from 1 to 17 there is one multiple of ten, from 1 to 9 none. */
  lemma FewTicksHappen()
    ensures NiceStep(16, 2) == 10 && TickUnits(1, 17, 10) == [10]
    ensures NiceStep(8, 1) == 10 && TickUnits(1, 9, 10) == []
  {
    assert Decimal(8) == [DigitChar(8)];
    assert Magnitude(8) == 1;
    assert FirstTick(1, 10) == 10;
    assert TicksFrom(20, 17, 10) == [];
  }

  /** What `NiceTicks` answers, by the four cases of the range. */
  function TickTexts(low: string, high: string, count: int): seq<string>
    requires count >= 1
  {
    match (MoneyUnits(low), MoneyUnits(high))
    case (Some(lo), Some(hi)) =>
      if lo == hi then [MoneyFromUnits(lo)]
      else if hi - lo < count then [MoneyFromUnits(lo), MoneyFromUnits(hi)]
      else
        var ticks := TickUnits(lo, hi, StepOf(lo, hi, count));
        if |ticks| >= 2 then Printed(ticks) else [MoneyFromUnits(lo), MoneyFromUnits(hi)]
    case _ => []
  }

  /** The amounts a list of texts reads as. */
  function Amounts(texts: seq<string>): seq<Option<int>> {
    seq(|texts|, i requires 0 <= i < |texts| => MoneyUnits(texts[i]))
  }

  function These(units: seq<int>): seq<Option<int>> {
    seq(|units|, i requires 0 <= i < |units| => Some(units[i]))
  }

  lemma PrintedReads(units: seq<int>)
    ensures Amounts(Printed(units)) == These(units)
  {
    hide MoneyUnits, MoneyFromUnits;
    forall i | 0 <= i < |units| ensures MoneyUnits(MoneyFromUnits(units[i])) == Some(units[i]) { PrintThenRead(units[i]); }
  }

  /** Texts that read as every multiple of a step from the one bound to the other, in order. */
  ghost predicate EveryMultiple(texts: seq<string>, low: int, high: int, step: int) {
    && step > 0 && (forall i :: 0 <= i < |texts| ==> MoneyUnits(texts[i]).Some?)
    && (forall i :: 0 < i < |texts| ==> MoneyUnits(texts[i]).value == MoneyUnits(texts[i - 1]).value + step)
    && (forall t: int :: Some(t) in Amounts(texts) <==> low <= t <= high && t % step == 0)
  }

  /**
   What the ticks read as. A bound that cannot be read gives none, a flat range its one value, a narrow one
   its two ends; any other every multiple of its step in range if there are two, and otherwise its ends.
   */
  lemma TicksRead(low: string, high: string, count: int)
    requires count >= 1
    ensures var ticks := TickTexts(low, high, count);
      match (MoneyUnits(low), MoneyUnits(high))
      case (Some(lo), Some(hi)) =>
        if lo == hi then Amounts(ticks) == [Some(lo)]
        else if hi - lo < count then Amounts(ticks) == [Some(lo), Some(hi)]
        else if exists t :: lo <= t <= hi - StepOf(lo, hi, count) && t % StepOf(lo, hi, count) == 0
        then |ticks| >= 2 && EveryMultiple(ticks, lo, hi, StepOf(lo, hi, count))
        else Amounts(ticks) == [Some(lo), Some(hi)]
      case _ => ticks == []
  {
    hide MoneyUnits, MoneyFromUnits, StepOf, TickUnits, FirstTick;
    if MoneyUnits(low).Some? && MoneyUnits(high).Some? {
      var (lo, hi) := (MoneyUnits(low).value, MoneyUnits(high).value);
      PrintThenRead(lo);
      PrintThenRead(hi);
      if hi - lo >= count {
        var step := StepOf(lo, hi, count);
        FewTicks(lo, hi, count);
        SecondMultiple(lo, hi, step);
        TicksEvery(lo, hi, step);
      }
    }
  }

  /** There are two multiples in a range exactly when the first and the one after it are. */
  lemma SecondMultiple(low: int, high: int, step: int)
    requires step > 0
    ensures (exists t :: low <= t <= high - step && t % step == 0) <==> FirstTick(low, step) + step <= high
  {
    hide FirstTick;
    var first := FirstTick(low, step);
    if t :| low <= t <= high - step && t % step == 0 && t < first {
      var k := MultipleIndex(t, first, step);
      if k > 0 { MulMonotone(1, k, step); }
    }
  }

  lemma TicksEvery(low: int, high: int, step: int)
    requires step > 0 && low <= high
    ensures EveryMultiple(Printed(TickUnits(low, high, step)), low, high, step)
  {
    hide MoneyUnits, MoneyFromUnits, TickUnits;
    var units := TickUnits(low, high, step);
    var texts := Printed(units);
    PrintedReads(units);
    TicksAreMultiples(low, high, step);
    TicksSpaced(low, high, step);
    forall i | 0 <= i < |texts| ensures MoneyUnits(texts[i]) == Some(units[i]) {
      assert Amounts(texts)[i] == These(units)[i];
    }
    forall t: int ensures Some(t) in Amounts(texts) <==> t in units {
      if t in units {
        var i :| 0 <= i < |units| && units[i] == t;
        assert These(units)[i] == Some(t);
      }
    }
  }

  method NiceTicks(low: string, high: string, count: int := 4) returns (ticks: seq<string>)
    requires count >= 1
    ensures ticks == TickTexts(low, high, count)
  {
    hide MoneyUnits, MoneyFromUnits, NiceStep, FirstTick;
    var lowUnits, highUnits := MoneyUnits(low), MoneyUnits(high);
    if lowUnits.None? || highUnits.None? { return []; }
    var lo, hi := lowUnits.value, highUnits.value;
    if lo == hi { return [MoneyFromUnits(lo)]; }
    var span := hi - lo;
    RoughIsPositive(span, count);
    var rough := if span >= 0 then span / count else -((-span) / count);
    if rough <= 0 { return [MoneyFromUnits(lo), MoneyFromUnits(hi)]; }
    var step := StepOf(lo, hi, count);
    var offset := TruncatedRemainder(TruncatedRemainder(lo, step) + step, step);
    FirstTickIs(lo, step);
    var tick := if offset == 0 then lo else lo + (step - offset);
    ghost var first, done: seq<int> := tick, [];
    ticks := [];
    while tick <= hi
      invariant ticks == Printed(done)
      invariant TicksFrom(first, hi, step) == done + TicksFrom(tick, hi, step)
      decreases hi - tick
    {
      ticks := ticks + [MoneyFromUnits(tick)];
      assert done + ([tick] + TicksFrom(tick + step, hi, step)) == done + [tick] + TicksFrom(tick + step, hi, step);
      done := done + [tick];
      tick := tick + step;
    }
    assert done == TickUnits(lo, hi, step);
    if |ticks| < 2 { ticks := [MoneyFromUnits(lo), MoneyFromUnits(hi)]; }
  }

  lemma RoughIsPositive(span: int, count: int)
    requires count >= 1
    ensures span >= 0 ==> (span / count > 0 <==> span >= count)
    ensures span < 0 ==> -((-span) / count) <= 0
  {
    if span >= 0 {
      DivisionBounds(span, count);
      if span >= count && span / count <= 0 { MulMonotone(span / count + 1, 1, count); }
      if span < count && span / count >= 1 { MulMonotone(1, span / count, count); }
    }
  }

  /** The doubly corrected remainder is the distance past a multiple, for a low bound of either sign. */
  lemma FirstTickIs(low: int, step: int)
    requires step > 0
    ensures var offset := TruncatedRemainder(TruncatedRemainder(low, step) + step, step);
            FirstTick(low, step) == if offset == 0 then low else low + (step - offset)
  {
    var r := TruncatedRemainder(low, step);
    if low >= 0 {
      DivisionUnique(r + step, step, 1);
    } else {
      NegativeRemainder(-low, step);
      if r + step == step {
        DivisionUnique(r + step, step, 1);
      } else {
        DivisionUnique(r + step, step, 0);
      }
    }
  }

  lemma NegativeRemainder(n: int, step: int)
    requires step > 0 && n > 0
    ensures (-n) % step == if n % step == 0 then 0 else step - n % step
  {
    var q, r := n / step, n % step;
    if r == 0 {
      assert -n == (-q) * step;
      MultipleMod(-q, step);
    } else {
      assert -n == (-q - 1) * step + (step - r);
      DivisionUnique(-n, step, -q - 1);
    }
  }

  /** Zero is drawn whenever the range takes it in and is wide enough, and the axis then has two to eight lines. */
  lemma ZeroIsATick(low: string, high: string)
    requires MoneyUnits(low).Some? && MoneyUnits(high).Some?
    requires MoneyUnits(low).value <= 0 <= MoneyUnits(high).value
    requires MoneyUnits(high).value - MoneyUnits(low).value >= 4
    ensures "0" in TickTexts(low, high, 4) && 2 <= |TickTexts(low, high, 4)| <= 8
  {
    hide MoneyUnits, MoneyFromUnits, TickUnits, NiceStep;
    var lo, hi := MoneyUnits(low).value, MoneyUnits(high).value;
    var step := StepOf(lo, hi, 4);
    TickCount(lo, hi, 4);
    TicksAreMultiples(lo, hi, step);
    MultipleMod(0, step);
    var ticks := TickUnits(lo, hi, step);
    assert 0 in ticks;
    var i :| 0 <= i < |ticks| && ticks[i] == 0;
    ZeroReads();
    assert Printed(ticks)[i] == "0";
  }

  // ---------------------------------------------------------------- the labels

  /** `Math.ceil(count / budget)`. */
  function CeilingQuotient(count: int, budget: int): (stride: int)
    requires count > 0 && budget > 0
    ensures stride > 0 && (stride - 1) * budget < count <= stride * budget
  {
    DivisionBounds(count + budget - 1, budget);
    var stride := (count + budget - 1) / budget;
    if stride <= 0 then MulMonotone(stride + 1, 1, budget); stride
    else stride
  }

  /** The labels are the multiples of a stride, from the first column on, and the next would be past the last. */
  ghost predicate EvenLabels(labeled: seq<int>, stride: int, count: int) {
    && stride > 0
    && (forall i :: 0 <= i < |labeled| ==> labeled[i] == i * stride && labeled[i] < count)
    && count <= |labeled| * stride
  }

  /** At most the budget of labels, evenly spread from the first column, with none past the last: a label
      every so many columns as the budget leaves, rounded up. */
  method LabeledBuckets(count: int, budget: int := 12) returns (labeled: seq<int>)
    ensures count <= 0 <==> labeled == []
    ensures |labeled| <= if budget > 1 then budget else 1
    ensures count > 0 ==> EvenLabels(labeled, CeilingQuotient(count, if budget > 1 then budget else 1), count)
  {
    if count <= 0 {
      labeled := [];
      return;
    }
    var most := if budget > 1 then budget else 1;
    var stride := CeilingQuotient(count, most);
    labeled := [];
    var index := 0;
    while index < count
      invariant index == |labeled| * stride
      invariant forall i :: 0 <= i < |labeled| ==> labeled[i] == i * stride && labeled[i] < count
      invariant |labeled| <= most
      decreases count - index
    {
      LabelsLeft(|labeled|, most, stride, count);
      NextMultiple(|labeled|, stride);
      labeled := labeled + [index];
      index := index + stride;
    }
  }

  /** That stride is the finest: labels any closer together would be more than the budget. */
  lemma FinestStride(count: int, budget: int, labeled: seq<int>, stride: int)
    requires count > 0 && budget > 0 && EvenLabels(labeled, stride, count) && |labeled| <= budget
    ensures stride >= CeilingQuotient(count, budget)
  {
    var finest := CeilingQuotient(count, budget);
    if stride < finest {
      MulMonotone(|labeled|, budget, stride);
      MulMonotone(stride, finest - 1, budget);
    }
  }

  lemma LabelsLeft(n: int, most: int, stride: int, count: int)
    requires stride > 0 && n * stride < count <= stride * most
    ensures n < most
  {
    if n >= most { MulMonotone(most, n, stride); }
  }

  /** How many dates fit a width; `None` is a width that is not a finite number. */
  function LabelBudget(width: Option<real>): int {
    if width.None? || width.value <= 0.0 then 12
    else
      var fit := (width.value / 84.0).Floor;
      var most := if fit < 12 then fit else 12;
      if most > 2 then most else 2
  }

  /** Wherever two labels fit at all, the budget is as many as fit, up to twelve; narrower still it is two,
      and twelve where there is no width. */
  lemma LabelsFit(width: real)
    ensures 2 <= LabelBudget(Some(width)) <= 12
    ensures width >= 168.0 ==> LabelBudget(Some(width)) as real * 84.0 <= width
    ensures width >= 168.0 && LabelBudget(Some(width)) < 12 ==> width < (LabelBudget(Some(width)) + 1) as real * 84.0
    ensures 0.0 < width < 168.0 ==> LabelBudget(Some(width)) == 2
    ensures LabelBudget(None) == 12 && (width <= 0.0 ==> LabelBudget(Some(width)) == 12)
  {
    var fit := (width / 84.0).Floor;
    assert fit as real <= width / 84.0 < (fit + 1) as real;
    assert width / 84.0 * 84.0 == width;
  }
}
