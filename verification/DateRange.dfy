/** Preset date ranges (src/client/date-range.ts), over the calendar arithmetic of ECMA-262
    section 21.4.1: days since 1 January 1970, and months and days out of range carried over. */
module DateRange {
  import opened Options
  import opened Digits

  // ---------------------------------------------------------------------------------------
  // The civil calendar.
  // ---------------------------------------------------------------------------------------

  /** Months are 1 to 12 and days start at 1, as in a written date. */
  datatype Civil = Civil(year: int, month: int, day: int)

  predicate IsLeap(year: int) {
    year % 4 == 0 && (year % 100 != 0 || year % 400 == 0)
  }

  function DaysInMonth(year: int, month: int): int {
    if month == 2 then if IsLeap(year) then 29 else 28
    else if month == 4 || month == 6 || month == 9 || month == 11 then 30
    else 31
  }

  predicate IsDay(c: Civil) {
    1 <= c.month <= 12 && 1 <= c.day <= DaysInMonth(c.year, c.month)
  }

  /** The calendar's own next day: the reference the day numbers are proved against. */
  function NextDay(c: Civil): Civil {
    if c.day < DaysInMonth(c.year, c.month) then Civil(c.year, c.month, c.day + 1)
    else if c.month < 12 then Civil(c.year, c.month + 1, 1)
    else Civil(c.year + 1, 1, 1)
  }

  function PreviousMonth(c: Civil): (int, int) {
    if c.month == 1 then (c.year - 1, 12) else (c.year, c.month - 1)
  }

  // ---------------------------------------------------------------------------------------
  // Time values, in whole days.
  // ---------------------------------------------------------------------------------------

  /** DayFromYear: 21.4.1.3. */
  function DayFromYear(y: int): int {
    365 * (y - 1970) + (y - 1969) / 4 - (y - 1901) / 100 + (y - 1601) / 400
  }

  /** Days of a year before a month counted from 0. */
  function DaysBefore(year: int, month: int): int
    requires 0 <= month <= 12
  {
    if month == 0 then 0 else DaysBefore(year, month - 1) + DaysInMonth(year, month)
  }

  /** YearFromTime: the year whose days include `n`, walked to from a guess. */
  function YearFromDay(n: int, guess: int): (y: int)
    ensures DayFromYear(y) <= n < DayFromYear(y + 1)
    decreases if n < DayFromYear(guess) then DayFromYear(guess) - n
              else if n >= DayFromYear(guess + 1) then n - DayFromYear(guess + 1) + 1 else 0
  {
    hide DayFromYear, IsLeap;
    YearLength(guess);
    YearLength(guess - 1);
    YearLength(guess + 1);
    if n < DayFromYear(guess) then YearFromDay(n, guess - 1)
    else if n >= DayFromYear(guess + 1) then YearFromDay(n, guess + 1)
    else guess
  }

  /** MonthFromTime: the month, from 0, in which day `k` of the year falls. */
  function MonthOfYear(year: int, k: int, from: int): (m: int)
    requires 0 <= from < 12 && DaysBefore(year, from) <= k < DaysBefore(year, 12)
    ensures 0 <= m < 12 && DaysBefore(year, m) <= k < DaysBefore(year, m + 1)
    decreases 12 - from
  {
    if k < DaysBefore(year, from + 1) then from else MonthOfYear(year, k, from + 1)
  }

  function CivilOf(n: int): Civil {
    var y := YearFromDay(n, 1970);
    YearLength(y);
    MonthTable(y);
    var m := MonthOfYear(y, n - DayFromYear(y), 0);
    Civil(y, m + 1, n - DayFromYear(y) - DaysBefore(y, m) + 1)
  }

  /** MakeDay: 21.4.1.12, months from 0, any month and any day of it. */
  function MakeDay(year: int, month: int, date: int): int {
    var y := year + month / 12;
    DayFromYear(y) + DaysBefore(y, month % 12) + date - 1
  }

  /** Date.UTC: 21.4.3.4, where a year from 0 to 99 means one of the twentieth century. */
  function DateUtc(year: int, month: int, date: int): int {
    MakeDay(if 0 <= year <= 99 then 1900 + year else year, month, date)
  }

  function DayOf(c: Civil): int
    requires 1 <= c.month <= 12
  {
    DayFromYear(c.year) + DaysBefore(c.year, c.month - 1) + c.day - 1
  }

  lemma YearLength(y: int)
    ensures DayFromYear(y + 1) - DayFromYear(y) == if IsLeap(y) then 366 else 365
  {
    FourStep(y);
    HundredStep(y);
    FourHundredStep(y);
    LeapParts(y);
  }

  lemma FourStep(y: int)
    ensures (y + 1 - 1969) / 4 - (y - 1969) / 4 == if y % 4 == 0 then 1 else 0
  {
  }

  lemma HundredStep(y: int)
    ensures (y + 1 - 1901) / 100 - (y - 1901) / 100 == if y % 100 == 0 then 1 else 0
  {
  }

  lemma FourHundredStep(y: int)
    ensures (y + 1 - 1601) / 400 - (y - 1601) / 400 == if y % 400 == 0 then 1 else 0
  {
  }

  lemma LeapParts(y: int)
    ensures y % 400 == 0 ==> y % 100 == 0
    ensures y % 100 == 0 ==> y % 4 == 0
  {
  }

  lemma MonthTable(y: int)
    ensures DaysBefore(y, 12) == if IsLeap(y) then 366 else 365
    ensures forall m :: 0 <= m < 12 ==> DaysBefore(y, m + 1) == DaysBefore(y, m) + DaysInMonth(y, m + 1)
  {
    var leap := if IsLeap(y) then 1 else 0;
    assert DaysBefore(y, 1) == 31;
    assert DaysBefore(y, 3) == 90 + leap;
    assert DaysBefore(y, 5) == 151 + leap;
    assert DaysBefore(y, 7) == 212 + leap;
    assert DaysBefore(y, 9) == 273 + leap;
    assert DaysBefore(y, 11) == 334 + leap;
  }

  // ---------------------------------------------------------------------------------------
  // Day numbers and calendar days are the same thing.
  // ---------------------------------------------------------------------------------------

  lemma {:induction false} YearsGrow(a: int, b: int)
    requires a <= b
    ensures DayFromYear(a) <= DayFromYear(b) && (a < b ==> DayFromYear(a + 1) <= DayFromYear(b))
    decreases b - a
  {
    hide DayFromYear, IsLeap;
    if a < b {
      YearLength(b - 1);
      YearsGrow(a, b - 1);
    }
  }

  lemma {:induction false} MonthsGrow(y: int, a: int, b: int)
    requires 0 <= a <= b <= 12
    ensures DaysBefore(y, a) <= DaysBefore(y, b) && (a < b ==> DaysBefore(y, a + 1) <= DaysBefore(y, b))
    decreases b - a
  {
    if a < b { MonthsGrow(y, a, b - 1); }
  }

  lemma DayInYear(c: Civil)
    requires IsDay(c)
    ensures 0 <= DaysBefore(c.year, c.month - 1) <= DaysBefore(c.year, c.month - 1) + c.day - 1 < DaysBefore(c.year, c.month)
    ensures DaysBefore(c.year, c.month) <= DaysBefore(c.year, 12)
    ensures DayFromYear(c.year) <= DayOf(c) < DayFromYear(c.year + 1)
  {
    MonthsGrow(c.year, 0, c.month - 1);
    MonthsGrow(c.year, c.month, 12);
    YearLength(c.year);
    MonthTable(c.year);
  }

  lemma YearFound(n: int, y: int)
    requires DayFromYear(y) <= n < DayFromYear(y + 1)
    ensures YearFromDay(n, 1970) == y
  {
    hide DayFromYear;
    var found := YearFromDay(n, 1970);
    if found < y { YearsGrow(found, y); }
    if y < found { YearsGrow(y, found); }
  }

  lemma MonthFound(y: int, k: int, m: int)
    requires 0 <= m < 12 && DaysBefore(y, m) <= k < DaysBefore(y, m + 1) && 0 <= k < DaysBefore(y, 12)
    ensures DaysBefore(y, 0) == 0 && MonthOfYear(y, k, 0) == m
  {
    assert DaysBefore(y, 0) == 0;
    hide DaysBefore, MonthOfYear;
    var found := MonthOfYear(y, k, 0);
    if found < m { MonthsGrow(y, found, m); }
    if m < found { MonthsGrow(y, m, found); }
  }

  /** Every day number is one calendar day, and every calendar day one day number. */
  lemma CivilOfDay(c: Civil)
    requires IsDay(c)
    ensures CivilOf(DayOf(c)) == c
  {
    hide IsLeap, DayFromYear, DaysInMonth, DaysBefore, YearFromDay, MonthOfYear;
    DayInYear(c);
    YearFound(DayOf(c), c.year);
    MonthFound(c.year, DayOf(c) - DayFromYear(c.year), c.month - 1);
  }

  lemma DayOfCivil(n: int)
    ensures IsDay(CivilOf(n)) && DayOf(CivilOf(n)) == n
  {
    hide IsLeap, DayFromYear, DaysInMonth, MonthOfYear;
    var y := YearFromDay(n, 1970);
    YearLength(y);
    MonthTable(y);
    var m := MonthOfYear(y, n - DayFromYear(y), 0);
    DayInMonth(y, m, n);
  }

  lemma DayInMonth(y: int, m: int, n: int)
    requires 0 <= m < 12 && DaysBefore(y, m) <= n - DayFromYear(y) < DaysBefore(y, m + 1)
    ensures 1 <= n - DayFromYear(y) - DaysBefore(y, m) + 1 <= DaysInMonth(y, m + 1)
  {
    hide DayFromYear;
  }

  /** The calendar's next day is the next number, across months, years and leap days. */
  lemma NextDayCounts(c: Civil)
    requires IsDay(c)
    ensures IsDay(NextDay(c)) && DayOf(NextDay(c)) == DayOf(c) + 1
  {
    hide DayFromYear, IsLeap;
    MonthTable(c.year);
    YearLength(c.year);
  }

  /** 1 January 1970 is day 0, which with the next day fixes every other. */
  lemma Epoch()
    ensures DayOf(Civil(1970, 1, 1)) == 0 && CivilOf(0) == Civil(1970, 1, 1)
  {
    assert DayFromYear(1970) == 0;
    CivilOfDay(Civil(1970, 1, 1));
    hide DayFromYear, YearFromDay, CivilOf;
  }

  /** A day that overruns its month, in either direction, is counted on into the next. */
  lemma MakeDayCarries(c: Civil, days: int)
    requires IsDay(c)
    ensures MakeDay(c.year, c.month - 1, c.day + days) == DayOf(c) + days
  {
    assert (c.month - 1) / 12 == 0 && (c.month - 1) % 12 == c.month - 1;
  }

  /** Month -1 is last year's December, and day 0 the last day of the month before. */
  lemma MonthBefore(year: int, month: int)
    requires 1 <= month <= 12
    ensures var (y, m) := PreviousMonth(Civil(year, month, 1));
      && MakeDay(year, month - 2, 1) == DayOf(Civil(y, m, 1))
      && MakeDay(year, month - 1, 0) == DayOf(Civil(y, m, DaysInMonth(y, m)))
      && MakeDay(year, month - 1, 0) + 1 == DayOf(Civil(year, month, 1))
  {
    hide IsLeap, DayFromYear;
    if month == 1 {
      assert (month - 2) / 12 == -1 && (month - 2) % 12 == 11;
      YearLength(year - 1);
      MonthTable(year - 1);
    } else {
      assert (month - 2) / 12 == 0 && (month - 2) % 12 == month - 2;
    }
    assert (month - 1) / 12 == 0 && (month - 1) % 12 == month - 1;
  }

  /** A date object whose day is set in place. */
  class UtcDate {
    var day: int

    constructor (day: int)
      ensures this.day == day
    {
      this.day := day;
    }

    /** `setUTCDate`: the day of the month is replaced, and may overrun it. */
    method SetDate(date: int)
      modifies this
      ensures day == MakeDay(CivilOf(old(day)).year, CivilOf(old(day)).month - 1, date)
    {
      var c := CivilOf(day);
      day := MakeDay(c.year, c.month - 1, date);
    }
  }

  /** The days are added to a copy: the date passed in keeps its day. */
  method AddDays(date: UtcDate, days: int) returns (result: UtcDate)
    ensures fresh(result) && result.day == date.day + days && date.day == old(date.day)
  {
    hide CivilOf, MakeDay, DayOf, IsDay;
    result := new UtcDate(date.day);
    DayOfCivil(date.day);
    MakeDayCarries(CivilOf(date.day), days);
    result.SetDate(CivilOf(date.day).day + days);
  }

  // ---------------------------------------------------------------------------------------
  // The presets.
  // ---------------------------------------------------------------------------------------

  datatype Preset = ThisMonth | LastMonth | YearToDate | Last30 | Last90 | AllTime | Custom

  datatype Range = Range(start: string, end: string)

  function YearText(year: int): string {
    if year < 0 then "-" + Decimal(0 - year) else Decimal(year)
  }

  function Pad2(n: nat): string {
    PadStart(Decimal(n), 2)
  }

  /** `dateOnlyUtc`: the year is not padded. */
  function DateOnly(n: int): string {
    DayOfCivil(n);
    var c := CivilOf(n);
    YearText(c.year) + ("-" + Pad2(c.month) + "-" + Pad2(c.day))
  }

  /** A date as the rest of the program writes one: four digits of year. */
  function Iso(c: Civil): string
    requires c.year >= 0 && c.month >= 0 && c.day >= 0
  {
    PadStart(Decimal(c.year), 4) + ("-" + Pad2(c.month) + "-" + Pad2(c.day))
  }

  lemma TwoDigits(n: nat)
    requires n < 100
    ensures |Pad2(n)| == 2 && AllDigits(Pad2(n)) && NumberOf(Pad2(n)) == n
  {
    ShortNumber(n);
    DecimalNumber(n);
    NumberOfPadStart(Decimal(n), 2);
  }

  /** A written date is a year of four digits or more, two of month and two of day, which read back as
      the day: so each day is written one way. */
  lemma IsoReads(c: Civil)
    requires IsDay(c) && c.year >= 0
    ensures var (t, n) := (Iso(c), |Iso(c)|);
      && n >= 10 && t[n - 6] == '-' && t[n - 3] == '-'
      && AllDigits(t[..n - 6]) && NumberOf(t[..n - 6]) == c.year && (n > 10 ==> t[0] != '0')
      && AllDigits(t[n - 5..n - 3]) && NumberOf(t[n - 5..n - 3]) == c.month
      && AllDigits(t[n - 2..]) && NumberOf(t[n - 2..]) == c.day
  {
    hide Decimal, NumberOf, PadStart, Pad2, AllDigits;
    TwoDigits(c.month);
    TwoDigits(c.day);
    YearReads(c.year);
    DateParts(PadStart(Decimal(c.year), 4), Pad2(c.month), Pad2(c.day));
  }

  lemma YearReads(year: nat)
    ensures var y := PadStart(Decimal(year), 4); |y| >= 4 && AllDigits(y) && NumberOf(y) == year && (|y| > 4 ==> y[0] != '0')
  {
    DecimalNumber(year);
    DecimalPlain(year);
    NumberOfPadStart(Decimal(year), 4);
    hide Decimal, NumberOf;
  }

  lemma DateParts(y: string, m: string, d: string)
    requires |m| == 2 && |d| == 2 && y != ""
    ensures var t := y + ("-" + m + "-" + d);
      && |t| == |y| + 6 && t[..|y|] == y && t[0] == y[0] && t[|y|] == '-' && t[|y| + 1..|y| + 3] == m
      && t[|y| + 3] == '-' && t[|y| + 4..] == d
  {
  }

  function RangeOn(preset: Preset, today: Civil): Range
    requires IsDay(today) && today.year >= 1
  {
    var (y, m, d) := (today.year, today.month, today.day);
    match preset
    case ThisMonth => Range(YearText(y) + ("-" + Pad2(m) + "-" + "01"), Iso(today))
    case LastMonth => Range(DateOnly(DateUtc(y, m - 2, 1)), DateOnly(DateUtc(y, m - 1, 0)))
    case YearToDate => Range(YearText(y) + ("-" + "01" + "-" + "01"), Iso(today))
    case Last30 => Range(DateOnly(Moved(DateUtc(y, m - 1, d), -29)), Iso(today))
    case Last90 => Range(DateOnly(Moved(DateUtc(y, m - 1, d), -89)), Iso(today))
    case AllTime => Range("", "")
    case Custom => Range("", Iso(today))
  }

  /** What `AddDays` makes of a day. */
  function Moved(n: int, days: int): int {
    MakeDay(CivilOf(n).year, CivilOf(n).month - 1, CivilOf(n).day + days)
  }

  predicate IsBounded(preset: Preset) {
    !preset.AllTime? && !preset.Custom?
  }

  /** The first and the last day each preset is meant to hold. */
  function FirstDay(preset: Preset, today: Civil): int
    requires IsDay(today)
  {
    match preset
    case ThisMonth => DayOf(Civil(today.year, today.month, 1))
    case LastMonth => var (y, m) := PreviousMonth(today); DayOf(Civil(y, m, 1))
    case YearToDate => DayOf(Civil(today.year, 1, 1))
    case Last30 => DayOf(today) - 29
    case Last90 => DayOf(today) - 89
    case _ => DayOf(today)
  }

  function LastDay(preset: Preset, today: Civil): int
    requires IsDay(today)
  {
    if preset.LastMonth? then var (y, m) := PreviousMonth(today); DayOf(Civil(y, m, DaysInMonth(y, m)))
    else DayOf(today)
  }

  /** Last month is every day of the month before this one and no other; the two rolling presets are
      30 and 90 days up to today; and no bounded preset ends before it starts. */
  lemma PresetDays(preset: Preset, today: Civil, n: int)
    requires IsDay(today) && IsBounded(preset)
    ensures FirstDay(preset, today) <= LastDay(preset, today)
    ensures preset.Last30? ==> LastDay(preset, today) - FirstDay(preset, today) + 1 == 30
    ensures preset.Last90? ==> LastDay(preset, today) - FirstDay(preset, today) + 1 == 90
    ensures var inside, c := FirstDay(preset, today) <= n <= LastDay(preset, today), CivilOf(n);
      match preset
      case LastMonth => inside <==> (c.year, c.month) == PreviousMonth(today)
      case ThisMonth => inside <==> (c.year, c.month) == (today.year, today.month) && c.day <= today.day
      case YearToDate => inside <==> c.year == today.year && n <= DayOf(today)
      case _ => true
  {
    hide CivilOf, DayOf, DaysInMonth;
    DayOfCivil(n);
    var c := CivilOf(n);
    PresetOrder(preset, today);
    match preset {
      case LastMonth =>
        var (y, m) := PreviousMonth(today);
        InMonth(c, y, m);
      case ThisMonth =>
        InMonth(c, today.year, today.month);
        ThisMonthSoFar(c, today);
      case YearToDate =>
        InYear(c, today.year);
        InYear(today, today.year);
      case _ =>
    }
  }

  lemma PresetOrder(preset: Preset, today: Civil)
    requires IsDay(today)
    ensures FirstDay(preset, today) <= LastDay(preset, today)
  {
    hide DayFromYear, IsLeap;
    DayInYear(today);
    assert DaysBefore(today.year, 0) == 0;
  }

  lemma ThisMonthSoFar(c: Civil, today: Civil)
    requires IsDay(c) && IsDay(today)
    ensures c.year == today.year && c.month == today.month ==> (DayOf(c) <= DayOf(today) <==> c.day <= today.day)
    ensures DayOf(Civil(today.year, today.month, 1)) <= DayOf(today)
         <= DayOf(Civil(today.year, today.month, DaysInMonth(today.year, today.month)))
  {
    hide DayFromYear, IsLeap, DaysBefore;
  }

  /** Days between the first and the last of a month are the days of that month. */
  lemma InMonth(c: Civil, year: int, month: int)
    requires IsDay(c) && 1 <= month <= 12
    ensures DayOf(Civil(year, month, 1)) <= DayOf(c) <= DayOf(Civil(year, month, DaysInMonth(year, month)))
       <==> c.year == year && c.month == month
  {
    hide DayFromYear, IsLeap;
    DayInYear(c);
    DayInYear(Civil(year, month, 1));
    DayInYear(Civil(year, month, DaysInMonth(year, month)));
    if c.year < year { YearsGrow(c.year, year); }
    if year < c.year { YearsGrow(year, c.year); }
    if c.month < month { MonthsGrow(c.year, c.month - 1, month - 1); }
    if month < c.month { MonthsGrow(c.year, month - 1, c.month - 1); }
  }

  lemma InYear(c: Civil, year: int)
    requires IsDay(c)
    ensures DayOf(Civil(year, 1, 1)) == DayFromYear(year)
    ensures DayFromYear(year) <= DayOf(c) < DayFromYear(year + 1) <==> c.year == year
  {
    hide DayFromYear, IsLeap;
    DayInYear(c);
    if c.year < year { YearsGrow(c.year, year); }
    if year < c.year { YearsGrow(year, c.year); }
  }

  // ---------------------------------------------------------------------------------------
  // How the presets are written.
  // ---------------------------------------------------------------------------------------

  lemma ShortNumber(n: nat)
    requires n < 100
    ensures |Pad2(n)| == 2
  {
    assert n >= 10 ==> Decimal(n) == Decimal(n / 10) + [DigitChar(n % 10)];
  }

  lemma YearDigits(y: nat)
    ensures |Decimal(y)| >= 4 <==> y >= 1000
  {
    assert Pow10(1) == 10 && Pow10(2) == 100 && Pow10(3) == 1000;
    if y > 0 {
      DecimalLength(y);
      PowersGrow(|Decimal(y)|, 3);
      PowersGrow(3, |Decimal(y)| - 1);
    }
  }

  lemma {:induction false} PowersGrow(a: nat, b: nat)
    ensures a <= b ==> Pow10(a) <= Pow10(b)
    decreases b
  {
    if a < b { PowersGrow(a, b - 1); }
  }

  /** An unpadded year is the written one exactly from year 1000 on. */
  lemma YearWritten(y: nat, suffix: string)
    ensures Decimal(y) + suffix == PadStart(Decimal(y), 4) + suffix <==> y >= 1000
  {
    YearDigits(y);
    assert |Decimal(y) + suffix| == |Decimal(y)| + |suffix|;
    assert |PadStart(Decimal(y), 4) + suffix| == |PadStart(Decimal(y), 4)| + |suffix|;
  }

  lemma IsoYear(c: Civil, d: Civil)
    requires IsDay(c) && IsDay(d) && c.year >= 0 && d.year >= 0 && Iso(c) == Iso(d)
    ensures c.year == d.year
  {
    ShortNumber(c.month);
    ShortNumber(c.day);
    ShortNumber(d.month);
    ShortNumber(d.day);
    var (a, b) := (PadStart(Decimal(c.year), 4), PadStart(Decimal(d.year), 4));
    assert a == Iso(c)[..|Iso(c)| - 6] && b == Iso(d)[..|Iso(d)| - 6];
    NumberOfPadStart(Decimal(c.year), 4);
    NumberOfPadStart(Decimal(d.year), 4);
    DecimalNumber(c.year);
    DecimalNumber(d.year);
  }

  lemma MovedIs(n: int, days: int)
    ensures Moved(n, days) == n + days
  {
    hide CivilOf, MakeDay, DayOf;
    DayOfCivil(n);
    MakeDayCarries(CivilOf(n), days);
  }

  lemma YearNear(n: int, y: int)
    requires DayFromYear(y) - 100 <= n < DayFromYear(y + 1)
    ensures CivilOf(n).year == y || CivilOf(n).year == y - 1
    ensures n >= DayFromYear(y) ==> CivilOf(n).year == y
  {
    hide DayFromYear;
    YearLength(y - 1);
    YearFound(n, if n < DayFromYear(y) then y - 1 else y);
  }

  lemma FirstIsDay(year: int, month: int)
    requires 1 <= month <= 12
    ensures IsDay(Civil(year, month, 1))
  {
  }

  /** The day number behind the written start, in terms of the year the presets work in. */
  lemma CodeDays(today: Civil)
    requires IsDay(today) && today.year >= 1
    ensures var meant := Civil(if today.year <= 99 then 1900 + today.year else today.year, today.month, 1);
      var (y, m) := PreviousMonth(meant);
      && DateUtc(today.year, today.month - 2, 1) == DayOf(Civil(y, m, 1))
      && DateUtc(today.year, today.month - 1, 0) == DayOf(Civil(y, m, DaysInMonth(y, m)))
      && DateUtc(today.year, today.month - 1, today.day) == DayOf(meant) + today.day - 1
  {
    hide DayFromYear, IsLeap, DaysBefore, DayOf, MakeDay;
    var year := if today.year <= 99 then 1900 + today.year else today.year;
    assert IsDay(Civil(year, today.month, 1)) by { FirstIsDay(year, today.month); }
    MonthBefore(year, today.month);
    MakeDayCarries(Civil(year, today.month, 1), today.day - 1);
  }

  /** A written day is right exactly when it is the day meant and its year needs no padding. */
  lemma DateOnlyRight(n: int, meant: int)
    requires CivilOf(n).year >= 0 && CivilOf(meant).year >= 0
    requires n == meant || (CivilOf(n).year >= 1000 && CivilOf(meant).year < 1000)
    ensures IsDay(CivilOf(meant)) && (DateOnly(n) == Iso(CivilOf(meant)) <==> CivilOf(meant).year >= 1000)
  {
    hide CivilOf, Decimal, Pad2, PadStart;
    DayOfCivil(n);
    DayOfCivil(meant);
    var c := CivilOf(n);
    YearWritten(c.year, "-" + Pad2(c.month) + "-" + Pad2(c.day));
    if n != meant && DateOnly(n) == Iso(CivilOf(meant)) { IsoYear(c, CivilOf(meant)); }
  }

  /** A day counted back at most 90 from early in a month is in that year or the one before. */
  lemma NearStart(year: int, month: int, k: int)
    requires 1 <= month <= 12 && -100 <= k <= 1
    ensures var n := DayOf(Civil(year, month, 1)) + k;
      && (CivilOf(n).year == year || CivilOf(n).year == year - 1)
      && DayFromYear(year) - 100 <= n
  {
    hide DayFromYear, IsLeap, CivilOf;
    DayInYear(Civil(year, month, 1));
    MonthsGrow(year, month, 12);
    MonthTable(year);
    YearLength(year);
    YearNear(DayOf(Civil(year, month, 1)) + k, year);
  }

  /** How far before the first of this month a preset starts. */
  function Back(preset: Preset, today: Civil): int
    requires IsDay(today)
  {
    if preset.LastMonth? then var (y, m) := PreviousMonth(today); 0 - DaysInMonth(y, m)
    else if preset.Last30? then today.day - 30 else today.day - 90
  }

  /** The days a preset is computed from are the days meant, except that for a today in the years 1
      to 99 they lie in the twentieth century. */
  lemma StartDays(preset: Preset, today: Civil) returns (n: int)
    requires IsDay(today) && today.year >= 1 && (preset.LastMonth? || preset.Last30? || preset.Last90?)
    ensures RangeOn(preset, today).start == DateOnly(n)
    ensures CivilOf(n).year >= 0 && CivilOf(FirstDay(preset, today)).year >= 0
    ensures today.year >= 100 ==> n == FirstDay(preset, today)
    ensures today.year <= 99 ==> CivilOf(n).year >= 1000 && CivilOf(FirstDay(preset, today)).year < 1000
  {
    hide DayFromYear, CivilOf, DateOnly, Iso, IsLeap, Pad2, YearText, Moved, DateUtc, DaysBefore;
    CodeDays(today);
    var year := if today.year <= 99 then 1900 + today.year else today.year;
    var start := DateUtc(today.year, today.month - 1, today.day);
    MovedIs(start, -29);
    MovedIs(start, -89);
    n := if preset.LastMonth? then DateUtc(today.year, today.month - 2, 1)
         else if preset.Last30? then Moved(start, -29) else Moved(start, -89);
    MonthBefore(today.year, today.month);
    MonthBefore(year, today.month);
    SameLengths(today);
    NearStart(today.year, today.month, Back(preset, today));
    NearStart(year, today.month, Back(preset, today));
  }

  /** The twentieth-century year a two-digit year stands for has leap days where it has. */
  lemma SameLengths(today: Civil)
    requires IsDay(today) && today.year >= 1
    ensures var year := if today.year <= 99 then 1900 + today.year else today.year;
      var (y, m) := PreviousMonth(Civil(year, today.month, 1));
      var (z, k) := PreviousMonth(today);
      DaysInMonth(y, m) == DaysInMonth(z, k) && m == k
  {
  }

  lemma EndDays(today: Civil) returns (n: int)
    requires IsDay(today) && today.year >= 1
    ensures RangeOn(LastMonth, today).end == DateOnly(n)
    ensures CivilOf(n).year >= 0 && CivilOf(LastDay(LastMonth, today)).year >= 0
    ensures today.year >= 100 ==> n == LastDay(LastMonth, today)
    ensures today.year <= 99 ==> CivilOf(n).year >= 1000 && CivilOf(LastDay(LastMonth, today)).year < 1000
  {
    hide DayFromYear, CivilOf, DateOnly, Iso, IsLeap, Pad2, YearText, Moved, DateUtc, DaysBefore;
    CodeDays(today);
    var year := if today.year <= 99 then 1900 + today.year else today.year;
    n := DateUtc(today.year, today.month - 1, 0);
    MonthBefore(today.year, today.month);
    MonthBefore(year, today.month);
    NearStart(today.year, today.month, -1);
    NearStart(year, today.month, -1);
  }

  /** For every today, a bounded preset is written as the first and last day it is meant to hold
      exactly when their years need no padding: from year 1000 on. */
  lemma RangeIsRight(preset: Preset, today: Civil)
    requires IsDay(today) && today.year >= 1 && IsBounded(preset)
    ensures var (first, last) := (CivilOf(FirstDay(preset, today)), CivilOf(LastDay(preset, today)));
      && first.year >= 0 && last.year >= 0 && IsDay(first) && IsDay(last)
      && (RangeOn(preset, today).start == Iso(first) <==> first.year >= 1000)
      && (RangeOn(preset, today).end == Iso(last) <==> preset.LastMonth? ==> last.year >= 1000)
  {
    hide CivilOf, DayOf, DateOnly, Decimal, PadStart, Pad2, YearText, Moved, DateUtc;
    var (f, l) := (FirstDay(preset, today), LastDay(preset, today));
    DayOfCivil(f);
    DayOfCivil(l);
    if preset.ThisMonth? || preset.YearToDate? {
      StartOfYearOrMonth(preset, today);
    } else {
      var n := StartDays(preset, today);
      DateOnlyRight(n, f);
    }
    if preset.LastMonth? {
      var n := EndDays(today);
      DateOnlyRight(n, l);
    } else {
      CivilOfDay(today);
    }
  }

  /** The whole of time has no ends; a range of one's own starts with none, and ends today. */
  lemma OpenRanges(today: Civil)
    requires IsDay(today) && today.year >= 1
    ensures RangeOn(AllTime, today) == Range("", "") && RangeOn(Custom, today) == Range("", Iso(today))
  {
  }

  lemma StartOfYearOrMonth(preset: Preset, today: Civil)
    requires IsDay(today) && today.year >= 1 && (preset.ThisMonth? || preset.YearToDate?)
    ensures var first := CivilOf(FirstDay(preset, today));
      && first == Civil(today.year, if preset.ThisMonth? then today.month else 1, 1) && IsDay(first)
      && (RangeOn(preset, today).start == Iso(first) <==> first.year >= 1000)
  {
    assert Decimal(1) == "1" && Pad2(1) == "01";
    hide Decimal, PadStart, CivilOf, DayOf;
    var first := Civil(today.year, if preset.ThisMonth? then today.month else 1, 1);
    CivilOfDay(first);
    YearWritten(today.year, "-" + Pad2(first.month) + "-" + "01");
  }
}
