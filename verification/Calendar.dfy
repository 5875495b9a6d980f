/**
 The calendar check of transaction dates: a string is split and read as numbers, turned into a day
 number by Date.UTC and back by the UTC getters. Day numbers count from 1 January 1970; their
 arithmetic is that of section 21.4.1 of ECMA-262.
 */
module Calendar {
  import opened Wrappers
  import opened Texts

  // ---- the text ----

  const DASH: CodeUnit := 45

  function Split(s: Text, separator: CodeUnit): seq<Text> {
    if s == [] then [[]]
    else
      var rest := Split(s[1..], separator);
      if s[0] == separator then [[]] + rest
      else if rest == [] then [[s[0]]]
      else [[s[0]] + rest[0]] + rest[1..]
  }

  /** Four digits, a month from 01 to 12 and a day from 01 to 31, joined by dashes. */
  predicate MatchesDatePattern(s: Text) {
    && |s| == 10
    && (forall i :: 0 <= i < 10 && i != 4 && i != 7 ==> IsDigit(s[i]))
    && s[4] == DASH && s[7] == DASH
    && ((s[5] == ZERO && s[6] != ZERO) || (s[5] == 49 && s[6] <= 50))
    && ((s[8] == ZERO && s[9] != ZERO) || s[8] == 49 || s[8] == 50 || (s[8] == 51 && s[9] <= 49))
  }

  // ---- the day numbers ----

  /** `/` floors, as its divisors are positive. */
  function DayFromYear(y: int): int {
    365 * (y - 1970) + (y - 1969) / 4 - (y - 1901) / 100 + (y - 1601) / 400
  }

  predicate Leap(y: int) {
    DayFromYear(y + 1) - DayFromYear(y) == 366
  }

  function DaysBefore(m: int, leap: bool): int
    requires 0 <= m < 12
  {
    [0, 31, 59, 90, 120, 151, 181, 212, 243, 273, 304, 334][m] + if leap && m >= 2 then 1 else 0
  }

  /** Day number of a day, a month that counts from 0 and may lie outside the year, and a year. */
  function MakeDay(year: int, month: int, day: int): int {
    var ym := year + month / 12;
    DayFromYear(ym) + DaysBefore(month % 12, Leap(ym)) + day - 1
  }

  /** Years 0 to 99 mean 1900 to 1999. */
  function DateUtc(year: int, month: int, day: int): int {
    MakeDay(if 0 <= year <= 99 then 1900 + year else year, month, day)
  }

  lemma YearLength(y: int)
    ensures DayFromYear(y + 1) - DayFromYear(y) == if Leap(y) then 366 else 365
    ensures Leap(y) <==> y % 4 == 0 && (y % 100 != 0 || y % 400 == 0)
  {
    assert (y - 1968) / 4 - (y - 1969) / 4 == if y % 4 == 0 then 1 else 0;
    assert (y - 1900) / 100 - (y - 1901) / 100 == if y % 100 == 0 then 1 else 0;
    assert (y - 1600) / 400 - (y - 1601) / 400 == if y % 400 == 0 then 1 else 0;
  }

  function Distance(a: int, b: int): nat { if a < b then b - a else a - b }

  /** The largest year that begins no later than the day, sought from y. */
  function SeekYear(n: int, y: int): (r: int)
    ensures DayFromYear(r) <= n < DayFromYear(r + 1)
    decreases n < DayFromYear(y), Distance(DayFromYear(y), n)
  {
    YearLength(y);
    YearLength(y - 1);
    if n < DayFromYear(y) then SeekYear(n, y - 1)
    else if DayFromYear(y + 1) <= n then SeekYear(n, y + 1)
    else y
  }

  function YearFromDay(n: int): int { SeekYear(n, 1970) }

  /** The last month, no earlier than m, that begins no later than the day of the year. */
  function SeekMonth(dayInYear: int, leap: bool, m: int): (r: int)
    requires 0 <= m < 12
    ensures m <= r < 12
    decreases 12 - m
  {
    if m == 11 || dayInYear < DaysBefore(m + 1, leap) then m else SeekMonth(dayInYear, leap, m + 1)
  }

  function MonthFromDay(n: int): (m: int)
    ensures 0 <= m < 12
  {
    var y := YearFromDay(n);
    SeekMonth(n - DayFromYear(y), Leap(y), 0)
  }

  function DateFromDay(n: int): int {
    var y := YearFromDay(n);
    n - DayFromYear(y) - DaysBefore(MonthFromDay(n), Leap(y)) + 1
  }

  /** Year, month and day by the UTC getters; getUTCMonth counts from 0. */
  function CivilDate(n: int): Date { Date(YearFromDay(n), MonthFromDay(n) + 1, DateFromDay(n)) }

  predicate ReadsBack(d: Date) {
    CivilDate(DateUtc(d.year, d.month - 1, d.day)) == d
  }

  predicate IsValidCalendarDate(s: Text)
    requires MatchesDatePattern(s)
  {
    SplitsInThree(s);
    var parts := Split(s, DASH);
    ReadsBack(Date(Decimal(parts[0]), Decimal(parts[1]), Decimal(parts[2])))
  }

  // ---- the reference: the Gregorian calendar, extended to all years ----

  predicate GregorianLeap(y: int) {
    y % 4 == 0 && (y % 100 != 0 || y % 400 == 0)
  }

  function DaysInMonth(y: int, m: int): int {
    if m == 2 then (if GregorianLeap(y) then 29 else 28)
    else if m in {4, 6, 9, 11} then 30
    else 31
  }

  predicate RealDate(d: Date) {
    1 <= d.month <= 12 && 1 <= d.day <= DaysInMonth(d.year, d.month)
  }

  function DayNumber(d: Date): int { MakeDay(d.year, d.month - 1, d.day) }

  /** Where the text says its date is. */
  function WrittenDate(s: Text): Date
    requires MatchesDatePattern(s)
  {
    Date(Decimal(s[..4]), Decimal(s[5..7]), Decimal(s[8..]))
  }

  // ---- years ----

  lemma {:induction false} YearsInOrder(a: int, b: int)
    requires a <= b
    ensures DayFromYear(a) <= DayFromYear(b)
    decreases b - a
  {
    if a < b {
      YearsInOrder(a, b - 1);
      YearLength(b - 1);
    }
  }

  lemma YearIsUnique(n: int, y: int)
    requires DayFromYear(y) <= n < DayFromYear(y + 1)
    ensures YearFromDay(n) == y
  {
    var r := YearFromDay(n);
    if r < y { YearsInOrder(r + 1, y); }
    if y < r { YearsInOrder(y + 1, r); }
  }

  // ---- months ----

  /** The 0-based day of a year of this kind lies in month m, which counts from 0, as this day of the month. */
  predicate FallsInYear(dayInYear: int, leap: bool, m: int, day: int) {
    && 0 <= m < 12
    && DaysBefore(m, leap) <= dayInYear
    && (m < 11 ==> dayInYear < DaysBefore(m + 1, leap))
    && day == dayInYear - DaysBefore(m, leap) + 1
  }

  lemma {:induction false} SeekMonthFalls(d: int, leap: bool, m: int)
    requires 0 <= m < 12 && DaysBefore(m, leap) <= d
    ensures var r := SeekMonth(d, leap, m); FallsInYear(d, leap, r, d - DaysBefore(r, leap) + 1)
    decreases 12 - m
  {
    if m < 11 && DaysBefore(m + 1, leap) <= d { SeekMonthFalls(d, leap, m + 1); }
  }

  lemma {:induction false} MonthsInOrder(a: int, b: int, leap: bool)
    requires 0 <= a <= b < 12
    ensures DaysBefore(a, leap) <= DaysBefore(b, leap)
    decreases b - a
  {
    if a < b { MonthsInOrder(a, b - 1, leap); }
  }

  lemma MonthIsUnique(d: int, leap: bool, m: int, r: int, day: int, other: int)
    requires FallsInYear(d, leap, m, day) && FallsInYear(d, leap, r, other)
    ensures r == m && other == day
  {
    if r < m { MonthsInOrder(r + 1, m, leap); }
    if m < r { MonthsInOrder(m + 1, r, leap); }
  }

  /** The months of a year, laid end to end, are as long as they should be and fill the year. */
  lemma MonthsFillTheYear(d: int, leap: bool, y: int, m: int, day: int)
    requires 0 <= m < 12 && leap == GregorianLeap(y)
    ensures (FallsInYear(d, leap, m, day) && d < if leap then 366 else 365) <==>
            (1 <= day <= DaysInMonth(y, m + 1) && d == DaysBefore(m, leap) + day - 1)
  {
  }

  // ---- round trips ----

  /** The day has this number, by where years and months begin. */
  predicate Falls(n: int, d: Date) {
    && DayFromYear(d.year) <= n < DayFromYear(d.year + 1)
    && FallsInYear(n - DayFromYear(d.year), Leap(d.year), d.month - 1, d.day)
  }

  lemma MakeDayInYear(d: Date)
    requires 1 <= d.month <= 12
    ensures DayNumber(d) == DayFromYear(d.year) + DaysBefore(d.month - 1, Leap(d.year)) + d.day - 1
  {
  }

  lemma FallsInYearFrom(n: int, d: Date, begin: int, leap: bool)
    requires leap == GregorianLeap(d.year) && 1 <= d.month <= 12
    ensures (begin <= n < begin + (if leap then 366 else 365) && FallsInYear(n - begin, leap, d.month - 1, d.day)) <==>
            (RealDate(d) && n == begin + DaysBefore(d.month - 1, leap) + d.day - 1)
  {
    MonthsFillTheYear(n - begin, leap, d.year, d.month - 1, d.day);
  }

  lemma FallsIfReal(n: int, d: Date)
    ensures Falls(n, d) <==> RealDate(d) && n == DayNumber(d)
  {
    if 1 <= d.month <= 12 {
      YearLength(d.year);
      MakeDayInYear(d);
      FallsInYearFrom(n, d, DayFromYear(d.year), Leap(d.year));
    }
  }

  lemma CivilDateFalls(n: int)
    ensures Falls(n, CivilDate(n))
  {
    var y := YearFromDay(n);
    SeekMonthFalls(n - DayFromYear(y), Leap(y), 0);
  }

  lemma FallsOnce(n: int, d: Date)
    requires Falls(n, d)
    ensures CivilDate(n) == d
  {
    CivilDateFalls(n);
    YearIsUnique(n, d.year);
    MonthIsUnique(n - DayFromYear(d.year), Leap(d.year), d.month - 1, MonthFromDay(n), d.day, DateFromDay(n));
  }

  /** A real date comes back from its day number. */
  lemma DateComesBack(d: Date)
    requires RealDate(d)
    ensures CivilDate(DayNumber(d)) == d
  {
    FallsIfReal(DayNumber(d), d);
    FallsOnce(DayNumber(d), d);
  }

  /** Every day number is that of a real date, and comes back from it. */
  lemma DayNumberComesBack(n: int)
    ensures RealDate(CivilDate(n)) && DayNumber(CivilDate(n)) == n
  {
    CivilDateFalls(n);
    FallsIfReal(n, CivilDate(n));
  }

  function NextDay(d: Date): Date {
    if d.day < DaysInMonth(d.year, d.month) then Date(d.year, d.month, d.day + 1)
    else if d.month < 12 then Date(d.year, d.month + 1, 1)
    else Date(d.year + 1, 1, 1)
  }

  lemma NextDayInYear(d: Date)
    requires RealDate(d) && NextDay(d).year == d.year
    ensures DayNumber(NextDay(d)) == DayNumber(d) + 1
  {
    if d.day < DaysInMonth(d.year, d.month) { NextDayInMonth(d); } else { NextDayInNewMonth(d); }
  }

  lemma NextDayInMonth(d: Date)
    requires RealDate(d) && d.day < DaysInMonth(d.year, d.month)
    ensures DayNumber(NextDay(d)) == DayNumber(d) + 1
  {
    MakeDayInYear(d);
    MakeDayInYear(NextDay(d));
  }

  lemma NextDayInNewMonth(d: Date)
    requires RealDate(d) && d.day == DaysInMonth(d.year, d.month) && d.month < 12
    ensures DayNumber(NextDay(d)) == DayNumber(d) + 1
  {
    MakeDayInYear(d);
    MakeDayInYear(NextDay(d));
    LeapIsGregorian(d.year);
    MonthLength(d.year, d.month - 1, Leap(d.year));
  }

  lemma LeapIsGregorian(y: int)
    ensures Leap(y) == GregorianLeap(y)
  {
    YearLength(y);
  }

  lemma NextDayInNewYear(d: Date)
    requires RealDate(d) && NextDay(d).year != d.year
    ensures DayNumber(NextDay(d)) == DayNumber(d) + 1
  {
    MakeDayInYear(d);
    MakeDayInYear(NextDay(d));
    YearLength(d.year);
  }

  /** Day numbers follow the calendar: the next day has the next number. */
  lemma NextDayHasNextNumber(d: Date)
    requires RealDate(d)
    ensures RealDate(NextDay(d)) && DayNumber(NextDay(d)) == DayNumber(d) + 1
  {
    if NextDay(d).year == d.year { NextDayInYear(d); } else { NextDayInNewYear(d); }
  }

  lemma MonthLength(y: int, m: int, leap: bool)
    requires 0 <= m < 11 && leap == GregorianLeap(y)
    ensures DaysBefore(m + 1, leap) == DaysBefore(m, leap) + DaysInMonth(y, m + 1)
  {
  }

  // ---- the check ----

  lemma {:induction false} SplitWithout(s: Text, separator: CodeUnit)
    requires forall i :: 0 <= i < |s| ==> s[i] != separator
    ensures Split(s, separator) == [s]
  {
    if s != [] {
      SplitWithout(s[1..], separator);
      assert s == [s[0]] + s[1..];
    }
  }

  lemma {:induction false} SplitAt(a: Text, b: Text, separator: CodeUnit)
    requires forall i :: 0 <= i < |a| ==> a[i] != separator
    ensures Split(a + [separator] + b, separator) == [a] + Split(b, separator)
  {
    var s := a + [separator] + b;
    if a == [] {
      assert s[1..] == b;
    } else {
      assert s[1..] == a[1..] + [separator] + b;
      SplitAt(a[1..], b, separator);
      assert a == [a[0]] + a[1..];
    }
  }

  lemma SplitsInThree(s: Text)
    requires MatchesDatePattern(s)
    ensures Split(s, DASH) == [s[..4], s[5..7], s[8..]]
  {
    assert s == s[..4] + [DASH] + s[5..];
    SplitAt(s[..4], s[5..], DASH);
    assert s[5..] == s[5..7] + [DASH] + s[8..];
    SplitAt(s[5..7], s[8..], DASH);
    SplitWithout(s[8..], DASH);
  }

  lemma PatternBounds(s: Text)
    requires MatchesDatePattern(s)
    ensures 1 <= WrittenDate(s).month <= 12 && 1 <= WrittenDate(s).day <= 31 && 0 <= WrittenDate(s).year
  {
    TwoDigits(s[5..7]);
    TwoDigits(s[8..]);
  }

  /** Reading a pattern's date back from its day number gives that date exactly if it is real. */
  lemma OnlyRealDatesComeBack(d: Date)
    ensures CivilDate(DayNumber(d)) == d <==> RealDate(d)
  {
    if RealDate(d) { DateComesBack(d); } else { DayNumberComesBack(DayNumber(d)); }
  }

  /** Shifted into the twentieth century a date never comes back as itself. */
  lemma ShiftedDatesDoNotComeBack(d: Date)
    requires 0 <= d.year <= 99 && 1 <= d.month <= 12 && 1 <= d.day <= 31
    ensures YearFromDay(DayNumber(d.(year := 1900 + d.year))) != d.year
  {
    var e := d.(year := 1900 + d.year);
    MakeDayInYear(e);
    YearsInOrder(d.year + 1, e.year);
    MonthsInOrder(0, e.month - 1, Leap(e.year));
  }

  lemma LateYearsReadBack(d: Date)
    requires d.year >= 100
    ensures ReadsBack(d) <==> RealDate(d)
  {
    assert DateUtc(d.year, d.month - 1, d.day) == DayNumber(d);
    OnlyRealDatesComeBack(d);
  }

  lemma EarlyYearsDoNot(d: Date)
    requires 0 <= d.year < 100 && 1 <= d.month <= 12 && 1 <= d.day <= 31
    ensures !ReadsBack(d)
  {
    assert DateUtc(d.year, d.month - 1, d.day) == DayNumber(d.(year := 1900 + d.year));
    ShiftedDatesDoNotComeBack(d);
  }

  /**
   The check accepts exactly the real dates of the Gregorian calendar from the year 100 on: earlier
   years are taken for the twentieth century and never come back.
   */
  lemma CheckIsGregorian(s: Text)
    requires MatchesDatePattern(s)
    ensures IsValidCalendarDate(s) <==> RealDate(WrittenDate(s)) && WrittenDate(s).year >= 100
  {
    SplitsInThree(s);
    PatternBounds(s);
    if WrittenDate(s).year >= 100 { LateYearsReadBack(WrittenDate(s)); } else { EarlyYearsDoNot(WrittenDate(s)); }
  }

  const LEAP_DAY_96: Text := [48, 48, 57, 54, 45, 48, 50, 45, 50, 57]

  lemma LeapDay96()
    ensures MatchesDatePattern(LEAP_DAY_96) && WrittenDate(LEAP_DAY_96) == Date(96, 2, 29)
  {
    var s := LEAP_DAY_96;
    TwoDigits(s[5..7]);
    TwoDigits(s[8..]);
    DecimalStep(s, 0);
    DecimalStep(s, 1);
    DecimalStep(s, 2);
    DecimalStep(s, 3);
  }

  /** 29 February of the year 96 is a real day, and is refused. */
  lemma FirstCenturyIsRefused()
    ensures MatchesDatePattern(LEAP_DAY_96) && RealDate(WrittenDate(LEAP_DAY_96)) && !IsValidCalendarDate(LEAP_DAY_96)
  {
    LeapDay96();
    CheckIsGregorian(LEAP_DAY_96);
  }
}
