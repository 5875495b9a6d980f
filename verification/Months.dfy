/** Month arithmetic and the half-open date ranges of the monthly reports. */
module Months {
  import opened Wrappers

  /** Dates from start up to but not including end. */
  datatype Range = Range(start: Date, end: Date)

  datatype Ranges = Ranges(current: Range, previous: Range)

  datatype RangeError = InvalidMonth

  /** `%` truncates toward zero. */
  function TruncatedRemainder(a: int, b: int): int
    requires b > 0
  {
    if a >= 0 then a % b else -((-a) % b)
  }

  /** Year and month, `offset` months later. Math.floor is the flooring division of a positive divisor. */
  function ShiftMonth(year: int, month: int, offset: int): (int, int) {
    var index := year * 12 + month - 1 + offset;
    (index / 12, TruncatedRemainder(index, 12) + 1)
  }

  function MonthStart(ym: (int, int)): Date {
    Date(ym.0, ym.1, 1)
  }

  function MonthRange(year: int, month: int): Range {
    Range(MonthStart((year, month)), MonthStart(ShiftMonth(year, month, 1)))
  }

  function GetRanges(year: int, month: int): Result<Ranges, RangeError> {
    if year < 1 || month < 1 || month > 12 then Failure(InvalidMonth)
    else
      var start := MonthStart((year, month));
      Success(Ranges(
        Range(start, MonthStart(ShiftMonth(year, month, 1))),
        Range(MonthStart(ShiftMonth(year, month, -1)), start)))
  }

  predicate Before(a: Date, b: Date) {
    a.year < b.year || (a.year == b.year && (a.month < b.month || (a.month == b.month && a.day < b.day)))
  }

  predicate InRange(d: Date, r: Range) {
    !Before(d, r.start) && Before(d, r.end)
  }

  predicate PlausibleDate(d: Date) {
    1 <= d.month <= 12 && 1 <= d.day <= 31
  }

  lemma MonthOfIndex(year: int, month: int)
    requires 1 <= month <= 12
    ensures (year * 12 + month - 1) / 12 == year && (year * 12 + month - 1) % 12 == month - 1
  {
  }

  /** Within the common era a shift is counting months. */
  lemma ShiftCounts(year: int, month: int, offset: int)
    requires year * 12 + month - 1 + offset >= 0
    ensures var next := ShiftMonth(year, month, offset);
      next.0 >= 0 && 1 <= next.1 <= 12 && next.0 * 12 + next.1 - 1 == year * 12 + month - 1 + offset
  {
  }

  lemma ShiftsCompose(year: int, month: int, a: nat, b: nat)
    requires year >= 1 && 1 <= month <= 12
    ensures var between := ShiftMonth(year, month, a); ShiftMonth(between.0, between.1, b) == ShiftMonth(year, month, a + b)
  {
    var between, there := ShiftMonth(year, month, a), ShiftMonth(year, month, a + b);
    ShiftCounts(year, month, a);
    ShiftCounts(year, month, a + b);
    ShiftCounts(between.0, between.1, b);
    MonthOfIndex(there.0, there.1);
  }

  lemma ShiftsAscend(year: int, month: int, a: nat, b: nat)
    requires year >= 1 && 1 <= month <= 12 && a <= b
    ensures !Before(MonthStart(ShiftMonth(year, month, b)), MonthStart(ShiftMonth(year, month, a)))
  {
    ShiftCounts(year, month, a);
    ShiftCounts(year, month, b);
  }

  lemma ShiftsUndoEachOther(year: int, month: int)
    requires year >= 1 && 1 <= month <= 12
    ensures var next := ShiftMonth(year, month, 1);
      1 <= next.1 <= 12 && next.0 >= 1 && ShiftMonth(next.0, next.1, -1) == (year, month)
    ensures var previous := ShiftMonth(year, month, -1);
      1 <= previous.1 <= 12 && previous.0 >= 0 && ShiftMonth(previous.0, previous.1, 1) == (year, month)
  {
    ShiftAndBack(year, month, 1);
    ShiftAndBack(year, month, -1);
  }

  lemma ShiftAndBack(year: int, month: int, offset: int)
    requires 1 <= month <= 12 && year * 12 + month - 1 >= 0 && year * 12 + month - 1 + offset >= 0
    ensures var other := ShiftMonth(year, month, offset);
      1 <= other.1 <= 12 && other.0 * 12 + other.1 - 1 == year * 12 + month - 1 + offset
      && ShiftMonth(other.0, other.1, -offset) == (year, month)
  {
    ShiftCounts(year, month, offset);
    var other := ShiftMonth(year, month, offset);
    ShiftCounts(other.0, other.1, -offset);
    MonthOfIndex(year, month);
  }

  /** The range of a month holds exactly that month's dates, so every date lies in exactly one month. */
  lemma MonthsTile(year: int, month: int, d: Date)
    requires year >= 0 && 1 <= month <= 12 && PlausibleDate(d)
    ensures InRange(d, MonthRange(year, month)) <==> d.year == year && d.month == month
  {
  }

  /** Current and previous range are month ranges that abut; anything but a month of the common era is refused. */
  lemma RangesAreAbuttingMonths(year: int, month: int)
    ensures GetRanges(year, month).Success? <==> year >= 1 && 1 <= month <= 12
    ensures GetRanges(year, month).Success? ==>
      var r := GetRanges(year, month).value;
      var p := ShiftMonth(year, month, -1);
      && r.current == MonthRange(year, month)
      && r.previous == MonthRange(p.0, p.1)
      && r.previous.end == r.current.start
      && Before(r.previous.start, r.current.start) && Before(r.current.start, r.current.end)
  {
    if GetRanges(year, month).Success? { ShiftsUndoEachOther(year, month); }
  }
}
