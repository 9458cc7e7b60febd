/** Local calendar dates as the bot's summary flow builds them with the JavaScript `Date`
    constructor: proleptic Gregorian leap years, the 0..99 year rule, month overflow into the
    year, and day overflow into neighbouring months. A point in time is a date plus the
    milliseconds since local midnight. */
module Calendar {

  predicate IsLeapYear(y: int) {
    y % 4 == 0 && (y % 100 != 0 || y % 400 == 0)
  }

  /** Days in month `m` (0 = January) of year `y`. */
  function DaysInMonth(y: int, m: int): (d: int)
    requires 0 <= m < 12
    ensures 28 <= d <= 31
    ensures m == 1 ==> (d == 29 <==> IsLeapYear(y))
    ensures m != 1 ==> (d == 30 <==> m in {3, 5, 8, 10})
  {
    if m == 1 then (if IsLeapYear(y) then 29 else 28)
    else if m in {3, 5, 8, 10} then 30
    else 31
  }

  /** Milliseconds of 23:59:59.999. */
  const EndOfDayMs := 86399999

  /** A local date (month 0 = January, as `getMonth` counts) and a time of day in milliseconds. */
  datatype DateTime = DateTime(year: int, month: int, day: int, ms: int)

  predicate IsValid(t: DateTime) {
    0 <= t.month < 12 && 1 <= t.day <= DaysInMonth(t.year, t.month) && 0 <= t.ms <= EndOfDayMs
  }

  /** `a <= b` on the time line, which for valid values is the lexicographic order. */
  predicate NotAfter(a: DateTime, b: DateTime) {
    a.year < b.year
    || (a.year == b.year && a.month < b.month)
    || (a.year == b.year && a.month == b.month && a.day < b.day)
    || (a.year == b.year && a.month == b.month && a.day == b.day && a.ms <= b.ms)
  }

  /** `start <= t && t <= end`. */
  predicate InRange(t: DateTime, start: DateTime, end: DateTime) {
    NotAfter(start, t) && NotAfter(t, end)
  }

  /** The `Date` constructor reads a year argument 0..99 as 1900..1999. */
  function FullYear(y: int): int {
    if 0 <= y <= 99 then 1900 + y else y
  }

  function PreviousMonth(y: int, m: int): (r: (int, int))
    requires 0 <= m < 12
    ensures 0 <= r.1 < 12
  {
    if m == 0 then (y - 1, 11) else (y, m - 1)
  }

  function NextMonth(y: int, m: int): (r: (int, int))
    requires 0 <= m < 12
    ensures 0 <= r.1 < 12
  {
    if m == 11 then (y + 1, 0) else (y, m + 1)
  }

  /** Day `d` of month `m` of year `y`, where a day before the 1st counts back into earlier
      months and a day past the month's end counts on into later ones. */
  function NormalizeDay(y: int, m: int, d: int): (r: DateTime)
    requires 0 <= m < 12
    ensures IsValid(r) && r.ms == 0
    decreases if d < 1 then 32 - d else d
  {
    if d < 1 then
      var p := PreviousMonth(y, m);
      NormalizeDay(p.0, p.1, d + DaysInMonth(p.0, p.1))
    else if d > DaysInMonth(y, m) then
      var n := NextMonth(y, m);
      NormalizeDay(n.0, n.1, d - DaysInMonth(y, m))
    else DateTime(y, m, d, 0)
  }

  /** `new Date(y, monthIndex, day)` at local midnight. */
  function MakeDate(y: int, monthIndex: int, day: int): (r: DateTime)
    ensures IsValid(r) && r.ms == 0
    ensures 0 <= monthIndex < 12 && 1 <= day <= DaysInMonth(FullYear(y), monthIndex)
            ==> r == DateTime(FullYear(y), monthIndex, day, 0)
  {
    NormalizeDay(FullYear(y) + monthIndex / 12, monthIndex % 12, day)
  }

  function AtTime(t: DateTime, ms: int): DateTime {
    t.(ms := ms)
  }

  /** `getMonthDateRange(year, month)`: from `new Date(year, month, 1)` at 00:00:00.000 to
      `new Date(year, month + 1, 0)` (day 0 = the last day of the month before) at 23:59:59.999. */
  function MonthDateRange(y: int, m: int): (DateTime, DateTime) {
    (AtTime(MakeDate(y, m, 1), 0), AtTime(MakeDate(y, m + 1, 0), EndOfDayMs))
  }

  /** `getYearDateRange(year)`: January 1st 00:00:00.000 to December 31st 23:59:59.999. */
  function YearDateRange(y: int): (DateTime, DateTime) {
    (AtTime(MakeDate(y, 0, 1), 0), AtTime(MakeDate(y, 11, 31), EndOfDayMs))
  }

  /** `d.setMonth(d.getMonth() + k)`: `k` months on (or back), the same day of the month and
      time of day; a day past the end of the target month rolls over into the next month. */
  function AddMonths(t: DateTime, k: int): (r: DateTime)
    requires IsValid(t)
    ensures IsValid(r) && r.ms == t.ms
    ensures t.day <= 28 ==> r.day == t.day && r.year * 12 + r.month == t.year * 12 + t.month + k
  {
    var mi := t.month + k;
    EarlyDayStays(t.year + mi / 12, mi % 12, t.day);
    NormalizeDay(t.year + mi / 12, mi % 12, t.day).(ms := t.ms)
  }

  /** Every month has at least 28 days, so a day up to the 28th needs no normalising. */
  lemma EarlyDayStays(y: int, m: int, d: int)
    requires 0 <= m < 12 && 1 <= d
    ensures d <= 28 ==> NormalizeDay(y, m, d) == DateTime(y, m, d, 0)
  {
    if d <= 28 {
      NormalizeInRange(y, m, d);
    }
  }

  /** Months counted from year 0, so that month arithmetic is plain addition. */
  function MonthNumber(t: DateTime): int {
    t.year * 12 + t.month
  }

  /** Up to the 28th, adding months keeps the day and advances the month by exactly `k`. */
  lemma AddMonthsKeepsEarlyDay(t: DateTime, k: int)
    requires IsValid(t) && t.day <= 28
    ensures AddMonths(t, k).day == t.day
    ensures MonthNumber(AddMonths(t, k)) == MonthNumber(t) + k
  {
    var mi := t.month + k;
    NormalizeInRange(t.year + mi / 12, mi % 12, t.day);
  }

  /** The 31st plus a month that has 30 days lands on the 1st of the month after. */
  lemma AddMonthsRollsOver(y: int)
    ensures AddMonths(DateTime(y, 0, 31, 0), 3) == DateTime(y, 4, 1, 0)
  {
    assert NormalizeDay(y, 3, 31) == NormalizeDay(y, 4, 1);
  }

  /** A day inside the month is left where it is. */
  lemma NormalizeInRange(y: int, m: int, d: int)
    requires 0 <= m < 12 && 1 <= d <= DaysInMonth(y, m)
    ensures NormalizeDay(y, m, d) == DateTime(y, m, d, 0)
  {
  }

  /** A date given in range (and with a year outside 0..99) is constructed as given. */
  lemma MakeDateInRange(y: int, mi: int, d: int)
    requires !(0 <= y <= 99) && 0 <= mi < 12 && 1 <= d <= DaysInMonth(y, mi)
    ensures MakeDate(y, mi, d) == DateTime(y, mi, d, 0)
  {
    assert mi / 12 == 0 && mi % 12 == mi;
    NormalizeInRange(y, mi, d);
  }

  /** Day 0 is the last day of the month before. */
  lemma NormalizeDayZero(y: int, m: int)
    requires 0 <= m < 12
    ensures var p := PreviousMonth(y, m);
            NormalizeDay(y, m, 0) == DateTime(p.0, p.1, DaysInMonth(p.0, p.1), 0)
  {
  }

  /** The month range runs from the 1st of a month at midnight to the last day of the same
      month (28, 29, 30 or 31 by the leap-year rule) at 23:59:59.999; for a month index 0..11
      and a year outside 0..99 that month is exactly the one asked for. */
  lemma MonthRangeSpansMonth(y: int, m: int)
    ensures var (start, end) := MonthDateRange(y, m);
            && start == DateTime(FullYear(y) + m / 12, m % 12, 1, 0)
            && end == DateTime(start.year, start.month, DaysInMonth(start.year, start.month), EndOfDayMs)
    ensures 0 <= m < 12 && !(0 <= y <= 99) ==> MonthDateRange(y, m).0 == DateTime(y, m, 1, 0)
  {
    var Y := FullYear(y) + m / 12;
    var M := m % 12;
    NormalizeInRange(Y, M, 1);
    var Y' := FullYear(y) + (m + 1) / 12;
    var M' := (m + 1) % 12;
    if M == 11 {
      assert M' == 0 && Y' == Y + 1;
    } else {
      assert M' == M + 1 && Y' == Y;
    }
    NormalizeDayZero(Y', M');
  }

  /** The year range starts where January's range starts and ends where December's ends. */
  lemma YearRangeIsJanuaryToDecember(y: int)
    ensures YearDateRange(y).0 == MonthDateRange(y, 0).0
    ensures YearDateRange(y).1 == MonthDateRange(y, 11).1
  {
    MonthRangeSpansMonth(y, 11);
    NormalizeInRange(FullYear(y), 11, 31);
  }

  /** Every instant of the month, and nothing of the months around it, lies in its range. */
  lemma MonthRangeMembership(y: int, m: int, t: DateTime)
    requires IsValid(t)
    ensures var (start, end) := MonthDateRange(y, m);
            InRange(t, start, end) <==> t.year == start.year && t.month == start.month
  {
    MonthRangeSpansMonth(y, m);
  }
}
