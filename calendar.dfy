/**
 * The parts of Python's `datetime` module the collector uses: proleptic
 * Gregorian dates between the years 1 and 9999, times with microseconds,
 * `date.toordinal()`, `date.isoweekday()`, one-day subtraction and the
 * ordering of `time` values.
 */
module Calendar {
  import opened Wrappers

  datatype Date = Date(year: int, month: int, day: int)
  datatype Time = Time(hour: int, minute: int, second: int, micro: int)
  datatype DateTime = DateTime(date: Date, time: Time)

  const MIN_YEAR: int := 1
  const MAX_YEAR: int := 9999

  predicate IsLeap(y: int) {
    y % 4 == 0 && (y % 100 != 0 || y % 400 == 0)
  }

  function DaysInMonth(y: int, m: int): (n: int)
    requires 1 <= m <= 12
    ensures 28 <= n <= 31
  {
    if m == 2 then (if IsLeap(y) then 29 else 28)
    else if m == 4 || m == 6 || m == 9 || m == 11 then 30
    else 31
  }

  /** The dates `datetime.date(year, month, day)` accepts without a ValueError. */
  predicate ValidDate(d: Date) {
    && MIN_YEAR <= d.year <= MAX_YEAR
    && 1 <= d.month <= 12
    && 1 <= d.day <= DaysInMonth(d.year, d.month)
  }

  /** The times `datetime.time(hour, minute, second, microsecond)` accepts. */
  predicate ValidTime(t: Time) {
    && 0 <= t.hour <= 23
    && 0 <= t.minute <= 59
    && 0 <= t.second <= 59
    && 0 <= t.micro <= 999999
  }

  predicate ValidDateTime(dt: DateTime) {
    ValidDate(dt.date) && ValidTime(dt.time)
  }

  /** Days in the years before `y` (CPython's `_days_before_year`). */
  function DaysBeforeYear(y: int): int
    requires y >= 1
  {
    var n := y - 1;
    n * 365 + n / 4 - n / 100 + n / 400
  }

  /** Days in the months of year `y` before month `m` (CPython's `_days_before_month`). */
  function DaysBeforeMonth(y: int, m: int): int
    requires 1 <= m <= 12
  {
    var before := [0, 31, 59, 90, 120, 151, 181, 212, 243, 273, 304, 334][m - 1];
    before + (if m > 2 && IsLeap(y) then 1 else 0)
  }

  /** `date.toordinal()`: 0001-01-01 is day 1. */
  function Ordinal(d: Date): int
    requires ValidDate(d)
  {
    DaysBeforeYear(d.year) + DaysBeforeMonth(d.year, d.month) + d.day
  }

  /** `date.isoweekday()`: Monday is 1 and Sunday is 7. */
  function IsoWeekday(d: Date): (w: int)
    requires ValidDate(d)
    ensures 1 <= w <= 7
  {
    var r := Ordinal(d) % 7;
    if r == 0 then 7 else r
  }

  /** The numbering is anchored: 2021-03-01 was a Monday and 2021-03-07 a Sunday. */
  lemma IsoWeekdayAnchor()
    ensures IsoWeekday(Date(2021, 3, 1)) == 1
    ensures IsoWeekday(Date(2021, 3, 7)) == 7
  {
    assert Ordinal(Date(2021, 3, 1)) == 737850;
  }

  /** Moving across one year boundary adds the length of that year. */
  lemma YearStep(y: int)
    requires y >= 1
    ensures DaysBeforeYear(y + 1) == DaysBeforeYear(y) + (if IsLeap(y) then 366 else 365)
  {
    var n := y - 1;
    DivStep4(n);
    DivStep100(n);
    DivStep400(n);
    assert DaysBeforeYear(y + 1) == y * 365 + y / 4 - y / 100 + y / 400;
    assert DaysBeforeYear(y) == n * 365 + n / 4 - n / 100 + n / 400;
    if y % 400 == 0 {
      Multiple400(y);
    } else if y % 100 == 0 {
      Multiple100(y);
    }
  }

  lemma Multiple400(y: int)
    requires y % 400 == 0
    ensures y % 100 == 0 && y % 4 == 0
  {
    var k := y / 400;
    assert y == 100 * (4 * k) == 4 * (100 * k);
  }

  lemma Multiple100(y: int)
    requires y % 100 == 0
    ensures y % 4 == 0
  {
    var k := y / 100;
    assert y == 4 * (25 * k);
  }

  lemma DivStep4(n: nat)
    ensures (n + 1) / 4 == n / 4 + (if (n + 1) % 4 == 0 then 1 else 0)
  {
  }

  lemma DivStep100(n: nat)
    ensures (n + 1) / 100 == n / 100 + (if (n + 1) % 100 == 0 then 1 else 0)
  {
  }

  lemma DivStep400(n: nat)
    ensures (n + 1) / 400 == n / 400 + (if (n + 1) % 400 == 0 then 1 else 0)
  {
  }

  /** Moving across one month boundary adds the length of that month. */
  lemma MonthStep(y: int, m: int)
    requires 1 <= m < 12
    ensures DaysBeforeMonth(y, m + 1) == DaysBeforeMonth(y, m) + DaysInMonth(y, m)
  {
  }

  /** The first date, whose previous day Python cannot represent. */
  const FIRST_DATE: Date := Date(MIN_YEAR, 1, 1)

  /**
   * `d - timedelta(days=1)`: the calendar day before `d`, or `None` where
   * Python raises OverflowError (the day before 0001-01-01).
   */
  function PrevDay(d: Date): (r: Option<Date>)
    requires ValidDate(d)
    ensures r.None? <==> d == FIRST_DATE
    ensures r.Some? ==> ValidDate(r.value)
  {
    if d.day > 1 then Some(Date(d.year, d.month, d.day - 1))
    else if d.month > 1 then Some(Date(d.year, d.month - 1, DaysInMonth(d.year, d.month - 1)))
    else if d.year > MIN_YEAR then Some(Date(d.year - 1, 12, 31))
    else None
  }

  /** The previous day is exactly one day earlier on the ordinal scale. */
  lemma PrevDayOrdinal(d: Date)
    requires ValidDate(d) && d != FIRST_DATE
    ensures Ordinal(PrevDay(d).value) + 1 == Ordinal(d)
  {
    if d.day > 1 {
    } else if d.month > 1 {
      MonthStep(d.year, d.month - 1);
    } else {
      YearStep(d.year - 1);
      assert DaysBeforeMonth(d.year - 1, 12) == 334 + (if IsLeap(d.year - 1) then 1 else 0);
    }
  }

  /** The day before a Monday is a Sunday, and otherwise the weekday before. */
  lemma PrevDayWeekday(d: Date)
    requires ValidDate(d) && d != FIRST_DATE
    ensures IsoWeekday(PrevDay(d).value) == if IsoWeekday(d) == 1 then 7 else IsoWeekday(d) - 1
  {
    PrevDayOrdinal(d);
    ModStep7(Ordinal(d) - 1);
  }

  lemma ModStep7(n: int)
    ensures (n + 1) % 7 == if n % 7 == 6 then 0 else n % 7 + 1
  {
  }

  /** Python's ordering `a <= b` of `time` values: hour, minute, second, microsecond. */
  predicate TimeLe(a: Time, b: Time) {
    || a.hour < b.hour
    || (a.hour == b.hour && a.minute < b.minute)
    || (a.hour == b.hour && a.minute == b.minute && a.second < b.second)
    || (a.hour == b.hour && a.minute == b.minute && a.second == b.second && a.micro <= b.micro)
  }
}
