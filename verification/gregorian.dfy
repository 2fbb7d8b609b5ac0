/**
  The proleptic Gregorian calendar as ECMAScript's `Date` counts it (section
  21.4.1 of ECMA-262): days are numbered from 1 January 1970 (day 0, a
  Thursday), months run 0..11, and `MakeDay` folds an out-of-range month or day
  into the neighbouring month or year, which is what `new Date(y, m, d)` does.
  Time of day is kept to the minute; time zones are not modelled.
 */
module Gregorian {

  /** A calendar date: `month` is 0-based as in `Date.prototype.getMonth`. */
  datatype Date = Date(year: int, month: int, day: int)

  /** A date and a time of day, in minutes after midnight. */
  datatype Timestamp = Timestamp(date: Date, minute: int)

  predicate IsLeapYear(y: int) {
    y % 4 == 0 && (y % 100 != 0 || y % 400 == 0)
  }

  function DaysInYear(y: int): (n: int)
    ensures n == 365 || n == 366
    ensures n == 366 <==> IsLeapYear(y)
  {
    if IsLeapYear(y) then 366 else 365
  }

  function DaysInMonth(y: int, m: int): (n: int)
    requires 0 <= m < 12
    ensures 28 <= n <= 31
    ensures n == 29 <==> m == 1 && IsLeapYear(y)
  {
    if m == 1 then (if IsLeapYear(y) then 29 else 28)
    else if m == 3 || m == 5 || m == 8 || m == 10 then 30
    else 31
  }

  /** Days of year `y` before the first of month `m` (the table behind MonthFromTime). */
  function MonthStart(y: int, m: int): int
    requires 0 <= m < 12
  {
    var table := [0, 31, 59, 90, 120, 151, 181, 212, 243, 273, 304, 334];
    table[m] + (if m >= 2 && IsLeapYear(y) then 1 else 0)
  }

  /** ECMA-262 DayFromYear: the day number of 1 January of year `y`. */
  function DayFromYear(y: int): int {
    365 * (y - 1970) + (y - 1969) / 4 - (y - 1901) / 100 + (y - 1601) / 400
  }

  /** ECMA-262 MakeDay(year, month, date), month and date unbounded. */
  function MakeDay(year: int, month: int, date: int): int {
    var ym := year + month / 12;
    var mn := month % 12;
    DayFromYear(ym) + MonthStart(ym, mn) + date - 1
  }

  /** ECMA-262 WeekDay: 0 is Sunday. */
  function WeekDay(t: int): (w: int)
    ensures 0 <= w < 7
  {
    (t + 4) % 7
  }

  predicate ValidDate(d: Date) {
    0 <= d.month < 12 && 1 <= d.day <= DaysInMonth(d.year, d.month)
  }

  predicate ValidTimestamp(t: Timestamp) {
    ValidDate(t.date) && 0 <= t.minute < 24 * 60
  }

  function DayNumber(d: Date): int {
    MakeDay(d.year, d.month, d.day)
  }

  /** The time value of a timestamp, in minutes since the epoch. */
  function TimeValue(t: Timestamp): int {
    DayNumber(t.date) * (24 * 60) + t.minute
  }

  /** The time value of midnight at the start of `d` (what `new Date("yyyy-mm-dd")` denotes). */
  function DayStart(d: Date): int {
    TimeValue(Timestamp(d, 0))
  }

  /** Chronological order of dates, field by field. */
  predicate DateBefore(a: Date, b: Date) {
    a.year < b.year || (a.year == b.year && (a.month < b.month || (a.month == b.month && a.day < b.day)))
  }

  /** Consecutive years are DaysInYear apart, as ECMA-262 states of DayFromYear. */
  lemma DayFromYearStep(y: int)
    ensures DayFromYear(y + 1) == DayFromYear(y) + DaysInYear(y)
  {
    FloorStep(y - 1969, 4);
    FloorStep(y - 1901, 100);
    FloorStep(y - 1601, 400);
    ShiftedRemainder(y, 4, 492);
    ShiftedRemainder(y, 100, 19);
    ShiftedRemainder(y, 400, 4);
  }

  /** Floor division steps up by one exactly at multiples of the divisor. */
  lemma FloorStep(a: int, d: int)
    requires d > 0
    ensures (a + 1) / d == a / d + (if (a + 1) % d == 0 then 1 else 0)
  {
    var q, r := a / d, a % d;
    assert a == d * q + r && 0 <= r < d;
    if r == d - 1 {
      assert a + 1 == d * (q + 1);
      DivExact(a + 1, d, q + 1, 0);
    } else {
      DivExact(a + 1, d, q, r + 1);
    }
  }

  lemma ShiftedRemainder(y: int, d: int, k: int)
    requires d > 0
    ensures (y - d * k) % d == y % d
  {
    DivExact(y - d * k, d, y / d - k, y % d);
  }

  lemma DivExact(a: int, d: int, q: int, r: int)
    requires d > 0 && a == d * q + r && 0 <= r < d
    ensures a / d == q && a % d == r
  {
    var q', r' := a / d, a % d;
    assert d * (q' - q) == r - r';
    ProductBetween(d, q' - q);
  }

  lemma ProductBetween(d: int, k: int)
    requires d > 0 && -d < d * k < d
    ensures k == 0
  {
    if k >= 1 {
      MulAtLeast(d, k);
    } else if k <= -1 {
      MulAtLeast(d, -k);
    }
  }

  lemma MulAtLeast(d: int, k: int)
    requires d > 0 && k >= 1
    ensures d * k >= d
  {
  }

  /** The first of month m+1 follows the last day of month m. */
  lemma MonthStartStep(y: int, m: int)
    requires 0 <= m < 11
    ensures MonthStart(y, m + 1) == MonthStart(y, m) + DaysInMonth(y, m)
  {
  }

  lemma LastMonthEndsYear(y: int)
    ensures MonthStart(y, 11) + DaysInMonth(y, 11) == DaysInYear(y)
  {
  }

  /**
    Day 0 of month m+1 is the last day of month m, for every month number
    (this is why `new Date(y, m + 1, 0).getDate()` is the length of month m).
   */
  lemma DayZeroOfNextMonth(year: int, month: int)
    ensures MakeDay(year, month + 1, 0) == MakeDay(year, month, DaysInMonth(year + month / 12, month % 12))
  {
    var ym, mn := year + month / 12, month % 12;
    if mn < 11 {
      assert (month + 1) / 12 == month / 12 && (month + 1) % 12 == mn + 1;
      MonthStartStep(ym, mn);
    } else {
      assert (month + 1) / 12 == month / 12 + 1 && (month + 1) % 12 == 0;
      DayFromYearStep(ym);
      LastMonthEndsYear(ym);
    }
  }

  /** The weekday of the first of the next month advances by the month's length. */
  lemma NextMonthWeekDay(year: int, month: int)
    ensures WeekDay(MakeDay(year, month + 1, 1))
         == (WeekDay(MakeDay(year, month, 1)) + DaysInMonth(year + month / 12, month % 12)) % 7
  {
    var t0 := MakeDay(year, month, 1);
    var n := DaysInMonth(year + month / 12, month % 12);
    DayZeroOfNextMonth(year, month);
    assert MakeDay(year, month + 1, 1) == MakeDay(year, month + 1, 0) + 1;
    assert MakeDay(year, month, n) == t0 + n - 1;
    ModAdd(t0 + 4, n, 7);
  }

  lemma ModAdd(x: int, n: int, d: int)
    requires d > 0
    ensures (x + n) % d == (x % d + n) % d
  {
    var q, r := x / d, x % d;
    var q2, r2 := (r + n) / d, (r + n) % d;
    assert x + n == d * (q + q2) + r2;
    DivExact(x + n, d, q + q2, r2);
  }

  /** For an in-range month, MakeDay does no carrying. */
  lemma DayNumberInYear(d: Date)
    requires 0 <= d.month < 12
    ensures DayNumber(d) == DayFromYear(d.year) + MonthStart(d.year, d.month) + d.day - 1
  {
    DivExact(d.month, 12, 0, d.month);
  }

  /** Within a year, valid dates are numbered consecutively and in order. */
  lemma DayOfYearBounds(d: Date)
    requires ValidDate(d)
    ensures 0 <= DayNumber(d) - DayFromYear(d.year) < DaysInYear(d.year)
  {
    DayNumberInYear(d);
    if d.month < 11 {
      MonthStartBelow(d.year, d.month);
    }
  }

  lemma MonthStartBelow(y: int, m: int)
    requires 0 <= m < 11
    ensures MonthStart(y, m) + DaysInMonth(y, m) <= MonthStart(y, 11)
  {
  }

  lemma {:induction false} DayFromYearMonotone(a: int, b: int)
    requires a < b
    ensures DayFromYear(a) + DaysInYear(a) <= DayFromYear(b)
    decreases b - a
  {
    DayFromYearStep(a);
    if a + 1 < b {
      DayFromYearMonotone(a + 1, b);
    }
  }

  /**
    Comparing the time values of two valid dates, as `Date` comparison does,
    is the same as comparing them field by field.
   */
  lemma DayNumberOrder(a: Date, b: Date)
    requires ValidDate(a) && ValidDate(b)
    ensures DayNumber(a) < DayNumber(b) <==> DateBefore(a, b)
    ensures DayNumber(a) == DayNumber(b) <==> a == b
  {
    DayOfYearBounds(a);
    DayOfYearBounds(b);
    DayNumberInYear(a);
    DayNumberInYear(b);
    if a.year < b.year {
      DayFromYearMonotone(a.year, b.year);
    } else if b.year < a.year {
      DayFromYearMonotone(b.year, a.year);
    } else if a.month < b.month {
      MonthOrder(a.year, a.month, b.month);
    } else if b.month < a.month {
      MonthOrder(a.year, b.month, a.month);
    }
  }

  lemma MonthOrder(y: int, m1: int, m2: int)
    requires 0 <= m1 < m2 < 12
    ensures MonthStart(y, m1) + DaysInMonth(y, m1) <= MonthStart(y, m2)
  {
  }
}
