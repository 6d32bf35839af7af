/** Local calendar dates as a JavaScript `Date` holds them: a proleptic
    Gregorian civil date plus the milliseconds elapsed since midnight.
    Months are counted from January of year 0 (`monthIndex = year * 12 + month`,
    `month` 0-based as `getMonth()` returns it), so `setMonth(getMonth() + k)`
    is `monthIndex + k`.  Days are counted from 1 January of year 0 by
    `DayNumber`; the order of dates is the order of their timestamps. */
module Dates {

  const MsPerDay: int := 86_400_000

  predicate IsLeapYear(year: int) {
    year % 4 == 0 && (year % 100 != 0 || year % 400 == 0)
  }

  /** Length of the month `monthIndex` (January of year 0 is 0). */
  function DaysInMonth(monthIndex: int): (n: int)
    ensures 28 <= n <= 31
  {
    var year, month := monthIndex / 12, monthIndex % 12;
    if month == 1 then (if IsLeapYear(year) then 29 else 28)
    else if month == 3 || month == 5 || month == 8 || month == 10 then 30
    else 31
  }

  /** A date-time before normalisation; `Date` below is the normalised kind. */
  datatype DateTime = DateTime(monthIndex: int, day: int, timeOfDay: int) {
    /** `getFullYear()` */
    function Year(): int { monthIndex / 12 }
    /** `getMonth()`, 0 = January */
    function Month(): (m: int) ensures 0 <= m < 12 { monthIndex % 12 }
    predicate Valid() {
      1 <= day <= DaysInMonth(monthIndex) && 0 <= timeOfDay < MsPerDay
    }
  }

  type Date = d: DateTime | d.Valid() witness DateTime(0, 1, 0)

  /** Days from 1 January of year 0 to the first day of month `monthIndex`
      (negative before it): the lengths of the months in between, summed. */
  function DaysBefore(monthIndex: int): int
    decreases if monthIndex < 0 then -monthIndex else monthIndex
  {
    if monthIndex == 0 then 0
    else if monthIndex > 0 then DaysBefore(monthIndex - 1) + DaysInMonth(monthIndex - 1)
    else DaysBefore(monthIndex + 1) - DaysInMonth(monthIndex)
  }

  /** The day a date falls on, counted from 1 January of year 0. */
  function DayNumber(d: DateTime): int {
    DaysBefore(d.monthIndex) + d.day - 1
  }

  /** `a < b` on JavaScript dates: the timestamp of `a` is the smaller one. */
  predicate Before(a: Date, b: Date) {
    DayNumber(a) < DayNumber(b) || (DayNumber(a) == DayNumber(b) && a.timeOfDay < b.timeOfDay)
  }

  /** The day of the week, 0 = Sunday as `getDay()` returns it
      (1 January of year 0 was a Saturday). */
  function Weekday(d: Date): (w: int)
    ensures 0 <= w < 7
  {
    (DayNumber(d) + 6) % 7
  }

  /** Consecutive months are `DaysInMonth` days apart. */
  lemma DaysBeforeNext(monthIndex: int)
    ensures DaysBefore(monthIndex + 1) == DaysBefore(monthIndex) + DaysInMonth(monthIndex)
  {
  }

  /** Later months start later: at least a whole month later. */
  lemma {:induction false} DaysBeforeMonotone(a: int, b: int)
    requires a < b
    ensures DaysBefore(a) + DaysInMonth(a) <= DaysBefore(b)
    decreases b - a
  {
    DaysBeforeNext(a);
    if a + 1 < b {
      DaysBeforeMonotone(a + 1, b);
    }
  }

  /** Shifting a month index moves its first day in the same direction. */
  lemma MonthShift(monthIndex: int, k: int)
    ensures k > 0 ==> DaysBefore(monthIndex) < DaysBefore(monthIndex + k)
    ensures k < 0 ==> DaysBefore(monthIndex + k) < DaysBefore(monthIndex)
  {
    if k > 0 {
      DaysBeforeMonotone(monthIndex, monthIndex + k);
    } else if k < 0 {
      DaysBeforeMonotone(monthIndex + k, monthIndex);
    }
  }

  /** A valid date lies inside its month: the day numbers of different
      valid dates differ, and their order is the calendar order. */
  lemma DayNumberOrder(a: Date, b: Date)
    ensures DayNumber(a) < DayNumber(b) <==>
              a.monthIndex < b.monthIndex || (a.monthIndex == b.monthIndex && a.day < b.day)
    ensures DayNumber(a) == DayNumber(b) <==> a.monthIndex == b.monthIndex && a.day == b.day
  {
    if a.monthIndex < b.monthIndex {
      DaysBeforeMonotone(a.monthIndex, b.monthIndex);
    } else if b.monthIndex < a.monthIndex {
      DaysBeforeMonotone(b.monthIndex, a.monthIndex);
    }
  }

  /** Two dates with the same timestamp are the same date. */
  lemma SameInstant(a: Date, b: Date)
    requires DayNumber(a) == DayNumber(b) && a.timeOfDay == b.timeOfDay
    ensures a == b
  {
    DayNumberOrder(a, b);
  }

  /** Date comparison is a strict total order: irreflexive, transitive, and
      any two different dates are comparable. */
  lemma BeforeIsStrictOrder(a: Date, b: Date, c: Date)
    ensures !Before(a, a)
    ensures Before(a, b) && Before(b, c) ==> Before(a, c)
    ensures Before(a, b) ==> !Before(b, a)
    ensures a != b ==> Before(a, b) || Before(b, a)
  {
    if a != b && !Before(a, b) && !Before(b, a) {
      SameInstant(a, b);
    }
  }

  /** The JavaScript `Date` overflow rule: day `day` of month `monthIndex`,
      where day 0 is the last day of the month before, day 32 of a 31-day
      month is the 1st of the next, and so on. */
  function Normalize(monthIndex: int, day: int, timeOfDay: int): (r: Date)
    requires 0 <= timeOfDay < MsPerDay
    ensures DayNumber(r) == DaysBefore(monthIndex) + day - 1
    ensures r.timeOfDay == timeOfDay
    ensures 1 <= day <= DaysInMonth(monthIndex) ==> r.monthIndex == monthIndex && r.day == day
    decreases if day < 1 then 1 else 0, if day < 1 then 1 - day else day
  {
    if day < 1 then
      DaysBeforeNext(monthIndex - 1);
      Normalize(monthIndex - 1, day + DaysInMonth(monthIndex - 1), timeOfDay)
    else if day > DaysInMonth(monthIndex) then
      DaysBeforeNext(monthIndex);
      Normalize(monthIndex + 1, day - DaysInMonth(monthIndex), timeOfDay)
    else
      DateTime(monthIndex, day, timeOfDay)
  }

  /** `new Date(year, month, day)` for a full year (see `NewDate` for the
      years 0 to 99): local midnight, any of the three may overflow. */
  function LocalDate(year: int, month: int, day: int): (r: Date)
    ensures DayNumber(r) == DaysBefore(year * 12 + month) + day - 1 && r.timeOfDay == 0
    ensures 1 <= day <= DaysInMonth(year * 12 + month) ==> r == DateTime(year * 12 + month, day, 0)
  {
    Normalize(year * 12 + month, day, 0)
  }

  /** The year `new Date(year, month, day)` builds a date in: the years 0
      to 99 stand for 1900 to 1999. */
  function FullYear(year: int): (y: int)
    ensures 0 <= year <= 99 ==> y == 1900 + year
    ensures !(0 <= year <= 99) ==> y == year
  {
    if 0 <= year <= 99 then 1900 + year else year
  }

  /** `new Date(year, month, day)` with JavaScript's two-digit year rule:
      `LocalDate` of the full year. */
  function NewDate(year: int, month: int, day: int): (r: Date)
    ensures DayNumber(r) == DaysBefore(FullYear(year) * 12 + month) + day - 1 && r.timeOfDay == 0
  {
    LocalDate(FullYear(year), month, day)
  }

  /** `new Date(0, 2, 0)` is 28 February 1900 (1900 is not a leap year),
      while `LocalDate(0, 2, 0)` is 29 February of year 0. */
  lemma TwoDigitYearShifts()
    ensures NewDate(0, 2, 0) == DateTime(1900 * 12 + 1, 28, 0)
    ensures LocalDate(0, 2, 0) == DateTime(1, 29, 0)
  {
    SameInstant(LocalDate(0, 2, 0), DateTime(1, 29, 0));
    var d := LocalDate(1900, 2, 0);
    DaysBeforeNext(1900 * 12 + 1);
    assert DaysInMonth(1900 * 12 + 1) == 28 by {
      assert (1900 * 12 + 1) / 12 == 1900 && (1900 * 12 + 1) % 12 == 1;
    }
    SameInstant(d, DateTime(1900 * 12 + 1, 28, 0));
  }

  /** `d.setDate(n)`: day `n` counted from the first of `d`'s month. */
  function SetDate(d: Date, n: int): (r: Date)
    ensures DayNumber(r) == DaysBefore(d.monthIndex) + n - 1
    ensures r.timeOfDay == d.timeOfDay
  {
    Normalize(d.monthIndex, n, d.timeOfDay)
  }

  /** `d.setDate(d.getDate() + n)`: exactly `n` days later. */
  function AddDays(d: Date, n: int): (r: Date)
    ensures DayNumber(r) == DayNumber(d) + n
    ensures r.timeOfDay == d.timeOfDay
  {
    SetDate(d, d.day + n)
  }

  /** `getDay()` advances by one every day and repeats every week. */
  lemma WeekdayAfterDays(d: Date, n: int)
    ensures Weekday(AddDays(d, n)) == (Weekday(d) + n) % 7
    ensures Weekday(AddDays(d, 7 * n)) == Weekday(d)
  {
    WeekShift(DayNumber(d) + 6, n);
  }

  lemma WeekShift(x: int, n: int)
    ensures (x + n) % 7 == (x % 7 + n) % 7
    ensures (x + 7 * n) % 7 == x % 7
  {
    assert x + n == 7 * (x / 7) + (x % 7 + n);
    assert x + 7 * n == 7 * (x / 7 + n) + x % 7;
  }

  /** `d.setMonth(d.getMonth() + k)`: the same day-of-month `k` months on,
      overflowing into the month after when that month is too short.
      It moves forward for `k > 0` and backward for `k < 0`. */
  function AddMonths(d: Date, k: int): (r: Date)
    ensures DayNumber(r) == DaysBefore(d.monthIndex + k) + d.day - 1
    ensures r.timeOfDay == d.timeOfDay
    ensures k > 0 ==> Before(d, r)
    ensures k < 0 ==> Before(r, d)
    ensures k == 0 ==> r == d
  {
    MonthShift(d.monthIndex, k);
    Normalize(d.monthIndex + k, d.day, d.timeOfDay)
  }

  /** The calendar day of `d` at midnight: what is left of a date after
      `toISOString().split('T')[0]` is parsed back. */
  function StartOfDay(d: Date): (r: Date)
    ensures DayNumber(r) == DayNumber(d) && r.timeOfDay == 0
  {
    DateTime(d.monthIndex, d.day, 0)
  }

  /** Adding one month strictly increases a date, by at least 28 days. */
  lemma AddOneMonthIncreases(d: Date)
    ensures Before(d, AddMonths(d, 1))
    ensures DayNumber(d) + 28 <= DayNumber(AddMonths(d, 1))
  {
    DaysBeforeNext(d.monthIndex);
  }

  /** `new Date(year, month + 1, 0).getDate()`: the length of the month,
      see `DaysInMonthOfIsDayZero`. */
  function DaysInMonthOf(d: Date): (n: int)
    ensures 28 <= n <= 31
  {
    DaysInMonth(d.monthIndex)
  }

  /** Day 0 of the next month is the last day of this one. */
  lemma DaysInMonthOfIsDayZero(d: Date)
    ensures LocalDate(d.Year(), d.Month() + 1, 0) == DateTime(d.monthIndex, DaysInMonthOf(d), 0)
  {
    assert d.Year() * 12 + d.Month() == d.monthIndex;
    var lastDay := LocalDate(d.Year(), d.Month() + 1, 0);
    DaysBeforeNext(d.monthIndex);
    SameInstant(lastDay, DateTime(d.monthIndex, DaysInMonth(d.monthIndex), 0));
  }

  /** `new Date(year, month, 1).getDay()`: the weekday of the first of the
      month, see `FirstWeekdayOfIsDayOne`. */
  function FirstWeekdayOf(d: Date): (w: int)
    ensures 0 <= w < 7
  {
    Weekday(DateTime(d.monthIndex, 1, 0))
  }

  /** Day 1 of the month is the first of the month. */
  lemma FirstWeekdayOfIsDayOne(d: Date)
    ensures Weekday(LocalDate(d.Year(), d.Month(), 1)) == FirstWeekdayOf(d)
  {
    var year, month := d.Year(), d.Month();
    assert year * 12 + month == d.monthIndex;
    assert LocalDate(year, month, 1) == DateTime(d.monthIndex, 1, 0);
  }

  /** The usual closed form of `DaysBefore`: 365 days a year, plus one for
      each leap year passed, plus the months of the current year. */
  function DaysBeforeClosed(monthIndex: int): int {
    var year, month := monthIndex / 12, monthIndex % 12;
    365 * year + (year + 3) / 4 - (year + 99) / 100 + (year + 399) / 400
      + [0, 31, 59, 90, 120, 151, 181, 212, 243, 273, 304, 334][month]
      + (if IsLeapYear(year) && month >= 2 then 1 else 0)
  }

  lemma CeilingStep4(y: int)
    ensures (y + 4) / 4 - (y + 3) / 4 == (if y % 4 == 0 then 1 else 0)
  {
    assert y == 4 * (y / 4) + y % 4;
  }

  lemma CeilingStep100(y: int)
    ensures (y + 100) / 100 - (y + 99) / 100 == (if y % 100 == 0 then 1 else 0)
    ensures y % 100 == 0 ==> y % 4 == 0
  {
    assert y == 100 * (y / 100) + y % 100;
    if y % 100 == 0 { assert y == 4 * (25 * (y / 100)); }
  }

  lemma CeilingStep400(y: int)
    ensures (y + 400) / 400 - (y + 399) / 400 == (if y % 400 == 0 then 1 else 0)
    ensures y % 400 == 0 ==> y % 100 == 0
  {
    assert y == 400 * (y / 400) + y % 400;
    if y % 400 == 0 { assert y == 100 * (4 * (y / 400)); }
  }

  lemma ClosedStep(monthIndex: int)
    ensures DaysBeforeClosed(monthIndex + 1) == DaysBeforeClosed(monthIndex) + DaysInMonth(monthIndex)
  {
    var year, month := monthIndex / 12, monthIndex % 12;
    assert monthIndex == 12 * year + month;
    if month < 11 {
      assert (monthIndex + 1) / 12 == year && (monthIndex + 1) % 12 == month + 1;
    } else {
      assert (monthIndex + 1) / 12 == year + 1 && (monthIndex + 1) % 12 == 0;
      CeilingStep4(year);
      CeilingStep100(year);
      CeilingStep400(year);
    }
  }

  /** The month-by-month sum agrees with the closed form everywhere. */
  lemma DaysBeforeIsClosed(monthIndex: int)
    ensures DaysBefore(monthIndex) == DaysBeforeClosed(monthIndex)
  {
    if monthIndex >= 0 {
      ClosedForward(monthIndex);
    } else {
      ClosedBackward(monthIndex);
    }
  }

  lemma {:induction false} ClosedForward(monthIndex: nat)
    ensures DaysBefore(monthIndex) == DaysBeforeClosed(monthIndex)
  {
    if monthIndex > 0 {
      var before := monthIndex - 1;
      ClosedForward(before);
      ClosedStep(before);
      assert before + 1 == monthIndex;
    }
  }

  lemma {:induction false} ClosedBackward(monthIndex: int)
    requires monthIndex <= 0
    ensures DaysBefore(monthIndex) == DaysBeforeClosed(monthIndex)
    decreases -monthIndex
  {
    if monthIndex < 0 {
      ClosedBackward(monthIndex + 1);
      ClosedStep(monthIndex);
    }
  }

  /** 1 January 2024 was a Monday. */
  lemma Monday2024()
    ensures Weekday(LocalDate(2024, 0, 1)) == 1
  {
    DaysBefore2024();
  }

  lemma DaysBefore2024()
    ensures DaysBefore(24_288) == 739_251
  {
    DaysBeforeIsClosed(24_288);
    assert 24_288 / 12 == 2024 && 24_288 % 12 == 0;
    assert (2024 + 3) / 4 == 506 && (2024 + 99) / 100 == 21 && (2024 + 399) / 400 == 6;
  }

  /** 1 January 1970, day 719528, was a Thursday. */
  lemma Thursday1970()
    ensures DayNumber(LocalDate(1970, 0, 1)) == 719_528
    ensures Weekday(LocalDate(1970, 0, 1)) == 4
  {
    DaysBefore1970();
  }

  lemma DaysBefore1970()
    ensures DaysBefore(23_640) == 719_528
  {
    DaysBeforeIsClosed(23_640);
    assert 23_640 / 12 == 1970 && 23_640 % 12 == 0;
    assert (1970 + 3) / 4 == 493 && (1970 + 99) / 100 == 20 && (1970 + 399) / 400 == 5;
  }
}
