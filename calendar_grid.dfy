/** The day logic of app/components/CalendarGrid.tsx: the month laid out as
    leading blanks followed by the days, which subscriptions a day shows,
    and whether a day is drawn as paused. */
module CalendarGrid {
  import opened Wrappers
  import opened Dates
  import opened Seqs
  import opened Types
  import ExpenseCalculations

  /** `allDays`: `firstDayOfMonth` blanks (`null`), then the days
      `1..daysInMonth`. */
  function AllDays(firstDayOfMonth: nat, daysInMonth: nat): (allDays: seq<Option<int>>)
    ensures |allDays| == firstDayOfMonth + daysInMonth
    ensures forall i :: 0 <= i < firstDayOfMonth ==> allDays[i] == None
    ensures forall i :: firstDayOfMonth <= i < |allDays| ==> allDays[i] == Some(i - firstDayOfMonth + 1)
  {
    var emptyDays := seq(firstDayOfMonth, _ => None);
    var days := seq(daysInMonth, index => Some(index + 1));
    emptyDays + days
  }

  /** The grid drawn for the month of `currentDate`. */
  function MonthGrid(currentDate: Date): (grid: seq<Option<int>>)
    ensures 28 <= |grid| <= 37
    ensures |grid| == FirstWeekdayOf(currentDate) + DaysInMonthOf(currentDate)
    ensures forall i :: 0 <= i < |grid| ==> (grid[i].Some? <==> FirstWeekdayOf(currentDate) <= i)
  {
    AllDays(FirstWeekdayOf(currentDate), DaysInMonthOf(currentDate))
  }

  /** Every day of the month sits in exactly one cell, the one after the
      blanks and the days before it, and every cell holds a blank or a day. */
  lemma AllDaysPlacesEachDayOnce(firstDayOfMonth: nat, daysInMonth: nat, i: int)
    requires 0 <= i < |AllDays(firstDayOfMonth, daysInMonth)|
    ensures AllDays(firstDayOfMonth, daysInMonth)[i].Some? <==> firstDayOfMonth <= i
    ensures forall k :: AllDays(firstDayOfMonth, daysInMonth)[i] == Some(k) <==>
              1 <= k <= daysInMonth && i == firstDayOfMonth + k - 1
  {
  }

  /** `new Date(currentDate.getFullYear(), currentDate.getMonth(), day)`:
      midnight of day `day` of the displayed month. */
  function CheckDate(currentDate: Date, day: int): (checkDate: Date)
    ensures DayNumber(checkDate) == DaysBefore(currentDate.monthIndex) + day - 1
    ensures checkDate.timeOfDay == 0
    ensures 1 <= day <= DaysInMonth(currentDate.monthIndex) ==>
              checkDate == DateTime(currentDate.monthIndex, day, 0)
  {
    assert currentDate.Year() * 12 + currentDate.Month() == currentDate.monthIndex;
    LocalDate(currentDate.Year(), currentDate.Month(), day)
  }

  /** Column arithmetic: a cell `k - 1` places after a first column of
      `(before + 6) % 7` is in column `(before + k - 1 + 6) % 7`. */
  lemma ColumnShift(i: int, firstDay: int, before: int, k: int)
    requires firstDay == (before + 6) % 7 && i == firstDay + k - 1
    ensures i % 7 == (before + k - 1 + 6) % 7
  {
    assert before + 6 == 7 * ((before + 6) / 7) + firstDay;
  }

  /** The grid has seven columns starting on Sunday: the cell holding day
      `k` is in the column of that day's weekday. */
  lemma MonthGridColumnIsWeekday(currentDate: Date, i: int, k: int)
    requires 0 <= i < |MonthGrid(currentDate)| && MonthGrid(currentDate)[i] == Some(k)
    ensures i % 7 == Weekday(CheckDate(currentDate, k))
  {
    MonthGridCell(currentDate, i, k);
    ColumnShift(i, FirstWeekdayOf(currentDate), DaysBefore(currentDate.monthIndex), k);
  }

  lemma MonthGridCell(currentDate: Date, i: int, k: int)
    requires 0 <= i < |MonthGrid(currentDate)| && MonthGrid(currentDate)[i] == Some(k)
    ensures i == FirstWeekdayOf(currentDate) + k - 1
  {
    AllDaysPlacesEachDayOnce(FirstWeekdayOf(currentDate), DaysInMonthOf(currentDate), i);
  }

  /** The test inside `getSubscriptionsForDay`: started on or before the
      check date, monthly, and billed on that day of the month. */
  predicate ShownOnDay(currentDate: Date, day: int, s: Subscription) {
    !Before(CheckDate(currentDate, day), s.startDate)
    && s.frequency == "Monthly"
    && s.startDate.day == day
  }

  /** `getSubscriptionsForDay(day)` */
  function GetSubscriptionsForDay(subs: seq<Subscription>, currentDate: Date, day: int): (shown: seq<Subscription>)
    ensures IsSubsequence(shown, subs)
    ensures forall s :: s in shown <==>
              s in subs && !Before(CheckDate(currentDate, day), s.startDate)
              && s.frequency == "Monthly" && s.startDate.day == day
    ensures forall s :: multiset(shown)[s] == if ShownOnDay(currentDate, day, s) then multiset(subs)[s] else 0
  {
    Filter(subs, s => ShownOnDay(currentDate, day, s))
  }

  /** Only monthly subscriptions are ever shown. */
  lemma NonMonthlyNeverShown(subs: seq<Subscription>, currentDate: Date, day: int, s: Subscription)
    requires s.frequency != "Monthly"
    ensures s !in GetSubscriptionsForDay(subs, currentDate, day)
  {
  }

  /** A subscription is shown on at most one day of a month. */
  lemma ShownOnOneDay(subs: seq<Subscription>, currentDate: Date, d1: int, d2: int, s: Subscription)
    requires s in GetSubscriptionsForDay(subs, currentDate, d1)
    requires s in GetSubscriptionsForDay(subs, currentDate, d2)
    ensures d1 == d2
  {
  }

  /** A monthly subscription shows on its billing day in every month from
      the month it starts on, as long as that day exists in the month; in
      the starting month itself only when it starts at midnight. */
  lemma MonthlyShownFromStart(subs: seq<Subscription>, currentDate: Date, s: Subscription)
    requires s in subs && s.frequency == "Monthly"
    requires s.startDate.day <= DaysInMonth(currentDate.monthIndex)
    requires s.startDate.monthIndex < currentDate.monthIndex
             || (s.startDate.monthIndex == currentDate.monthIndex && s.startDate.timeOfDay == 0)
    ensures s in GetSubscriptionsForDay(subs, currentDate, s.startDate.day)
  {
    if s.startDate.monthIndex < currentDate.monthIndex {
      DaysBeforeMonotone(s.startDate.monthIndex, currentDate.monthIndex);
    }
  }

  /** A monthly subscription never shows in a month before the one it
      starts in. */
  lemma NotShownBeforeStartMonth(subs: seq<Subscription>, currentDate: Date, day: int, s: Subscription)
    requires currentDate.monthIndex < s.startDate.monthIndex
    requires 1 <= day <= DaysInMonth(currentDate.monthIndex)
    ensures s !in GetSubscriptionsForDay(subs, currentDate, day)
  {
    DayNumberOrder(CheckDate(currentDate, day), s.startDate);
  }

  /** `isPausedDay(day, subscription)`: `pausedUntil` is after the check
      date; unlike `isSubscriptionPaused` there is no lower bound. */
  function IsPausedDay(currentDate: Date, day: int, s: Subscription): (paused: bool)
    ensures s.pausedUntil.None? ==> !paused
    ensures s.pausedUntil.Some? ==> (paused <==> Before(CheckDate(currentDate, day), s.pausedUntil.value))
  {
    match s.pausedUntil
    case Some(pausedUntil) => Before(CheckDate(currentDate, day), pausedUntil)
    case None => false
  }

  /** `isPausedDay` agrees with the engine's `isSubscriptionPaused` on every
      check date from the start on, and so on every icon the grid draws. */
  lemma PausedDayAgreesWithEngine(subs: seq<Subscription>, currentDate: Date, day: int, s: Subscription)
    ensures !Before(CheckDate(currentDate, day), s.startDate) ==>
              (IsPausedDay(currentDate, day, s) <==>
               ExpenseCalculations.IsSubscriptionPaused(s, CheckDate(currentDate, day)))
    ensures s in GetSubscriptionsForDay(subs, currentDate, day) ==>
              (IsPausedDay(currentDate, day, s) <==>
               ExpenseCalculations.IsSubscriptionPaused(s, CheckDate(currentDate, day)))
  {
  }
}
