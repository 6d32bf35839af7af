/** The day logic of app/components/CalendarView.tsx: a fixed grid of 42
    cells, which of them belong to the month, which is today, the
    subscriptions billed on each day and the capped row of icons. */
module CalendarView {
  import opened Wrappers
  import opened Dates
  import opened Seqs
  import opened Types
  import CalendarGrid

  /** Six weeks of seven days. */
  const GridCells: nat := 42

  /** Most icons drawn in one cell. */
  const MaxIcons: nat := 4

  /** What one cell of the grid shows. */
  datatype DayCell = DayCell(day: int, isCurrentMonth: bool, isToday: bool, daySubscriptions: seq<Subscription>)

  /** `subscriptions.filter(sub => sub.date === day)` */
  function DaySubscriptions(subs: seq<Subscription>, day: int): (daySubs: seq<Subscription>)
    ensures IsSubsequence(daySubs, subs)
    ensures forall s :: s in daySubs <==> s in subs && s.date == day
    ensures forall s :: multiset(daySubs)[s] == if s.date == day then multiset(subs)[s] else 0
  {
    Filter(subs, (s: Subscription) => s.date == day)
  }

  /** Cell `i`: `day = i - firstDayOfMonth + 1`, in the month when
      `day > 0 && day <= daysInMonth`, today when `day === today`, with the
      subscriptions whose `date` is `day`. */
  function CellAt(firstDayOfMonth: int, daysInMonth: int, today: int, subs: seq<Subscription>, i: int): (cell: DayCell)
    ensures cell.day == i - firstDayOfMonth + 1
    ensures cell.isCurrentMonth <==> firstDayOfMonth <= i < firstDayOfMonth + daysInMonth
    ensures cell.isToday <==> i == firstDayOfMonth + today - 1
    ensures forall s :: s in cell.daySubscriptions <==> s in subs && s.date == cell.day
    ensures forall s :: multiset(cell.daySubscriptions)[s] == if s.date == cell.day then multiset(subs)[s] else 0
  {
    var day := i - firstDayOfMonth + 1;
    DayCell(day, day > 0 && day <= daysInMonth, day == today, DaySubscriptions(subs, day))
  }

  /** `Array.from({ length: 42 }, (_, i) => ...)`; `today` is the
      day-of-month of the clock, `new Date().getDate()`. */
  function Cells(firstDayOfMonth: int, daysInMonth: int, today: int, subs: seq<Subscription>): (cells: seq<DayCell>)
    ensures |cells| == GridCells
    ensures forall i :: 0 <= i < |cells| ==> cells[i] == CellAt(firstDayOfMonth, daysInMonth, today, subs, i)
  {
    seq(GridCells, i => CellAt(firstDayOfMonth, daysInMonth, today, subs, i))
  }

  /** The grid drawn for the month of `currentDate`. */
  function MonthCells(currentDate: Date, today: int, subs: seq<Subscription>): (cells: seq<DayCell>)
    ensures |cells| == GridCells
    ensures FirstWeekdayOf(currentDate) + DaysInMonthOf(currentDate) <= |cells|
    ensures forall i :: 0 <= i < |cells| ==>
              (cells[i].isCurrentMonth <==>
               FirstWeekdayOf(currentDate) <= i < FirstWeekdayOf(currentDate) + DaysInMonthOf(currentDate))
  {
    Cells(FirstWeekdayOf(currentDate), DaysInMonthOf(currentDate), today, subs)
  }

  /** With a first weekday `0..6` and at most 31 days, the cells of the
      month are exactly the run starting at the first weekday, so every day
      of the month is in exactly one cell. */
  lemma EachDayInOneCell(firstDayOfMonth: int, daysInMonth: int, today: int, subs: seq<Subscription>, d: int)
    requires 0 <= firstDayOfMonth <= 6 && daysInMonth <= 31
    requires 1 <= d <= daysInMonth
    ensures var cells := Cells(firstDayOfMonth, daysInMonth, today, subs);
            var i := firstDayOfMonth + d - 1;
            0 <= i < |cells| && cells[i].day == d && cells[i].isCurrentMonth
            && forall j :: 0 <= j < |cells| && cells[j].day == d ==> j == i
  {
  }

  /** The cells of the month are the indices `firstDayOfMonth` up to the
      one before `firstDayOfMonth + daysInMonth`; the others are padding. */
  lemma CurrentMonthRun(firstDayOfMonth: int, daysInMonth: int, today: int, subs: seq<Subscription>, j: int)
    requires 0 <= j < GridCells
    ensures Cells(firstDayOfMonth, daysInMonth, today, subs)[j].isCurrentMonth <==>
              firstDayOfMonth <= j < firstDayOfMonth + daysInMonth
  {
  }

  /** When the clock's day-of-month lies in the displayed month, exactly
      one cell is ringed as today, and it belongs to the month. */
  lemma TodayRingedOnce(firstDayOfMonth: int, daysInMonth: int, today: int, subs: seq<Subscription>)
    requires 0 <= firstDayOfMonth <= 6 && daysInMonth <= 31
    requires 1 <= today <= daysInMonth
    ensures var cells := Cells(firstDayOfMonth, daysInMonth, today, subs);
            var i := firstDayOfMonth + today - 1;
            0 <= i < |cells| && cells[i].isToday && cells[i].isCurrentMonth
            && forall j :: 0 <= j < |cells| && cells[j].isToday ==> j == i
  {
  }

  /** The 42-cell grid of this component and the blank-padded grid of
      `CalendarGrid` agree wherever the latter has a cell: a day of the
      month in the one is the same day in the other, a padding cell a blank. */
  lemma AgreesWithCalendarGrid(currentDate: Date, today: int, subs: seq<Subscription>, i: int)
    requires 0 <= i < |CalendarGrid.MonthGrid(currentDate)|
    ensures i < |MonthCells(currentDate, today, subs)|
    ensures var cell := MonthCells(currentDate, today, subs)[i];
            CalendarGrid.MonthGrid(currentDate)[i] == if cell.isCurrentMonth then Some(cell.day) else None
  {
    var firstDay, dim := FirstWeekdayOf(currentDate), DaysInMonthOf(currentDate);
    CalendarGrid.AllDaysPlacesEachDayOnce(firstDay, dim, i);
  }

  /** The icons of one cell: at most four, and the `+n` overflow label. */
  datatype IconRow = IconRow(shown: seq<Subscription>, overflow: Option<int>)

  /** `renderSubscriptionIcons`: `slice(0, 4)` and, past four, a label
      `+(length - 4)`. */
  function RenderSubscriptionIcons(daySubs: seq<Subscription>): (row: IconRow)
    ensures row.shown <= daySubs
    ensures |row.shown| == if |daySubs| < MaxIcons then |daySubs| else MaxIcons
    ensures row.overflow.Some? <==> |daySubs| > MaxIcons
    ensures |row.shown| + (if row.overflow.Some? then row.overflow.value else 0) == |daySubs|
  {
    var shown := if |daySubs| <= MaxIcons then daySubs else daySubs[..MaxIcons];
    IconRow(shown, if |daySubs| > MaxIcons then Some(|daySubs| - MaxIcons) else None)
  }

  /** The click handler of a cell: `isCurrentMonth && setSelectedDate(day)`. */
  function SelectOnClick(cell: DayCell): (selected: Option<int>)
    ensures selected.Some? <==> cell.isCurrentMonth
    ensures selected.Some? ==> selected.value == cell.day
  {
    if cell.isCurrentMonth then Some(cell.day) else None
  }

  /** A click selects a day only on a cell of the month, and then the day
      in that cell. */
  lemma ClickSelectsDayOfMonth(firstDayOfMonth: int, daysInMonth: int, today: int, subs: seq<Subscription>, i: int)
    requires 0 <= i < GridCells
    ensures var selected := SelectOnClick(Cells(firstDayOfMonth, daysInMonth, today, subs)[i]);
            (selected.Some? <==> firstDayOfMonth <= i < firstDayOfMonth + daysInMonth)
            && (selected.Some? ==> 1 <= selected.value <= daysInMonth && selected.value == i - firstDayOfMonth + 1)
  {
  }
}
