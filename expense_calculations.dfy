/** The expense engine of app/utils/expenseCalculations.ts: whether a
    subscription is active or paused on a date, what is spent in a month
    and in total, pausing and unpausing, and the last-three-months report. */
module ExpenseCalculations {
  import opened Wrappers
  import opened Dates
  import opened Seqs
  import opened Types

  // ---------------------------------------------------------------------
  // Status on a date

  /** `isSubscriptionPaused`: inside the half-open window
      `[startDate, pausedUntil)`. */
  function IsSubscriptionPaused(s: Subscription, date: Date): (paused: bool)
    ensures s.pausedUntil.None? ==> !paused
    ensures paused ==> !Before(date, s.startDate) && Before(date, s.pausedUntil.value)
    ensures s.pausedUntil.Some? && !Before(date, s.startDate) && Before(date, s.pausedUntil.value) ==> paused
  {
    match s.pausedUntil
    case Some(pausedUntil) => !Before(date, s.startDate) && Before(date, pausedUntil)
    case None => false
  }

  /** `isSubscriptionActive`: started, and not inside the pause window. */
  function IsSubscriptionActive(s: Subscription, date: Date): (active: bool)
    ensures Before(date, s.startDate) ==> !active
    ensures active <==> !Before(date, s.startDate) && !IsSubscriptionPaused(s, date)
  {
    if Before(date, s.startDate) then false
    else match s.pausedUntil
      case Some(pausedUntil) => !(!Before(date, s.startDate) && Before(date, pausedUntil))
      case None => true
  }

  /** The pause window: paused exactly inside `[startDate, pausedUntil)`,
      never without `pausedUntil` nor from `pausedUntil` on, and never
      active while paused. */
  lemma PauseWindow(s: Subscription, d: Date)
    ensures IsSubscriptionPaused(s, d) <==>
              s.pausedUntil.Some? && !Before(d, s.startDate) && Before(d, s.pausedUntil.value)
    ensures s.pausedUntil.None? ==> !IsSubscriptionPaused(s, d)
    ensures s.pausedUntil.Some? && !Before(d, s.pausedUntil.value) ==> !IsSubscriptionPaused(s, d)
    ensures IsSubscriptionPaused(s, d) ==> !IsSubscriptionActive(s, d)
  {
  }

  /** On every date a subscription is exactly one of: not yet started,
      paused, active. */
  lemma StatusTrichotomy(s: Subscription, d: Date)
    ensures Before(d, s.startDate) ==> !IsSubscriptionPaused(s, d) && !IsSubscriptionActive(s, d)
    ensures !Before(d, s.startDate) ==> (IsSubscriptionPaused(s, d) <==> !IsSubscriptionActive(s, d))
  {
  }

  // ---------------------------------------------------------------------
  // Monthly spend

  /** `calculateMonthlySpend`: the `reduce` adding the amount of each
      subscription active on `date`. */
  function MonthlySpend(subs: seq<Subscription>, date: Date): (total: real)
    ensures subs == [] ==> total == 0.0
    ensures (forall i :: 0 <= i < |subs| ==> !IsSubscriptionActive(subs[i], date)) ==> total == 0.0
  {
    if subs == [] then 0.0
    else
      var last := subs[|subs| - 1];
      MonthlySpend(subs[..|subs| - 1], date) + (if IsSubscriptionActive(last, date) then last.amount else 0.0)
  }

  /** The subscriptions active on `date`, in their order. */
  function ActiveOn(subs: seq<Subscription>, date: Date): (active: seq<Subscription>)
    ensures IsSubsequence(active, subs)
    ensures forall x :: x in active <==> x in subs && IsSubscriptionActive(x, date)
    ensures forall x :: multiset(active)[x] == if IsSubscriptionActive(x, date) then multiset(subs)[x] else 0
  {
    Filter(subs, x => IsSubscriptionActive(x, date))
  }

  /** The monthly spend is the sum of the amounts of exactly the active
      subscriptions; the empty list spends 0. */
  lemma {:induction false} MonthlySpendIsSumOfActive(subs: seq<Subscription>, date: Date)
    ensures MonthlySpend(subs, date) == SumAmounts(ActiveOn(subs, date))
    ensures subs == [] ==> MonthlySpend(subs, date) == 0.0
    decreases |subs|
  {
    if subs != [] {
      MonthlySpendIsSumOfActive(subs[..|subs| - 1], date);
      var kept := ActiveOn(subs[..|subs| - 1], date);
      if IsSubscriptionActive(subs[|subs| - 1], date) {
        assert (kept + [subs[|subs| - 1]])[..|kept|] == kept;
      }
    }
  }

  /** With no negative amount, the engine's monthly spend is between 0 and
      the plain sum of all amounts, and reaches it when all are active. */
  lemma {:induction false} MonthlySpendBounds(subs: seq<Subscription>, date: Date)
    requires forall i :: 0 <= i < |subs| ==> subs[i].amount >= 0.0
    ensures 0.0 <= MonthlySpend(subs, date) <= SumAmounts(subs)
    ensures (forall i :: 0 <= i < |subs| ==> IsSubscriptionActive(subs[i], date)) ==>
              MonthlySpend(subs, date) == SumAmounts(subs)
    decreases |subs|
  {
    if subs != [] {
      MonthlySpendBounds(subs[..|subs| - 1], date);
    }
  }

  // ---------------------------------------------------------------------
  // Total spent

  /** The dates `calculateTotalSpent` visits: `from`, then one month on
      (`setMonth(getMonth() + 1)`) after another while not after `through`. */
  function MonthSteps(from: Date, through: Date): (steps: seq<Date>)
    ensures steps == [] <==> Before(through, from)
    ensures steps != [] ==> steps[0] == from && Before(through, AddMonths(steps[|steps| - 1], 1))
    ensures forall i :: 0 <= i < |steps| ==> !Before(through, steps[i]) && !Before(steps[i], from)
    decreases DayNumber(through) - DayNumber(from)
  {
    if Before(through, from) then []
    else
      AddOneMonthIncreases(from);
      [from] + MonthSteps(AddMonths(from, 1), through)
  }

  /** How many of `steps` find `s` active. */
  function CountActive(s: Subscription, steps: seq<Date>): (n: nat)
    ensures n <= |steps|
  {
    if steps == [] then 0
    else CountActive(s, steps[..|steps| - 1]) + (if IsSubscriptionActive(s, steps[|steps| - 1]) then 1 else 0)
  }

  /** The amount added up over those of `steps` that find `s` active. */
  function SpentOver(s: Subscription, steps: seq<Date>): real {
    if steps == [] then 0.0
    else SpentOver(s, steps[..|steps| - 1]) + (if IsSubscriptionActive(s, steps[|steps| - 1]) then s.amount else 0.0)
  }

  /** What `calculateTotalSpent` returns for `through`. */
  function TotalSpent(s: Subscription, through: Date): (total: real)
    ensures Before(through, s.startDate) ==> total == 0.0
  {
    SpentOver(s, MonthSteps(s.startDate, through))
  }

  /** `calculateTotalSpent`: walk month by month from `startDate` while not
      after `currentDate`, adding the amount on each active month. */
  method CalculateTotalSpent(s: Subscription, currentDate: Date) returns (totalSpent: real)
    ensures totalSpent == TotalSpent(s, currentDate)
  {
    totalSpent := 0.0;
    var currentMonth := s.startDate;
    ghost var visited: seq<Date> := [];
    while !Before(currentDate, currentMonth)
      invariant visited + MonthSteps(currentMonth, currentDate) == MonthSteps(s.startDate, currentDate)
      invariant totalSpent == SpentOver(s, visited)
      decreases DayNumber(currentDate) - DayNumber(currentMonth)
    {
      if IsSubscriptionActive(s, currentMonth) {
        totalSpent := totalSpent + s.amount;
      }
      VisitOneMonth(s, visited, currentMonth, currentDate);
      visited := visited + [currentMonth];
      currentMonth := AddMonths(currentMonth, 1);
    }
    assert visited + [] == visited;
  }

  /** `a` added up `n` times. */
  function Repeated(a: real, n: nat): real {
    if n == 0 then 0.0 else Repeated(a, n - 1) + a
  }

  /** Adding `a` up `n` times is multiplying it by `n`. */
  lemma {:induction false} RepeatedIsProduct(a: real, n: nat)
    ensures Repeated(a, n) == a * (n as real)
  {
    if n > 0 {
      RepeatedIsProduct(a, n - 1);
      MultiplySucc(a, n - 1);
    }
  }

  /** What the loop adds up is the amount once for every active month. */
  lemma {:induction false} SpentOverIsRepeated(s: Subscription, steps: seq<Date>)
    ensures SpentOver(s, steps) == Repeated(s.amount, CountActive(s, steps))
    decreases |steps|
  {
    if steps != [] {
      SpentOverIsRepeated(s, steps[..|steps| - 1]);
    }
  }

  lemma MultiplySucc(a: real, n: nat)
    ensures a * ((n + 1) as real) == a * (n as real) + a
  {
  }

  /** One turn of the loop of `calculateTotalSpent`: the month visited moves
      from the months still ahead to the months done. */
  lemma VisitOneMonth(s: Subscription, visited: seq<Date>, month: Date, through: Date)
    requires !Before(through, month)
    ensures DayNumber(month) < DayNumber(AddMonths(month, 1))
    ensures visited + MonthSteps(month, through) == (visited + [month]) + MonthSteps(AddMonths(month, 1), through)
    ensures SpentOver(s, visited + [month])
              == SpentOver(s, visited) + (if IsSubscriptionActive(s, month) then s.amount else 0.0)
  {
    AddOneMonthIncreases(month);
    MonthStepsUnfold(month, through);
    ConcatShift(visited, month, MonthSteps(AddMonths(month, 1), through), MonthSteps(month, through));
    SpentOverAppend(s, visited, month);
  }

  /** The months from `month` through `through` are `month` followed by
      those from the next month on. */
  lemma MonthStepsUnfold(month: Date, through: Date)
    requires !Before(through, month)
    ensures MonthSteps(month, through) == [month] + MonthSteps(AddMonths(month, 1), through)
  {
  }

  lemma ConcatShift<T>(visited: seq<T>, x: T, later: seq<T>, all: seq<T>)
    requires all == [x] + later
    ensures visited + all == (visited + [x]) + later
  {
  }

  lemma SpentOverAppend(s: Subscription, visited: seq<Date>, month: Date)
    ensures SpentOver(s, visited + [month])
              == SpentOver(s, visited) + (if IsSubscriptionActive(s, month) then s.amount else 0.0)
  {
    assert (visited + [month])[..|visited|] == visited;
  }

  /** Nothing is spent before the subscription starts. */
  lemma TotalSpentBeforeStart(s: Subscription, through: Date)
    requires Before(through, s.startDate)
    ensures TotalSpent(s, through) == 0.0
  {
  }

  /** The months visited up to an earlier date are a prefix of those
      visited up to a later one. */
  lemma {:induction false} MonthStepsPrefix(from: Date, d1: Date, d2: Date)
    requires !Before(d2, d1)
    ensures MonthSteps(from, d1) <= MonthSteps(from, d2)
    decreases DayNumber(d1) - DayNumber(from)
  {
    if !Before(d1, from) {
      AddOneMonthIncreases(from);
      MonthStepsPrefix(AddMonths(from, 1), d1, d2);
    }
  }

  lemma {:induction false} SpentOverPrefix(s: Subscription, a: seq<Date>, b: seq<Date>)
    requires s.amount >= 0.0 && a <= b
    ensures SpentOver(s, a) <= SpentOver(s, b)
    decreases |b|
  {
    if |a| < |b| {
      assert a <= b[..|b| - 1];
      SpentOverPrefix(s, a, b[..|b| - 1]);
    } else {
      assert a == b;
    }
  }

  /** For a non-negative amount the total spent never decreases as the
      date advances. */
  lemma TotalSpentMonotone(s: Subscription, d1: Date, d2: Date)
    requires s.amount >= 0.0 && !Before(d2, d1)
    ensures TotalSpent(s, d1) <= TotalSpent(s, d2)
  {
    MonthStepsPrefix(s.startDate, d1, d2);
    SpentOverPrefix(s, MonthSteps(s.startDate, d1), MonthSteps(s.startDate, d2));
  }

  lemma {:induction false} CountActiveAll(s: Subscription, steps: seq<Date>)
    requires s.pausedUntil.None?
    requires forall i :: 0 <= i < |steps| ==> !Before(steps[i], s.startDate)
    ensures CountActive(s, steps) == |steps|
    decreases |steps|
  {
    if steps != [] {
      CountActiveAll(s, steps[..|steps| - 1]);
    }
  }

  /** A subscription that was never paused is charged on every visited
      month (so, by `SpentOverIsRepeated` and `RepeatedIsProduct`, its total
      is the amount times the number of visited months). */
  lemma TotalSpentNeverPaused(s: Subscription, through: Date)
    requires s.pausedUntil.None?
    ensures CountActive(s, MonthSteps(s.startDate, through)) == |MonthSteps(s.startDate, through)|
  {
    CountActiveAll(s, MonthSteps(s.startDate, through));
  }

  /** As written, the walk drifts after a start late in the month: from 31
      January 2024, one month on is 31 February, which becomes 2 March, so
      up to 31 March only two months are visited and February never is. */
  lemma MonthStepsFromJanuary31()
    ensures MonthSteps(DateTime(24_288, 31, 0), DateTime(24_290, 31, 0))
              == [DateTime(24_288, 31, 0), DateTime(24_290, 2, 0)]
  {
    var jan31, mar31 := DateTime(24_288, 31, 0), DateTime(24_290, 31, 0);
    var mar2, apr2 := DateTime(24_290, 2, 0), DateTime(24_291, 2, 0);
    assert DaysInMonth(24_289) == 29;
    DaysBeforeNext(24_288);
    DaysBeforeNext(24_289);
    SameInstant(AddMonths(jan31, 1), mar2);
    DaysBeforeNext(24_290);
    SameInstant(AddMonths(mar2, 1), apr2);
    DayNumberOrder(mar31, jan31);
    DayNumberOrder(mar31, mar2);
    DayNumberOrder(mar31, apr2);
    assert MonthSteps(apr2, mar31) == [];
  }

  /** The `k`-th and later steps of the walk one calendar month at a time:
      step `k` is `from` moved `k` months with its day clamped into that
      month, and the walk stops at the first step after `through`. */
  function ClampedSteps(from: Date, through: Date, k: nat): (steps: seq<Date>)
    ensures forall i :: 0 <= i < |steps| ==>
              steps[i] == AddMonthsClamped(from, k + i) && !Before(through, steps[i])
    ensures Before(through, AddMonthsClamped(from, k + |steps|))
    decreases through.monthIndex + 1 - from.monthIndex - k
  {
    var step := AddMonthsClamped(from, k);
    if Before(through, step) then []
    else
      DayNumberOrder(through, step);
      [step] + ClampedSteps(from, through, k + 1)
  }

  /** The months evidently meant to be charged: one step in every calendar
      month from the start's, none skipped and none twice. Every month
      before the month of `through` is visited, and that month too once its
      (clamped) billing day is reached. */
  function CalendarMonthSteps(from: Date, through: Date): (steps: seq<Date>)
    ensures steps == [] <==> Before(through, from)
    ensures steps != [] ==> steps[0] == from
    ensures forall i :: 0 <= i < |steps| ==>
              steps[i].monthIndex == from.monthIndex + i && !Before(through, steps[i])
    ensures !Before(through, from) ==>
              through.monthIndex - from.monthIndex <= |steps| <= through.monthIndex - from.monthIndex + 1
  {
    ClampedStepsCount(from, through);
    ClampedSteps(from, through, 0)
  }

  lemma ClampedStepsCount(from: Date, through: Date)
    ensures ClampedSteps(from, through, 0) == [] <==> Before(through, from)
    ensures !Before(through, from) ==>
              through.monthIndex - from.monthIndex <= |ClampedSteps(from, through, 0)|
                <= through.monthIndex - from.monthIndex + 1
  {
    var steps := ClampedSteps(from, through, 0);
    assert AddMonthsClamped(from, 0) == from;
    if steps != [] {
      DayNumberOrder(through, steps[|steps| - 1]);
    }
    DayNumberOrder(AddMonthsClamped(from, |steps|), through);
  }

  /** From 31 January 2024 through 31 March 2024 the calendar-month walk
      visits January, 29 February and March. */
  lemma CalendarMonthStepsFromJanuary31()
    ensures CalendarMonthSteps(DateTime(24_288, 31, 0), DateTime(24_290, 31, 0))
              == [DateTime(24_288, 31, 0), DateTime(24_289, 29, 0), DateTime(24_290, 31, 0)]
  {
    var jan31, mar31 := DateTime(24_288, 31, 0), DateTime(24_290, 31, 0);
    var feb29, apr30 := DateTime(24_289, 29, 0), DateTime(24_291, 30, 0);
    assert DaysInMonth(24_289) == 29 && DaysInMonth(24_291) == 30;
    assert AddMonthsClamped(jan31, 0) == jan31 && AddMonthsClamped(jan31, 1) == feb29;
    assert AddMonthsClamped(jan31, 2) == mar31 && AddMonthsClamped(jan31, 3) == apr30;
    DayNumberOrder(mar31, apr30);
    assert ClampedSteps(jan31, mar31, 3) == [];
    DayNumberOrder(mar31, feb29);
    DayNumberOrder(mar31, jan31);
    assert ClampedSteps(jan31, mar31, 1) == [feb29, mar31];
  }

  /** The total evidently meant: the amount once for every active calendar
      month from the start through `through`. */
  function TotalSpentPerCalendarMonth(s: Subscription, through: Date): (total: real)
    ensures Before(through, s.startDate) ==> total == 0.0
    ensures total == Repeated(s.amount, CountActive(s, CalendarMonthSteps(s.startDate, through)))
  {
    SpentOverIsRepeated(s, CalendarMonthSteps(s.startDate, through));
    SpentOver(s, CalendarMonthSteps(s.startDate, through))
  }

  /** A never-paused subscription started on 31 January 2024 has been
      charged twice by 31 March 2024 as written, where one charge per
      calendar month makes three. */
  lemma TotalSpentFromJanuary31(s: Subscription)
    requires s.startDate == DateTime(24_288, 31, 0) && s.pausedUntil.None?
    ensures TotalSpent(s, DateTime(24_290, 31, 0)) == s.amount * 2.0
    ensures TotalSpentPerCalendarMonth(s, DateTime(24_290, 31, 0)) == s.amount * 3.0
  {
    var mar31 := DateTime(24_290, 31, 0);
    MonthStepsFromJanuary31();
    CalendarMonthStepsFromJanuary31();
    TotalSpentNeverPaused(s, mar31);
    SpentOverIsRepeated(s, MonthSteps(s.startDate, mar31));
    RepeatedIsProduct(s.amount, 2);
    var calendar := CalendarMonthSteps(s.startDate, mar31);
    forall i | 0 <= i < |calendar|
      ensures !Before(calendar[i], s.startDate)
    {
      DayNumberOrder(calendar[i], s.startDate);
    }
    CountActiveAll(s, calendar);
    RepeatedIsProduct(s.amount, 3);
  }

  // ---------------------------------------------------------------------
  // Pausing and unpausing

  /** Where a pause starts: the billing day in the month of `currentDate`
      (`setDate(billingDay)`), or a month later if that is already past. */
  function PauseStart(billingDay: int, currentDate: Date): (start: Date)
    ensures start.timeOfDay == currentDate.timeOfDay
    ensures !Before(SetDate(currentDate, billingDay), currentDate) ==> start == SetDate(currentDate, billingDay)
    ensures Before(SetDate(currentDate, billingDay), currentDate) ==>
              start == AddMonths(SetDate(currentDate, billingDay), 1)
    ensures billingDay >= 1 ==> !Before(start, currentDate)
  {
    var anchor := SetDate(currentDate, billingDay);
    if Before(anchor, currentDate) then
      DaysBeforeNext(currentDate.monthIndex);
      AddMonths(anchor, 1)
    else anchor
  }

  /** The first payment after a pause ending at `pauseEnd`: the billing day
      in that month, or a month later if that is not after `pauseEnd`. */
  function PaymentAfter(billingDay: int, pauseEnd: Date): (next: Date)
    ensures next.timeOfDay == pauseEnd.timeOfDay
    ensures Before(pauseEnd, SetDate(pauseEnd, billingDay)) ==> next == SetDate(pauseEnd, billingDay)
    ensures !Before(pauseEnd, SetDate(pauseEnd, billingDay)) ==>
              next == AddMonths(SetDate(pauseEnd, billingDay), 1)
    ensures billingDay >= 1 ==> Before(pauseEnd, next)
  {
    var anchor := SetDate(pauseEnd, billingDay);
    if !Before(pauseEnd, anchor) then
      DaysBeforeNext(pauseEnd.monthIndex);
      AddMonths(anchor, 1)
    else anchor
  }

  /** `pauseSubscription`: a copy of `s` paused from the next billing day for
      `monthsToPause` months, with the first payment after the pause. */
  method PauseSubscription(s: Subscription, monthsToPause: int, currentDate: Date) returns (r: Subscription)
    ensures r.(pausedUntil := s.pausedUntil, nextPaymentDate := s.nextPaymentDate) == s
    ensures r.pausedUntil == Some(AddMonths(PauseStart(s.date, currentDate), monthsToPause))
    ensures r.nextPaymentDate == Some(PaymentAfter(s.date, r.pausedUntil.value))
    ensures s.date >= 1 && monthsToPause >= 1 ==> Before(currentDate, r.pausedUntil.value)
    ensures s.date >= 1 ==> Before(r.pausedUntil.value, r.nextPaymentDate.value)
    ensures s.date >= 1 && monthsToPause >= 1 && !Before(currentDate, s.startDate) ==>
              IsSubscriptionPaused(r, currentDate) && !IsSubscriptionActive(r, currentDate)
  {
    var pauseStartDate := SetDate(currentDate, s.date);
    if Before(pauseStartDate, currentDate) {
      pauseStartDate := AddMonths(pauseStartDate, 1);
    }
    var pauseEndDate := AddMonths(pauseStartDate, monthsToPause);
    var nextPaymentDate := SetDate(pauseEndDate, s.date);
    if !Before(pauseEndDate, nextPaymentDate) {
      nextPaymentDate := AddMonths(nextPaymentDate, 1);
    }
    r := s.(pausedUntil := Some(pauseEndDate), nextPaymentDate := Some(nextPaymentDate));
  }

  /** `unpauseSubscription`: clears both pause fields, nothing else changes. */
  function UnpauseSubscription(s: Subscription): (r: Subscription)
    ensures r.pausedUntil == None && r.nextPaymentDate == None
    ensures r.name == s.name && r.image == s.image && r.color == s.color && r.amount == s.amount
    ensures r.date == s.date && r.frequency == s.frequency && r.totalSpent == s.totalSpent
    ensures r.startDate == s.startDate
  {
    s.(pausedUntil := None, nextPaymentDate := None)
  }

  /** Unpausing twice is unpausing once; unpausing forgets any pause (so
      unpausing a paused copy gives back the unpaused original); and an
      unpaused subscription is active on every date from its start. */
  lemma UnpauseProperties(s: Subscription, paused: Subscription, d: Date)
    ensures UnpauseSubscription(UnpauseSubscription(s)) == UnpauseSubscription(s)
    ensures paused.(pausedUntil := s.pausedUntil, nextPaymentDate := s.nextPaymentDate) == s ==>
              UnpauseSubscription(paused) == UnpauseSubscription(s)
    ensures IsSubscriptionActive(UnpauseSubscription(s), d) <==> !Before(d, s.startDate)
  {
  }

  // ---------------------------------------------------------------------
  // The last three months

  /** One entry of the report: a month (0 = January, standing for its
      localised name) and the monthly spend computed for it. */
  datatype MonthTotal = MonthTotal(month: int, total: real)

  /** The report entry for `date`. */
  function EntryFor(subs: seq<Subscription>, date: Date): MonthTotal {
    MonthTotal(date.Month(), MonthlySpend(subs, date))
  }

  /** `getLastThreeMonthsPayments`: for i = 1, 2, 3 the date `i` months back
      (`setMonth(getMonth() - i)`), pushed and then reversed, so the oldest
      comes first. */
  method GetLastThreeMonthsPayments(subs: seq<Subscription>, currentDate: Date) returns (result: seq<MonthTotal>)
    ensures |result| == 3
    ensures forall j :: 0 <= j < 3 ==> result[j] == EntryFor(subs, AddMonths(currentDate, j - 3))
    ensures Before(AddMonths(currentDate, -3), AddMonths(currentDate, -2))
    ensures Before(AddMonths(currentDate, -2), AddMonths(currentDate, -1))
    ensures Before(AddMonths(currentDate, -1), currentDate)
  {
    var pushed: seq<MonthTotal> := [];
    for i := 1 to 4
      invariant |pushed| == i - 1
      invariant forall j :: 0 <= j < i - 1 ==> pushed[j] == EntryFor(subs, AddMonths(currentDate, -(j + 1)))
    {
      var date := AddMonths(currentDate, -i);
      pushed := pushed + [MonthTotal(date.Month(), MonthlySpend(subs, date))];
    }
    result := Reverse(pushed);
    MonthShift(currentDate.monthIndex - 3, 1);
    MonthShift(currentDate.monthIndex - 2, 1);
  }

  /** As written, the report dated 31 March 2024 labels its last entry
      March, the current month, and has no entry for February: 31 February
      overflows to 2 March. */
  lemma LastThreeMonthsOnMarch31()
    ensures var d := LocalDate(2024, 2, 31);
            AddMonths(d, -1).Month() == 2 && AddMonths(d, -1).day == 2
            && AddMonths(d, -2).Month() == 0 && AddMonths(d, -3).Month() == 11
  {
    var d := LocalDate(2024, 2, 31);
    assert d == DateTime(24_290, 31, 0);
    assert DaysInMonth(24_289) == 29;
  }

  /** `k` months after `d`, with the day clamped to the length of the
      target month instead of overflowing. */
  function AddMonthsClamped(d: Date, k: int): (r: Date)
    ensures r.monthIndex == d.monthIndex + k
    ensures r.timeOfDay == d.timeOfDay
    ensures r.day <= d.day && (r.day < d.day ==> r.day == DaysInMonth(d.monthIndex + k))
  {
    var length := DaysInMonth(d.monthIndex + k);
    DateTime(d.monthIndex + k, if d.day <= length then d.day else length, d.timeOfDay)
  }

  /** The report as evidently intended: the three calendar months before
      the month of `currentDate`, oldest first, each with its spend. */
  method GetLastThreeCalendarMonthsPayments(subs: seq<Subscription>, currentDate: Date)
    returns (result: seq<MonthTotal>)
    ensures |result| == 3
    ensures forall j :: 0 <= j < 3 ==>
              result[j].month == (currentDate.monthIndex + j - 3) % 12
              && result[j].total == MonthlySpend(subs, AddMonthsClamped(currentDate, j - 3))
  {
    var pushed: seq<MonthTotal> := [];
    for i := 1 to 4
      invariant |pushed| == i - 1
      invariant forall j :: 0 <= j < i - 1 ==> pushed[j] == EntryFor(subs, AddMonthsClamped(currentDate, -(j + 1)))
    {
      var date := AddMonthsClamped(currentDate, -i);
      pushed := pushed + [MonthTotal(date.Month(), MonthlySpend(subs, date))];
    }
    result := Reverse(pushed);
  }
}
