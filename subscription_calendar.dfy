/** The list logic of app/components/SuscriptionCalendar.tsx: the displayed
    monthly spend, adding a subscription with its "Every 1st" label,
    deleting one, and moving each subscription's billing day to its next
    30-day payment date. */
module SubscriptionCalendar {
  import opened Wrappers
  import opened Dates
  import opened Seqs
  import opened Types
  import ExpenseCalculations
  import CalendarGrid

  // ---------------------------------------------------------------------
  // The frequency label

  /** `date === 1 ? 'st' : date === 2 ? 'nd' : date === 3 ? 'rd' : 'th'` */
  function OrdinalSuffix(date: int): (suffix: string)
    ensures |suffix| == 2
    ensures suffix == "st" <==> date == 1
    ensures suffix == "nd" <==> date == 2
    ensures suffix == "rd" <==> date == 3
    ensures suffix == "th" <==> date != 1 && date != 2 && date != 3
  {
    if date == 1 then "st" else if date == 2 then "nd" else if date == 3 then "rd" else "th"
  }

  /** Only 1, 2 and 3 take a special suffix: 11, 12, 13 and also 21, 22,
      23 and 31 are labelled "th". */
  lemma OnlyFirstThreeAreSpecial()
    ensures OrdinalSuffix(11) == "th" && OrdinalSuffix(12) == "th" && OrdinalSuffix(13) == "th"
    ensures OrdinalSuffix(21) == "th" && OrdinalSuffix(22) == "th" && OrdinalSuffix(23) == "th"
    ensures OrdinalSuffix(31) == "th"
  {
  }

  predicate IsDigit(c: char) {
    '0' <= c <= '9'
  }

  function DigitChar(d: int): (c: char)
    requires 0 <= d < 10
    ensures IsDigit(c) && DigitValue(c) == d
  {
    (48 + d) as char
  }

  function DigitValue(c: char): (d: nat)
    ensures d < 10
  {
    if IsDigit(c) then (c as int) - 48 else 0
  }

  /** The decimal digits of `n`, as `${n}` prints them. */
  function NatString(n: nat): (s: string)
    ensures |s| >= 1
    ensures forall i :: 0 <= i < |s| ==> IsDigit(s[i])
    ensures s[0] == '0' ==> n == 0 && |s| == 1
    decreases n
  {
    if n < 10 then [DigitChar(n)] else NatString(n / 10) + [DigitChar(n % 10)]
  }

  predicate IsDigits(s: string) {
    |s| >= 1 && forall i :: 0 <= i < |s| ==> IsDigit(s[i])
  }

  /** Decimal text in the form `${n}` prints: digits with no leading zero
      (a lone "0" aside), after a minus sign for a negative number. */
  predicate IsDecimal(s: string) {
    if |s| > 0 && s[0] == '-' then IsDigits(s[1..]) && s[1] != '0'
    else IsDigits(s) && (s[0] == '0' ==> |s| == 1)
  }

  /** `${n}` */
  function IntString(n: int): (s: string)
    ensures |s| >= 1
    ensures s[0] == '-' <==> n < 0
    ensures n >= 0 ==> IsDigit(s[0])
    ensures forall i :: 1 <= i < |s| ==> IsDigit(s[i])
    ensures IsDecimal(s)
  {
    if n < 0 then "-" + NatString(-n) else NatString(n)
  }

  /** Reading decimal digits back. */
  function ParseDigits(s: string): nat {
    if s == [] then 0 else ParseDigits(s[..|s| - 1]) * 10 + DigitValue(s[|s| - 1])
  }

  /** Reading a possibly negative decimal number back. */
  function ParseInt(s: string): int {
    if |s| > 0 && s[0] == '-' then -(ParseDigits(s[1..]) as int) else ParseDigits(s)
  }

  /** The digits of a number read back as that number. */
  lemma {:induction false} NatStringRoundTrip(n: nat)
    ensures ParseDigits(NatString(n)) == n
    decreases n
  {
    if n >= 10 {
      NatStringRoundTrip(n / 10);
      var prefix := NatString(n / 10);
      assert (prefix + [DigitChar(n % 10)])[..|prefix|] == prefix;
    }
  }

  /** `${n}` read back is `n`, for negative numbers too. */
  lemma IntStringRoundTrip(n: int)
    ensures ParseInt(IntString(n)) == n
  {
    if n < 0 {
      NatStringRoundTrip(-n);
      assert ("-" + NatString(-n))[1..] == NatString(-n);
    } else {
      NatStringRoundTrip(n);
    }
  }

  /** Digits without a leading zero are the digits of the number they
      read as, and a leading digit other than zero makes that number
      positive. */
  lemma {:induction false} DigitsAreNatString(d: string)
    requires IsDigits(d) && (d[0] == '0' ==> |d| == 1)
    ensures NatString(ParseDigits(d)) == d
    ensures d[0] != '0' ==> ParseDigits(d) > 0
    decreases |d|
  {
    var last := d[|d| - 1];
    if |d| == 1 {
      assert d[..0] == [];
      assert DigitChar(DigitValue(last)) == last;
      assert d == [last];
    } else {
      var prefix := d[..|d| - 1];
      assert prefix[0] == d[0];
      DigitsAreNatString(prefix);
      var p := ParseDigits(prefix);
      var q := DigitValue(last);
      assert ParseDigits(d) == p * 10 + q;
      assert (p * 10 + q) / 10 == p && (p * 10 + q) % 10 == q;
      assert DigitChar(q) == last;
      assert d == prefix + [last];
    }
  }

  /** The decimal form of a number is unique: any text in that form is
      `${n}` of the number it reads as. */
  lemma DecimalIsIntString(s: string)
    requires IsDecimal(s)
    ensures s == IntString(ParseInt(s))
  {
    if |s| > 0 && s[0] == '-' {
      DigitsAreNatString(s[1..]);
      assert s == "-" + s[1..];
    } else {
      DigitsAreNatString(s);
    }
  }

  /** `Every ${date}${suffix}`: the label starts with "Every ", ends with
      the ordinal suffix, and the number between them is the day. */
  function FrequencyLabel(date: int): (text: string)
    ensures |text| >= 9
    ensures text[..6] == "Every "
    ensures text[|text| - 2..] == OrdinalSuffix(date)
    ensures ParseInt(text[6..|text| - 2]) == date
    ensures text[6..|text| - 2] == IntString(date)
  {
    var number := IntString(date);
    var text := "Every " + number + OrdinalSuffix(date);
    assert text[6..|text| - 2] == number;
    IntStringRoundTrip(date);
    text
  }

  /** Different days get different labels. */
  lemma FrequencyLabelInjective(a: int, b: int)
    requires FrequencyLabel(a) == FrequencyLabel(b)
    ensures a == b
  {
  }

  /** No label is the "Monthly" of the catalogue. */
  lemma FrequencyLabelIsNotMonthly(date: int)
    ensures FrequencyLabel(date) != "Monthly"
  {
    var text := FrequencyLabel(date);
    assert text[0] == text[..6][0] == 'E';
  }

  // ---------------------------------------------------------------------
  // Adding and deleting

  /** The record `addSubscription` builds: the catalogue entry with `date`,
      the label, nothing spent yet, and as start the calendar day `date` of
      the current month (`setDate(date)`, overflowing like it), at midnight. */
  function NewSubscription(item: CatalogItem, date: int, currentDate: Date): (s: Subscription)
    ensures s.name == item.name && s.image == item.image && s.color == item.color
    ensures s.amount == item.amount
    ensures s.date == date && s.totalSpent == 0.0
    ensures s.frequency == FrequencyLabel(date)
    ensures s.pausedUntil.None? && s.nextPaymentDate.None?
    ensures DayNumber(s.startDate) == DaysBefore(currentDate.monthIndex) + date - 1
    ensures s.startDate.timeOfDay == 0
    ensures 1 <= date <= DaysInMonth(currentDate.monthIndex) ==>
              s.startDate == DateTime(currentDate.monthIndex, date, 0)
  {
    var startDate := StartOfDay(SetDate(currentDate, date));
    if 1 <= date <= DaysInMonth(currentDate.monthIndex) then
      SameInstant(startDate, DateTime(currentDate.monthIndex, date, 0));
      Subscription(item.name, item.image, item.color, item.amount, date, FrequencyLabel(date), 0.0, startDate, None, None)
    else
      Subscription(item.name, item.image, item.color, item.amount, date, FrequencyLabel(date), 0.0, startDate, None, None)
  }

  /** An added subscription, never paused, is active for the expense
      engine exactly from its start on. */
  lemma NewSubscriptionActiveFromStart(item: CatalogItem, date: int, currentDate: Date, d: Date)
    ensures ExpenseCalculations.IsSubscriptionActive(NewSubscription(item, date, currentDate), d) <==>
              !Before(d, NewSubscription(item, date, currentDate).startDate)
  {
  }

  /** The `CalendarGrid` day filter only shows "Monthly" subscriptions, so
      it never shows a subscription added here. */
  lemma AddedNeverOnCalendarGrid(subs: seq<Subscription>, item: CatalogItem, date: int, addedOn: Date,
                                 currentDate: Date, day: int)
    ensures NewSubscription(item, date, addedOn) !in CalendarGrid.GetSubscriptionsForDay(subs, currentDate, day)
  {
    FrequencyLabelIsNotMonthly(date);
  }

  /** `subscriptions.filter(sub => sub !== subscriptionToDelete)` */
  function Without(subs: seq<Subscription>, target: Subscription): (rest: seq<Subscription>)
    ensures target !in rest
    ensures forall s :: s in rest <==> s in subs && s != target
    ensures IsSubsequence(rest, subs)
    ensures |rest| == |subs| - multiset(subs)[target]
  {
    var rest := Filter(subs, (s: Subscription) => s != target);
    assert multiset(subs) == multiset(rest) + multiset{}[target := multiset(subs)[target]];
    rest
  }

  /** The copies of `target` in `subs`. */
  function Copies(subs: seq<Subscription>, target: Subscription): (copies: seq<Subscription>)
    ensures forall i :: 0 <= i < |copies| ==> copies[i] == target
    ensures |copies| == multiset(subs)[target]
  {
    var copies := Filter(subs, (s: Subscription) => s == target);
    assert forall i :: 0 <= i < |copies| ==> copies[i] in copies;
    AllCopiesCount(copies, target);
    copies
  }

  lemma {:induction false} AllCopiesCount(xs: seq<Subscription>, target: Subscription)
    requires forall x :: x in xs ==> x == target
    ensures |xs| == multiset(xs)[target]
    decreases |xs|
  {
    if xs != [] {
      var init := xs[..|xs| - 1];
      assert xs == init + [xs[|xs| - 1]];
      assert forall x :: x in init ==> x in xs;
      AllCopiesCount(init, target);
      assert xs[|xs| - 1] in xs;
      assert multiset(xs) == multiset(init) + multiset{xs[|xs| - 1]};
    }
  }

  /** What is deleted and what is kept add up to the whole. */
  lemma {:induction false} SpendSplitsOnDelete(subs: seq<Subscription>, target: Subscription)
    ensures SumAmounts(subs) == SumAmounts(Without(subs, target)) + SumAmounts(Copies(subs, target))
    decreases |subs|
  {
    if subs != [] {
      var init, last := subs[..|subs| - 1], subs[|subs| - 1];
      SpendSplitsOnDelete(init, target);
      var kept := Filter(init, (s: Subscription) => s != target);
      var gone := Filter(init, (s: Subscription) => s == target);
      if last == target {
        assert (gone + [last])[..|gone|] == gone;
      } else {
        assert (kept + [last])[..|kept|] == kept;
      }
    }
  }

  /** `n` copies of one subscription cost `n` times its amount. */
  lemma {:induction false} SumOfCopies(xs: seq<Subscription>, target: Subscription, n: nat)
    requires |xs| == n
    requires forall i :: 0 <= i < |xs| ==> xs[i] == target
    ensures SumAmounts(xs) == target.amount * (n as real)
    decreases n
  {
    if xs != [] {
      SumOfCopies(xs[..|xs| - 1], target, n - 1);
      ExpenseCalculations.MultiplySucc(target.amount, n - 1);
    }
  }

  /** Deleting takes off the target's amount once for every copy of it. */
  lemma SpendWithout(subs: seq<Subscription>, target: Subscription)
    ensures SumAmounts(Without(subs, target)) == SumAmounts(subs) - target.amount * (multiset(subs)[target] as real)
  {
    SpendSplitsOnDelete(subs, target);
    SumOfCopies(Copies(subs, target), target, multiset(subs)[target]);
  }

  // ---------------------------------------------------------------------
  // The displayed monthly spend

  /** The header's monthly spend adds up every amount, paused or not: it is
      the expense engine's spend on any date plus the amounts of the
      subscriptions not active then. */
  lemma {:induction false} SpendIgnoresStatus(subs: seq<Subscription>, d: Date)
    ensures SumAmounts(subs) == ExpenseCalculations.MonthlySpend(subs, d)
              + SumAmounts(Filter(subs, (s: Subscription) => !ExpenseCalculations.IsSubscriptionActive(s, d)))
    decreases |subs|
  {
    if subs != [] {
      var init, last := subs[..|subs| - 1], subs[|subs| - 1];
      SpendIgnoresStatus(init, d);
      var idle := Filter(init, (s: Subscription) => !ExpenseCalculations.IsSubscriptionActive(s, d));
      if !ExpenseCalculations.IsSubscriptionActive(last, d) {
        assert (idle + [last])[..|idle|] == idle;
      }
    }
  }

  // ---------------------------------------------------------------------
  // The next payment date

  /** The date after `k` steps of `setDate(getDate() + 30)` from the start. */
  function PaymentCandidate(start: Date, k: nat): (d: Date)
    ensures DayNumber(d) == DayNumber(start) + 30 * k
    ensures d.timeOfDay == start.timeOfDay
  {
    AddDays(start, 30 * k)
  }

  /** How many 30-day steps the loop takes: the least `n >= k` whose date
      is not before `currentDate`, all earlier candidates being before it. */
  function PaymentSteps(start: Date, currentDate: Date, k: nat): (n: nat)
    requires k >= 1
    requires forall j :: 1 <= j < k ==> Before(PaymentCandidate(start, j), currentDate)
    ensures n >= k
    ensures !Before(PaymentCandidate(start, n), currentDate)
    ensures forall j :: 1 <= j < n ==> Before(PaymentCandidate(start, j), currentDate)
    decreases DayNumber(currentDate) - DayNumber(PaymentCandidate(start, k))
  {
    if Before(PaymentCandidate(start, k), currentDate) then PaymentSteps(start, currentDate, k + 1) else k
  }

  /** The next payment date: the first 30-day step from the start that is
      not before `currentDate`. */
  function NextPayment(start: Date, currentDate: Date): (next: Date)
    ensures !Before(next, currentDate)
    ensures DayNumber(next) >= DayNumber(start) + 30 && next.timeOfDay == start.timeOfDay
  {
    PaymentCandidate(start, PaymentSteps(start, currentDate, 1))
  }

  /** The least step is unique. */
  lemma LeastStep(start: Date, currentDate: Date, k: nat)
    requires k >= 1 && !Before(PaymentCandidate(start, k), currentDate)
    requires forall j :: 1 <= j < k ==> Before(PaymentCandidate(start, j), currentDate)
    ensures PaymentSteps(start, currentDate, 1) == k
  {
  }

  /** The loop of the second `useEffect`: 30 days after the start, then 30
      more while still before `currentDate`. */
  method NextPaymentDate(start: Date, currentDate: Date) returns (next: Date)
    ensures next == NextPayment(start, currentDate)
  {
    next := AddDays(start, 30);
    ghost var k: nat := 1;
    while Before(next, currentDate)
      invariant k >= 1 && next == PaymentCandidate(start, k)
      invariant forall j :: 1 <= j < k ==> Before(PaymentCandidate(start, j), currentDate)
      decreases DayNumber(currentDate) - DayNumber(next)
    {
      var later := AddDays(next, 30);
      SameInstant(later, PaymentCandidate(start, k + 1));
      next := later;
      k := k + 1;
    }
    LeastStep(start, currentDate, k);
  }

  /** The next payment is not before `currentDate`, lies a whole number of
      30-day periods (at least one) after the start, and, once the first
      payment is past, no more than 30 days after `currentDate`. */
  lemma NextPaymentBounds(start: Date, currentDate: Date)
    ensures !Before(NextPayment(start, currentDate), currentDate)
    ensures DayNumber(NextPayment(start, currentDate)) >= DayNumber(start) + 30
    ensures (DayNumber(NextPayment(start, currentDate)) - DayNumber(start)) % 30 == 0
    ensures Before(PaymentCandidate(start, 1), currentDate) ==>
              DayNumber(NextPayment(start, currentDate)) <= DayNumber(currentDate) + 30
  {
    var n := PaymentSteps(start, currentDate, 1);
    if n > 1 {
      assert Before(PaymentCandidate(start, n - 1), currentDate);
    }
  }

  /** `{ ...sub, date: nextPaymentDate.getDate() }`: the billing day moves to
      the day of the next payment; nothing else changes. */
  function WithNextPaymentDay(s: Subscription, currentDate: Date): (r: Subscription)
    ensures r.date == NextPayment(s.startDate, currentDate).day
    ensures 1 <= r.date <= 31
    ensures r.(date := s.date) == s
  {
    s.(date := NextPayment(s.startDate, currentDate).day)
  }

  /** `subscriptions.map(...)` of the second `useEffect`. */
  function RefreshedSubscriptions(subs: seq<Subscription>, currentDate: Date): (r: seq<Subscription>)
    ensures |r| == |subs|
    ensures forall i :: 0 <= i < |subs| ==> r[i] == WithNextPaymentDay(subs[i], currentDate)
  {
    seq(|subs|, i requires 0 <= i < |subs| => WithNextPaymentDay(subs[i], currentDate))
  }

  /** The body of the second `useEffect`, one subscription at a time. */
  method UpdatedSubscriptions(subs: seq<Subscription>, currentDate: Date) returns (updated: seq<Subscription>)
    ensures updated == RefreshedSubscriptions(subs, currentDate)
  {
    updated := [];
    for i := 0 to |subs|
      invariant |updated| == i
      invariant forall j :: 0 <= j < i ==> updated[j] == WithNextPaymentDay(subs[j], currentDate)
    {
      var next := NextPaymentDate(subs[i].startDate, currentDate);
      updated := updated + [subs[i].(date := next.day)];
    }
  }

  /** Refreshing again changes nothing: the next payment depends on the
      start date only, which refreshing keeps. */
  lemma RefreshIdempotent(subs: seq<Subscription>, currentDate: Date)
    ensures RefreshedSubscriptions(RefreshedSubscriptions(subs, currentDate), currentDate)
              == RefreshedSubscriptions(subs, currentDate)
  {
  }

  /** Sequences with the same amounts position by position sum alike. */
  lemma {:induction false} SameAmountsSameSum(a: seq<Subscription>, b: seq<Subscription>)
    requires |a| == |b|
    requires forall i :: 0 <= i < |a| ==> a[i].amount == b[i].amount
    ensures SumAmounts(a) == SumAmounts(b)
    decreases |a|
  {
    if a != [] {
      SameAmountsSameSum(a[..|a| - 1], b[..|b| - 1]);
    }
  }

  // ---------------------------------------------------------------------
  // The component's state

  /** The `subscriptions` and `currentDate` state of the component. */
  class CalendarState {
    var subscriptions: seq<Subscription>
    var currentDate: Date

    /** The initial state: no subscriptions, the clock's date. */
    constructor(today: Date)
      ensures subscriptions == [] && currentDate == today
    {
      subscriptions := [];
      currentDate := today;
    }

    /** `monthlySpend`: every amount added up. */
    function MonthlySpend(): (total: real)
      reads this
      ensures subscriptions == [] ==> total == 0.0
    {
      SumAmounts(subscriptions)
    }

    /** `addSubscription`: one new record at the end. */
    method AddSubscription(item: CatalogItem, date: int)
      modifies this
      ensures subscriptions == old(subscriptions) + [NewSubscription(item, date, old(currentDate))]
      ensures currentDate == old(currentDate)
      ensures MonthlySpend() == old(MonthlySpend()) + item.amount
    {
      var newSub := NewSubscription(item, date, currentDate);
      SumAmountsConcat(subscriptions, [newSub]);
      assert SumAmounts([newSub]) == SumAmounts([]) + newSub.amount;
      subscriptions := subscriptions + [newSub];
    }

    /** `deleteSubscription`: every copy of the target goes, the rest keep
      their order. */
    method DeleteSubscription(target: Subscription)
      modifies this
      ensures subscriptions == Without(old(subscriptions), target)
      ensures currentDate == old(currentDate)
      ensures MonthlySpend() == old(MonthlySpend()) - target.amount * (multiset(old(subscriptions))[target] as real)
    {
      SpendWithout(subscriptions, target);
      subscriptions := Without(subscriptions, target);
    }

    /** The second `useEffect`: every billing day moved to the next payment. */
    method RefreshPaymentDays()
      modifies this
      ensures subscriptions == RefreshedSubscriptions(old(subscriptions), currentDate)
      ensures currentDate == old(currentDate)
      ensures MonthlySpend() == old(MonthlySpend())
    {
      var updated := UpdatedSubscriptions(subscriptions, currentDate);
      SameAmountsSameSum(subscriptions, updated);
      subscriptions := updated;
    }
  }
}
