# calendarious: subscription calendar core in Dafny

calendarious is a Next.js app that shows a user's recurring subscriptions
(Netflix, Spotify, ...) on a month calendar. It also shows the monthly spend
and lets the user add, delete, pause and unpause subscriptions. This project
models the parts of the app that compute, rather than draw:

- the expense engine `app/utils/expenseCalculations.ts`. It decides whether a
  subscription is active or paused on a date, and computes the monthly spend,
  the total spent since the start, a pause and an unpause, and the
  last-three-months report;
- the day logic of `app/components/CalendarGrid.tsx`. It lays the month out
  as leading blanks followed by the days, picks the subscriptions shown on a
  day, and decides whether a day is drawn as paused;
- the 42-cell grid of `app/components/CalendarView.tsx`. It decides which
  cells belong to the month, which cell is today, which subscriptions are
  billed on each day, and how the row of at most four icons is capped;
- the list logic of `app/components/SuscriptionCalendar.tsx`. It covers the
  displayed monthly spend, adding a subscription with its "Every 1st" label,
  deleting one, and the effect that moves each billing day to the next
  30-day payment date.

JavaScript `Date` is modelled in `dates.dfy`. A local instant is a civil date
and the milliseconds since midnight. The date is counted as
`monthIndex = year * 12 + month` plus a day of the month. Every JavaScript
overflow rule is written out: `setDate(n)`, `setMonth(getMonth() + k)` and
`new Date(y, m, d)` with a day 0, a day 31 of a 30-day month, or a negative
month all use the same overflow. Dates compare by timestamp.
`DaysBeforeIsClosed` proves that the month-by-month day count agrees with the
Gregorian closed form. Two known dates pin the weekday down: 1 January 1970
was a Thursday and 1 January 2024 a Monday.

Modules and files:

- `wrappers.dfy` holds `Option`.
- `seqs.dfy` holds `Filter`, `IsSubsequence` and `Reverse`.
- Each of the other files is one module.

The source's loops, its `map` and its in-place `Date` updates are methods
proved against a specification function:

- `CalculateTotalSpent` (the `while` loop of `calculateTotalSpent`)
- `PauseSubscription` (straight-line `setDate`/`setMonth` updates of `Date` objects)
- `GetLastThreeMonthsPayments` (the `for` loop) and its corrected version
- `NextPaymentDate` (the `while` loop of the second `useEffect`)
- `UpdatedSubscriptions` (the `map` over the list, one element at a time)

The component state that `SuscriptionCalendar.tsx` updates is the class
`CalendarState`.

The `Subscription` record used by the engine carries the optional
`pausedUntil` and `nextPaymentDate` fields. The file that declares them,
`app/utils/Types.ts`, is not part of this model. `app/components/Types.ts`
declares the record without them. The model's record has both, as `Option`s
of dates.

## Model

| member | source | states |
|---|---|---|
| Types.CatalogueIsMonthly | app/components/Types.ts:16-26 | the catalogue has nine entries, each "Monthly", each with a positive amount and a name of its own |
| Types.SumAmountsConcat | app/components/SuscriptionCalendar.tsx:38 | the sum of the amounts of a concatenation is the sum of the two sums |
| Types.SumAmounts | app/components/SuscriptionCalendar.tsx:38 | the `reduce` adding every amount: 0 for no subscriptions, and not negative when no amount is |
| Dates.Normalize | app/components/CalendarGrid.tsx:21 | an out-of-range day rolls over into the neighbouring months: the result lies exactly `day - 1` days after the first of the month, at the same time, and is that very date when the day is in range |
| Dates.LocalDate | app/components/CalendarGrid.tsx:32 | for a full year `y` (not 0..99), `new Date(y, m, d)` is local midnight `d - 1` days after the first of month `m`, and is exactly that day when `d` is in range |
| Dates.SetDate | app/utils/expenseCalculations.ts:29 | `setDate(n)` lands `n - 1` days after the first of the date's month and keeps the time of day |
| Dates.AddDays | app/components/SuscriptionCalendar.tsx:29 | `setDate(getDate() + n)` is exactly `n` days later, at the same time |
| Dates.AddMonths | app/utils/expenseCalculations.ts:21 | `setMonth(getMonth() + k)` keeps the day-of-month and time, overflowing past a short month; it moves strictly forward for `k > 0`, strictly back for `k < 0` and not at all for `k = 0` |
| Dates.AddOneMonthIncreases | app/utils/expenseCalculations.ts:21 | one month on is strictly later, by at least 28 days |
| Dates.StartOfDay | app/components/SuscriptionCalendar.tsx:50 | keeping only the calendar day gives midnight of the same day |
| Dates.DayNumberOrder | app/utils/expenseCalculations.ts:61 | comparing valid dates is comparing (month, day) in calendar order, and equal day numbers mean the same calendar day |
| Dates.SameInstant | app/utils/expenseCalculations.ts:61 | two valid dates with the same timestamp are the same date |
| Dates.BeforeIsStrictOrder | app/utils/expenseCalculations.ts:61 | `<` on dates is a strict total order: irreflexive, transitive, asymmetric, and any two different dates are comparable |
| Dates.Weekday | app/components/CalendarGrid.tsx:22 | `getDay()` is a number 0..6 |
| Dates.WeekdayAfterDays | app/components/CalendarGrid.tsx:22 | `getDay()` advances by one with each day and repeats every seven days |
| Dates.NewDate | app/components/CalendarGrid.tsx:32 | `new Date(y, m, d)` with the two-digit year rule: a year 0..99 means 1900 + y (`FullYear`), otherwise it is kept, and the date is counted from the first of month `m` of that year |
| Dates.TwoDigitYearShifts | app/components/CalendarGrid.tsx:21 | `new Date(0, 2, 0)` is 28 February 1900, while `LocalDate(0, 2, 0)` is 29 February of year 0: the two differ for the years 0..99 |
| Dates.DaysInMonthOf | app/components/CalendarGrid.tsx:21 | the length of the month is 28..31 (tied to `new Date(y, m + 1, 0).getDate()` by `DaysInMonthOfIsDayZero`) |
| Dates.FirstWeekdayOf | app/components/CalendarGrid.tsx:22 | the first weekday is 0..6 (tied to `new Date(y, m, 1).getDay()` by `FirstWeekdayOfIsDayOne`) |
| Dates.DaysInMonthOfIsDayZero | app/components/CalendarGrid.tsx:21 | day 0 of the next month is the last day of this month, so `getDate()` of it is the month's length |
| Dates.FirstWeekdayOfIsDayOne | app/components/CalendarGrid.tsx:22 | `getDay()` of day 1 of the month is the first weekday the grid is laid out from |
| Dates.DaysBeforeIsClosed | app/components/CalendarGrid.tsx:21-22 | the month-by-month day count equals the Gregorian closed form (365 days a year plus the leap days) for every month, before year 0 too |
| Dates.Thursday1970 | app/components/CalendarGrid.tsx:22 | `new Date(1970, 0, 1)` is day 719528 and its `getDay()` is 4 (Thursday) |
| Dates.Monday2024 | app/components/CalendarGrid.tsx:22 | `new Date(2024, 0, 1).getDay()` is 1 (Monday) |
| ExpenseCalculations.IsSubscriptionPaused | app/utils/expenseCalculations.ts:75-82 | never paused without `pausedUntil`; paused exactly when the date is not before the start and before `pausedUntil` |
| ExpenseCalculations.IsSubscriptionActive | app/utils/expenseCalculations.ts:59-73 | never active before the start; active exactly when started and not inside the pause window |
| ExpenseCalculations.PauseWindow | app/utils/expenseCalculations.ts:75-82 | paused exactly inside `[startDate, pausedUntil)`; never without `pausedUntil` nor from `pausedUntil` on; never active while paused |
| ExpenseCalculations.StatusTrichotomy | app/utils/expenseCalculations.ts:59-82 | on every date a subscription is exactly one of not started, paused, active |
| ExpenseCalculations.ActiveOn | app/utils/expenseCalculations.ts:5 | the subscriptions active on a date, in order: a subsequence holding every copy of each active one and nothing else |
| ExpenseCalculations.MonthlySpend | app/utils/expenseCalculations.ts:3-10 | `calculateMonthlySpend`: 0 for no subscriptions, and 0 when none is active on the date |
| ExpenseCalculations.MonthlySpendIsSumOfActive | app/utils/expenseCalculations.ts:3-10 | `calculateMonthlySpend` is the sum of the amounts of exactly the subscriptions active on the date; 0 for no subscriptions |
| ExpenseCalculations.MonthlySpendBounds | app/utils/expenseCalculations.ts:3-10 | with non-negative amounts the spend lies between 0 and the sum of all amounts, and equals that sum when all are active |
| ExpenseCalculations.MonthSteps | app/utils/expenseCalculations.ts:15-22 | the dates the loop visits: none when the start is after the date; otherwise from the start on, each not after the date, and the next month-step would be after it |
| ExpenseCalculations.CalculateTotalSpent | app/utils/expenseCalculations.ts:12-25 | the loop returns the amount added once for every visited month on which the subscription is active |
| ExpenseCalculations.TotalSpent | app/utils/expenseCalculations.ts:12-25 | what `calculateTotalSpent` returns; 0 up to a date before the start |
| ExpenseCalculations.VisitOneMonth | app/utils/expenseCalculations.ts:17-22 | one turn of the loop moves the current month from the months ahead to the months done, adding its charge, and the loop variable strictly increases |
| ExpenseCalculations.SpentOverIsRepeated | app/utils/expenseCalculations.ts:17-22 | the total spent is the amount added up once per active visited month |
| ExpenseCalculations.RepeatedIsProduct | app/utils/expenseCalculations.ts:19 | adding the amount up `n` times is the amount times `n` |
| ExpenseCalculations.TotalSpentBeforeStart | app/utils/expenseCalculations.ts:12-25 | nothing is spent up to a date before the start |
| ExpenseCalculations.TotalSpentMonotone | app/utils/expenseCalculations.ts:12-25 | for a non-negative amount the total is monotone in the date |
| ExpenseCalculations.TotalSpentNeverPaused | app/utils/expenseCalculations.ts:12-25 | a subscription never paused is charged on every visited month |
| ExpenseCalculations.MonthStepsFromJanuary31 | app/utils/expenseCalculations.ts:17-21 | as written, from 31 January 2024 through 31 March 2024 the loop visits 31 January and 2 March only: February is skipped |
| ExpenseCalculations.CalendarMonthSteps | app/utils/expenseCalculations.ts:17-21 | the walk evidently meant: step `i` lies in the `i`-th calendar month after the start's, none is after the date, and every month before the date's month is visited |
| ExpenseCalculations.CalendarMonthStepsFromJanuary31 | app/utils/expenseCalculations.ts:17-21 | from 31 January 2024 through 31 March 2024 the calendar walk visits 31 January, 29 February and 31 March |
| ExpenseCalculations.TotalSpentPerCalendarMonth | app/utils/expenseCalculations.ts:12-25 | the total evidently meant: the amount once per active calendar month, 0 before the start |
| ExpenseCalculations.TotalSpentFromJanuary31 | app/utils/expenseCalculations.ts:12-25 | a never-paused subscription from 31 January 2024 is charged twice by 31 March 2024 as written, three times one charge per calendar month |
| ExpenseCalculations.PauseStart | app/utils/expenseCalculations.ts:28-32 | the pause starts on the billing day of the current month, or a month later when that day is already past; for a billing day of at least 1 it is never before the current date (a billing day of 0 on 31 March 2024 gives 29 March) |
| ExpenseCalculations.PaymentAfter | app/utils/expenseCalculations.ts:38-42 | the next payment is the billing day in the month the pause ends, or a month later when that is not after the end; for a billing day of at least 1 it is always after the end |
| ExpenseCalculations.PauseSubscription | app/utils/expenseCalculations.ts:27-49 | only the two pause fields change; `pausedUntil` is `monthsToPause` months after the pause start; for a billing day of at least 1 the next payment follows the pause end, and with `monthsToPause >= 1` as well the pause ends after the current date and a subscription already started is then paused, not active, on the current date |
| ExpenseCalculations.UnpauseSubscription | app/utils/expenseCalculations.ts:51-57 | both pause fields are cleared and every other field is kept |
| ExpenseCalculations.UnpauseProperties | app/utils/expenseCalculations.ts:51-73 | unpausing is idempotent, undoes any pause, and leaves a subscription active exactly from its start |
| ExpenseCalculations.GetLastThreeMonthsPayments | app/utils/expenseCalculations.ts:84-96 | three entries, oldest first, entry `j` being the spend and month of `setMonth(getMonth() - (3 - j))`, the three dates strictly increasing and before the current date |
| ExpenseCalculations.LastThreeMonthsOnMarch31 | app/utils/expenseCalculations.ts:87-88 | from 31 March 2024 one month back is 2 March, so the entries are for December, January and March, and February is missing |
| ExpenseCalculations.AddMonthsClamped | app/utils/expenseCalculations.ts:88 | `k` months on with the day clamped to the target month's length: lands in month `monthIndex + k`, on the same day or the last day of that month |
| ExpenseCalculations.GetLastThreeCalendarMonthsPayments | app/utils/expenseCalculations.ts:84-96 | three entries for the three calendar months before the current one, oldest first, each with its spend |
| CalendarGrid.AllDays | app/components/CalendarGrid.tsx:24-27 | `firstDayOfMonth` blanks, then cell `i` holds day `i - firstDayOfMonth + 1`, for `firstDayOfMonth + daysInMonth` cells in all |
| CalendarGrid.AllDaysPlacesEachDayOnce | app/components/CalendarGrid.tsx:24-27 | a cell holds a day exactly when it is past the blanks, and day `k` is in exactly one cell, for exactly the days `1..daysInMonth` |
| CalendarGrid.MonthGrid | app/components/CalendarGrid.tsx:21-27 | the grid of the displayed month: 28..37 cells, the first weekday's number of blanks followed by the month's days |
| CalendarGrid.CheckDate | app/components/CalendarGrid.tsx:32 | the check date is midnight of day `day` of the displayed month, rolling over like `new Date` for a full year (see the `CalendarGrid.CheckDate` line under Left out) |
| CalendarGrid.MonthGridColumnIsWeekday | app/components/CalendarGrid.tsx:21-27 | in the seven-column grid the column of day `k` is its weekday (0 = Sunday) |
| CalendarGrid.GetSubscriptionsForDay | app/components/CalendarGrid.tsx:29-44 | a subsequence of the subscriptions that holds every copy of each one started on or before the check date, "Monthly", and whose start falls on that day of the month, and nothing else |
| CalendarGrid.NonMonthlyNeverShown | app/components/CalendarGrid.tsx:37 | a subscription whose frequency is not "Monthly" is never shown |
| CalendarGrid.ShownOnOneDay | app/components/CalendarGrid.tsx:37 | a subscription shows on at most one day of a month |
| CalendarGrid.MonthlyShownFromStart | app/components/CalendarGrid.tsx:29-44 | a monthly subscription shows on its start day in every later month that has that day, and in its start month when it starts at midnight |
| CalendarGrid.NotShownBeforeStartMonth | app/components/CalendarGrid.tsx:35 | no day of a month before the start month shows it |
| CalendarGrid.IsPausedDay | app/components/CalendarGrid.tsx:46-49 | paused on a day exactly when `pausedUntil` exists and is after the check date |
| CalendarGrid.PausedDayAgreesWithEngine | app/components/CalendarGrid.tsx:46-49 | from the start on, and so on every icon the grid shows, this agrees with the engine's `isSubscriptionPaused` |
| CalendarView.DaySubscriptions | app/components/CalendarView.tsx:70 | a subsequence holding every copy of each subscription whose billing `date` is the day, and nothing else |
| CalendarView.CellAt | app/components/CalendarView.tsx:66-70 | cell `i` shows day `i - firstDayOfMonth + 1`, is in the month exactly when `firstDayOfMonth <= i < firstDayOfMonth + daysInMonth`, is today exactly at `firstDayOfMonth + today - 1`, and lists every copy of each subscription billed on that day and nothing else |
| CalendarView.Cells | app/components/CalendarView.tsx:66-70 | 42 cells, the `i`-th being cell `i` |
| CalendarView.MonthCells | app/components/CalendarView.tsx:66-70 | the grid of the displayed month: 42 cells, among which the month's days form the run from the first weekday on, and the month always fits |
| CalendarView.EachDayInOneCell | app/components/CalendarView.tsx:66-68 | every day of the month sits in exactly one cell, which is in the month |
| CalendarView.CurrentMonthRun | app/components/CalendarView.tsx:67-68 | the cells of the month are exactly one run of consecutive indices |
| CalendarView.TodayRingedOnce | app/components/CalendarView.tsx:69 | when today is a day of the month exactly one cell is ringed and it is in the month |
| CalendarView.AgreesWithCalendarGrid | app/components/CalendarView.tsx:66-68 | on the cells the other grid has, a day of the month here is the same day there and a padding cell is a blank |
| CalendarView.RenderSubscriptionIcons | app/components/CalendarView.tsx:25-53 | the icons are a prefix of at most four; a `+n` label appears exactly past four, and icons plus `n` count every subscription |
| CalendarView.SelectOnClick | app/components/CalendarView.tsx:77 | a click selects a day exactly on a cell of the month, and then the cell's day |
| CalendarView.ClickSelectsDayOfMonth | app/components/CalendarView.tsx:77 | a click on cell `i` selects day `i - firstDayOfMonth + 1` of the month when that cell is in the month, and nothing otherwise |
| SubscriptionCalendar.OrdinalSuffix | app/components/SuscriptionCalendar.tsx:48 | "st", "nd", "rd" exactly for 1, 2, 3 and "th" for every other number |
| SubscriptionCalendar.OnlyFirstThreeAreSpecial | app/components/SuscriptionCalendar.tsx:48 | 11-13, 21-23 and 31 are all labelled "th" |
| SubscriptionCalendar.IntString | app/components/SuscriptionCalendar.tsx:48 | `${date}`: non-empty, a minus sign exactly for a negative number, every other character a digit (the first one too for `n >= 0`), and in decimal form (`IsDecimal`): no leading zero except a lone "0" |
| SubscriptionCalendar.DecimalIsIntString | app/components/SuscriptionCalendar.tsx:48 | the decimal form is unique: any text in that form is `${n}` of the number it reads as, so with `IntStringRoundTrip` the contract of `IntString` fixes the text |
| SubscriptionCalendar.IntStringRoundTrip | app/components/SuscriptionCalendar.tsx:48 | the decimal text of `date` reads back as `date` |
| SubscriptionCalendar.FrequencyLabel | app/components/SuscriptionCalendar.tsx:48 | the label is "Every ", then the decimal text `IntString(date)` of the day, which reads back as `date`, then its ordinal suffix ("Every 7th", never "Every 07th") |
| SubscriptionCalendar.FrequencyLabelInjective | app/components/SuscriptionCalendar.tsx:48 | different days get different labels |
| SubscriptionCalendar.FrequencyLabelIsNotMonthly | app/components/SuscriptionCalendar.tsx:48 | no label is "Monthly" |
| SubscriptionCalendar.NewSubscription | app/components/SuscriptionCalendar.tsx:42-51 | the catalogue entry's fields, the `date`, the label, nothing spent, no pause, and as start midnight of day `date` of the current month |
| SubscriptionCalendar.NewSubscriptionActiveFromStart | app/components/SuscriptionCalendar.tsx:42-51 | an added subscription is active for the engine exactly from its start |
| SubscriptionCalendar.AddedNeverOnCalendarGrid | app/components/SuscriptionCalendar.tsx:48 | its label is never "Monthly", so the `CalendarGrid` day filter never shows an added subscription |
| SubscriptionCalendar.Without | app/components/SuscriptionCalendar.tsx:56 | the target is gone, every other subscription is kept in order, and the length drops by the number of copies of the target |
| SubscriptionCalendar.SpendSplitsOnDelete | app/components/SuscriptionCalendar.tsx:38-57 | the spend of the whole list is the spend of what is kept plus that of the copies removed |
| SubscriptionCalendar.SpendWithout | app/components/SuscriptionCalendar.tsx:38-57 | deleting lowers the monthly spend by the target's amount once per copy |
| SubscriptionCalendar.SpendIgnoresStatus | app/components/SuscriptionCalendar.tsx:38 | the header's spend counts paused and not-yet-started subscriptions too: it is the engine's spend plus the amounts of those not active |
| SubscriptionCalendar.PaymentCandidate | app/components/SuscriptionCalendar.tsx:28-31 | after `k` steps the candidate lies exactly `30 * k` days after the start, at the same time |
| SubscriptionCalendar.PaymentSteps | app/components/SuscriptionCalendar.tsx:30-32 | the number of steps is the least `n >= 1` whose candidate is not before the current date |
| SubscriptionCalendar.NextPayment | app/components/SuscriptionCalendar.tsx:28-32 | the next payment is not before the current date, at least 30 days after the start, at the start's time of day |
| SubscriptionCalendar.LeastStep | app/components/SuscriptionCalendar.tsx:30-32 | that least step is unique |
| SubscriptionCalendar.NextPaymentDate | app/components/SuscriptionCalendar.tsx:28-32 | the loop stops at the first 30-day step that is not before the current date |
| SubscriptionCalendar.NextPaymentBounds | app/components/SuscriptionCalendar.tsx:28-32 | the next payment is not before the current date and a whole number (at least one) of 30-day periods after the start; once the first payment is past, it is within 30 days of the current date |
| SubscriptionCalendar.WithNextPaymentDay | app/components/SuscriptionCalendar.tsx:33 | only the billing day changes, to the day of the next payment, which is within 1..31 |
| SubscriptionCalendar.RefreshedSubscriptions | app/components/SuscriptionCalendar.tsx:27-34 | same length; each subscription has its billing day moved |
| SubscriptionCalendar.UpdatedSubscriptions | app/components/SuscriptionCalendar.tsx:27-34 | the `map` computes exactly the refreshed list |
| SubscriptionCalendar.RefreshIdempotent | app/components/SuscriptionCalendar.tsx:26-36 | refreshing a refreshed list changes nothing, so the effect that re-runs on its own output reaches a fixpoint |
| SubscriptionCalendar.CalendarState.constructor | app/components/SuscriptionCalendar.tsx:12-13 | no subscriptions, the clock's date |
| SubscriptionCalendar.CalendarState.MonthlySpend | app/components/SuscriptionCalendar.tsx:38 | the sum of every amount; 0 with no subscriptions |
| SubscriptionCalendar.CalendarState.AddSubscription | app/components/SuscriptionCalendar.tsx:42-53 | the new record is appended, the date is kept, and the spend rises by its amount |
| SubscriptionCalendar.CalendarState.DeleteSubscription | app/components/SuscriptionCalendar.tsx:55-57 | the list becomes `Without(target)`, the date is kept, and the spend drops by the amount once per copy |
| SubscriptionCalendar.CalendarState.RefreshPaymentDays | app/components/SuscriptionCalendar.tsx:26-36 | the list becomes the refreshed list, the date is kept, and the spend is unchanged |

## Left out

- Dates.LocalDate: takes the year as a full year. `new Date` reads a year 0..99 as 1900 + y; `Dates.NewDate` models that rule and `Dates.TwoDigitYearShifts` shows where the two differ. `LocalDate` is what the grid uses because its year always comes from the clock's `getFullYear()`.
- CalendarGrid.CheckDate: builds on `LocalDate`, as do `DaysInMonthOfIsDayZero`, `FirstWeekdayOfIsDayOne` and the grid built from them. None of them applies the 0..99 → 1900..1999 rule, so none matches JavaScript for a displayed year 0..99; the clock's `getFullYear()` is never in 0..99, so the rule never applies in the app.
- Rendering is left out: markup, styles, animations, images, hover state and the tooltip. Only the values the components compute are modelled.
- `WheelView` and the other components are not part of this model.
- Time zones and ISO strings are left out. `startDate`, `pausedUntil` and `nextPaymentDate` are already-parsed local dates.
- `toISOString().split('T')[0]` in `addSubscription` keeps the UTC calendar day, and `new Date("YYYY-MM-DD")` parses that back as UTC midnight. Outside UTC the start is therefore not local midnight. At UTC-3 it is 21:00 on the local day before, so `subStartDate <= checkDate` (CalendarGrid.tsx:35) already holds on that earlier day, and `getDate()` (CalendarGrid.tsx:37) returns the earlier day's number. Depending on the offset and on the time of day of `currentDate`, which `setDate` keeps, the UTC day can also be one before or one after the chosen local day. The model takes the start as local midnight of the chosen day, which is what happens in UTC.
- Daylight saving time is left out. A day is always 86,400,000 ms, so `setDate(getDate() + 30)` keeps the time of day.
- Amounts are exact reals, not IEEE doubles, so rounding in `reduce` and `+=` is not modelled.
- The clock is a parameter: `new Date()` for `currentDate` and `today`. The first `useEffect`, which only reads the clock, is the constructor's argument.
- React's effect scheduling and re-rendering are not modelled. The second `useEffect` is `RefreshPaymentDays`. `RefreshIdempotent` shows that the refreshed list is a fixpoint. The model does not capture that React keeps re-running the effect, because each `map` builds new objects.
- SubscriptionCalendar.CalendarState.DeleteSubscription: `!==` compares object references, and the model compares values. Two records with equal contents are both removed here, while the source removes only the one clicked.
- `totalSpent` is only initialised (to 0) in `addSubscription`. No modelled code reads or updates it.
- `getMonthAcronym`, `toggleView`, `handleDateClick` and `closeSubscriptionSelector` only set UI state or format text, and are left out.
- `toLocaleString` month names in `getLastThreeMonthsPayments` are left out. The entry keeps the month number (0 = January) that the name is printed from.
- The source integers are JavaScript numbers. The model uses unbounded integers, because no modelled computation comes near 2^53.
- The range of a JavaScript `Date` is not modelled: the model's `Date` has no bound, while a JavaScript `Date` holds at most 8.64e15 ms either side of 1970, about 10^8 days. Past that, `setDate` and `setMonth` give an Invalid Date, and `toISOString()` (app/utils/expenseCalculations.ts:46-47) throws a `RangeError`. A billing day such as 999999999 from the edit field can get there. So neither the Invalid Date nor the `RangeError` path is modelled, and `PauseSubscription` always returns a record.

## Findings

| source | as written | input that shows it | evidently intended | confidence | as-written member | corrected member |
|---|---|---|---|---|---|---|
| app/utils/expenseCalculations.ts:87-88 | `date.setMonth(date.getMonth() - i)` keeps the day of the month, so from a date past the end of a shorter earlier month it overflows into the month after | `currentDate` = 31 March 2024: one month back is 31 February, which becomes 2 March. The report covers December, January and March, is labelled with the current month, and skips February | the three calendar months before the current one: December, January and February for 31 March 2024 | not executed | ExpenseCalculations.GetLastThreeMonthsPayments, ExpenseCalculations.LastThreeMonthsOnMarch31 | ExpenseCalculations.GetLastThreeCalendarMonthsPayments |
| app/utils/expenseCalculations.ts:17-21 | `currentMonth.setMonth(currentMonth.getMonth() + 1)` keeps the day of the month, so a walk from the 29th, 30th or 31st overflows past a shorter month and then stays shifted | a subscription started 31 January 2024, on 31 March 2024: 31 February becomes 2 March, so only 31 January and 2 March are charged. February never is, and the total is two amounts | one charge per calendar month: 31 January, 29 February and 31 March, three amounts | not executed | ExpenseCalculations.MonthStepsFromJanuary31, ExpenseCalculations.TotalSpentFromJanuary31 | ExpenseCalculations.CalendarMonthSteps, ExpenseCalculations.TotalSpentPerCalendarMonth |
