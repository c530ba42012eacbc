# Part-time payroll engine — a Dafny model

This project models the payroll engine of a small salary calculator for a
person who works several part-time jobs. The engine takes one month of
calendar events, one per work shift. It classifies each event by employer:
every configured job whose name occurs in the event's title is counted. Per job
it adds up the hours, the working days and, for the cram school 早稲アカ, the
teaching slots ("koma") each shift overlaps. It then applies each employer's
salary formula and sums hours and salaries into grand totals.

Modules:

- `Wrappers` (`wrappers.dfy`): `Option` and `Result`.
- `Clock` (`clock.dfy`): timezone-aware timestamps at whole-second
  resolution. A timestamp is a day index, a second of that day and a UTC
  offset. Python orders and subtracts aware datetimes by their UTC instant,
  and `Instant` models that. `WithClock` is `datetime.replace(hour=…,
  minute=…)`: it keeps the date, the offset and the seconds. This module also
  holds the query window of a month (`GetMonthRange`) and the month stepping
  of the ◀/▶ buttons.
- `Formulas` (`formulas.dfy`): the three salary formulas, over exact reals.
- `Koma` (`koma.dfy`): the fixed daily slot table `WASEDA_KOMA`. Each slot
  window is re-anchored onto the date, offset and seconds of the shift's
  start. A slot counts under a strict (open-interval) overlap test.
- `Payroll` (`payroll.dfy`): the job table, the events, and the aggregates
  as functions of the events seen so far. `CalculateSalary` is the method
  with the source's loops: events, then jobs, then slots. The slot loop is
  in `Koma.CountKoma`, the loop over jobs for one event is in
  `TallyEvent`, and the salary and totals loop is in `PaySalaries`. The
  lemmas relate these to the formulas.

## Model

| member | source | states |
|---|---|---|
| `Clock.Instant` | main.py:130-147 | aware datetimes are ordered and subtracted by their UTC instant, the local time minus the offset; adding the offset back to the instant recovers the timestamp's day and second of day |
| `Clock.WithClock` | main.py:137-145 | re-anchoring keeps the start's day, UTC offset and second-of-minute, and sets the hour and minute to those of the slot time |
| `Clock.WithClockOrder` | main.py:137-145 | two re-anchorings of one timestamp are apart by exactly the difference of their wall-clock times |
| `Clock.GetMonthRange` | main.py:89-92 | succeeds exactly for years 1..9999 and months 1..12, except December 9999, where the next month leaves the year range; the window starts on day 1 of the given month and ends on day 1 of the month whose index is one higher |
| `Clock.DecemberWraps` | main.py:89-92 | the window for December of year y ends on 1 January of y+1 |
| `Clock.RangeEndIsNextMonth` | main.py:91 | the window ends at the month the ▶ button steps to |
| `Clock.NextMonth` | app.py:40-51 | the ▶ step lands on the month whose index is one higher |
| `Clock.PrevMonth` | app.py:27-38 | the ◀ step lands on the month whose index is one lower |
| `Clock.MonthStepsInverse` | app.py:27-51 | ◀ undoes ▶ and ▶ undoes ◀ |
| `Formulas.CalcWaseaka` | main.py:26-29 | pays each slot 1.5 × wage plus 215 and each working day 425; with no slots it pays exactly 425 per day, and with a non-negative wage it pays at least 425 per day plus 215 per slot |
| `Formulas.CalcToraya` | main.py:32-33 | pays (hours − 0.5 × days) × wage plus 292 per day; with no days it pays hours × wage, and with a zero wage it pays exactly 292 per day |
| `Formulas.CalcHaluene` | main.py:36-37 | pays hours × wage plus 376 per day; with no days it pays hours × wage, and with no hours it pays exactly 376 per day |
| `Formulas.WaseakaIgnoresHours` | main.py:26-29 | the slot-based formula gives the same salary whatever hours are passed |
| `Formulas.FormulasZeroAtZero` | main.py:26-37 | with zero hours, days and slots, all three formulas pay 0 for any wage |
| `Formulas.FormulaExamples` | main.py:26-44 | with the default wages 1410, 1250 and 1500: 5 slots over 3 days pay 12925; 20 h over 4 days pay 23668; 15 h over 3 days pay 23628 |
| `Formulas.TorayaNotClamped` | main.py:32-33 | for a positive wage, the salary is below the 292-per-day allowance exactly when hours < 0.5 × days; with zero hours, at least one day and a wage above 584, the salary is negative, so nothing clamps it |
| `Formulas.AllowanceIsFloor` | main.py:26-37 | for a non-negative wage and non-negative hours, the slot-based and flat-hourly pays are at least their per-day allowances |
| `Formulas.FormulasAdditive` | main.py:26-37 | each formula applied to two batches of work together equals the sum of the formula applied to each batch |
| `Koma.WasedaScheduleShape` | main.py:13-20 | six slots, each non-empty, ordered and pairwise disjoint, all ending by 21:30 |
| `Koma.Overlaps` | main.py:137-147 | a slot counts when the shift starts strictly before the slot's end and ends strictly after the slot's start, both re-anchored on the shift start's date, offset and seconds |
| `Koma.KomaCount` | main.py:135-148 | a shift overlaps at most as many slots as the schedule holds |
| `Koma.CountKoma` | main.py:135-148 | the slot loop returns the number of slots the shift overlaps, at most 6 |
| `Koma.KomaCountZeroIff` | main.py:147-148 | the count is 0 exactly when the strict test fails for every slot |
| `Koma.KomaCountAllIff` | main.py:147-148 | the count equals the schedule length exactly when the strict test holds for every slot |
| `Koma.KomaCountSameOverlaps` | main.py:147-148 | two ends that overlap the same slots give the same count |
| `Koma.KomaCountMonotoneInEnd` | main.py:147-148 | a later end never lowers the count |
| `Koma.OverlapsIffSharedSecond` | main.py:147 | for a shift of positive length, the strict test holds exactly when shift and slot window share a second in their half-open ranges |
| `Koma.TouchingSlotNotCounted` | main.py:147 | a shift ending exactly at a slot's start, or starting exactly at its end, does not count that slot |
| `Koma.FullDayCountsSix` | main.py:135-148 | a shift from 10:00 to 22:00 on one date counts 6 slots |
| `Koma.ExactSlotCountsOne` | main.py:135-148 | a shift from 10:40 to 12:10 counts exactly 1 slot |
| `Koma.BreakBetweenSlotsCountsZero` | main.py:135-148 | a shift from 12:10 to 12:20 touches Y and Z but counts 0 |
| `Koma.KomaCountSplitFirst` | main.py:135-148 | the count equals the first slot's contribution plus the count of the remaining slots |
| `Koma.LateStartCountsZero` | main.py:137-148 | a shift whose start clock reads 21:30 or later counts 0 slots, whatever its end |
| `Koma.EndPastLastSlotIgnored` | main.py:137-148 | once a shift ends after 21:30 of its start date, moving its end, even onto a later date, does not change the count |
| `Koma.OvernightShiftCountsZero` | main.py:137-148 | a shift from 23:00 to 14:00 the next day counts 0, though it covers Y and Z of that day |
| `Koma.ReversedShiftCountsSlot` | main.py:130-148 | the order of start and end is not checked: a shift from 12:00 back to 11:00 counts exactly one slot, and that slot is Y |
| `Payroll.PartTimeJobs` | main.py:40-44 | the table has three jobs with distinct names, and the slot-based formula belongs to exactly the job named 早稲アカ; wages are those supplied |
| `Payroll.IsSubstring` | main.py:123 | Python's `in` on strings: the name is a prefix of the title or of one of its suffixes, so the empty name occurs in every title |
| `Payroll.Matches` | main.py:119-123 | an event counts for a job when it has a title and the job's name occurs in that title |
| `Payroll.ShiftHours` | main.py:130 | the shift's length in seconds divided by 3600; it is non-negative exactly when the end is not before the start, and zero exactly when they are the same instant |
| `Payroll.IsSubstringIff` | main.py:123 | a name is in a title exactly when it occurs at some index of it |
| `Payroll.ShiftKoma` | main.py:134-148 | one shift adds at most 6 slots, and none to a job not named 早稲アカ |
| `Payroll.JobHours` | main.py:118-131 | the sum of the hours of the events matching the job; it is non-negative when no event ends before it starts |
| `Payroll.JobDays` | main.py:118-132 | a job's working days never exceed the number of events |
| `Payroll.JobKoma` | main.py:114-148 | a job's slots are at most 6 per working day, and 0 for every job other than 早稲アカ |
| `Payroll.Salary` | main.py:154-161 | dispatches to the job's formula: the slot formula receives the slot count, the other two receive hours and days only |
| `Payroll.JobSalary` | main.py:154-163 | a job's salary is its formula applied to its hours, days and slots over the month's events |
| `Payroll.MatchCount` | main.py:122-123 | an event matches at most every job, and an untitled event matches none |
| `Payroll.TallyEvent` | main.py:122-148 | for one titled event, each matching job gains one day, the shift's hours and its slots; other jobs are unchanged |
| `Payroll.PaySalaries` | main.py:150-165 | each job's salary is its own formula applied to its hours, days and slots; the totals are the sums of the per-job hours and salaries |
| `Payroll.CalculateSalary` | main.py:114-167 | each job's hours, slots and salary are its aggregates over the events under its own formula; the totals are the sums of the per-job hours and salaries; total hours count every event's hours once per job it matches |
| `Payroll.EveryMatchingJobUpdated` | main.py:118-134 | appending an event adds one day, its hours and its slots to every job it matches, changes no other job, and an untitled event matches nothing |
| `Payroll.TwoNamesCountTwice` | main.py:122-132 | a title containing 早稲アカ and ハルエネ adds a day to both of those jobs and none to とらや |
| `Payroll.UnmatchedJobEarnsNothing` | main.py:114-161 | a job that no event matches ends with 0 hours, 0 days, 0 slots and a salary of 0 |
| `Payroll.SalaryAddsShiftPay` | main.py:154-161 | adding one shift to a job's aggregates raises the salary by exactly that shift's own pay |
| `Payroll.SalaryIsSumOfShiftPay` | main.py:154-163 | a job's monthly salary equals the sum of what each of its shifts earns alone; each shift's pay includes its own slots, its own day allowance and its own half-hour break deduction |
| `Payroll.MatchedHoursIsCountTimesHours` | main.py:122-131 | counting an event for each matching job adds its hours times the number of matches |
| `Payroll.WeightedHoursAddJob` | main.py:150-164 | adding a job to the table adds that job's hours to the weighted hour total |
| `Payroll.EmptyTableWeightedHours` | main.py:150-164 | with no jobs configured, no hours are counted |
| `Payroll.TotalHoursCountsEveryMatch` | main.py:150-164 | the sum of the per-job hours equals each event's hours counted once per job it matches |
| `Payroll.DefaultJobsFormulas` | main.py:154-161 | with the default table, 早稲アカ is paid by the slot formula at 1410, とらや by the break formula at 1250, and ハルエネ by the flat hourly formula at 1500 |

## Left out

- Google sign-in and the calendar query (`get_service`, main.py:49-83, and the
  events request, main.py:101-112). The month's events are a parameter of
  `CalculateSalary`.
- ISO-8601 parsing and formatting. This covers `fromisoformat`, the `'Z'` to
  `+00:00` rewrite and the `isoformat() + 'Z'` output. Timestamps are already
  parsed values. `GetMonthRange` returns year/month/day dates, which the
  source reads as UTC midnights.
- An all-day event (one with no `dateTime`) whose title contains a job name
  raises `KeyError` at main.py:126. Such an event that mixes a naive and an
  aware timestamp raises `TypeError` at main.py:130. An event whose title
  names no job is skipped before its times are read. The model needs
  timestamps on every event, so such an event is either left out of the
  sequence or given any timestamps: it contributes nothing either way (see
  `Payroll.EveryMatchingJobUpdated`).
- Sub-second precision. `replace` also keeps the microseconds. The model's
  timestamps have whole-second resolution.
- The calendar range of `datetime`. Day indices in `Timestamp` are unbounded.
- Clock.NextMonth, Clock.PrevMonth: the year is unbounded here too. Past
  December 9999 or before January 0001, `datetime.date(year, month, 1)` at
  app.py:38 and app.py:51 raises `ValueError`, while the model returns
  (10000, 1) or (0, 12).
- Floating-point rounding. Hours, wages and salaries are exact reals.
- The `"HH:MM"` slot strings are stored already split into hour and minute.
  The string parsing is not modelled.
- The source returns dicts keyed by job name. The model returns sequences in
  the table's order. Names are distinct, so the two carry the same
  information. `job_days` is internal in the source and is not returned.
- The source passes the slot count to a job's formula when the job's name is
  早稲アカ. The model dispatches on the job's formula tag. `WellFormedJobs`
  makes the two coincide, and `PartTimeJobs` satisfies it. For a table that
  breaks this rule, the source raises `TypeError` on the argument count; the
  model does not capture that.
- All of app.py except the month stepping: the password gate, wage editing,
  result display and the pie chart. Wages enter as values of the job table.
  The ◀/▶ stepping appears only as `NextMonth` and `PrevMonth`.
- main.py has no check that a shift starts before it ends, and no check for an
  unknown formula. The model has neither: zero-length and reversed shifts flow
  through (see `Koma.ReversedShiftCountsSlot`), and the formula set is a
  closed datatype. main.py:122-123 updates every job whose name occurs in the
  title, not only the first, and so does the model.
