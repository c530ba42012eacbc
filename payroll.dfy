/**
 * The monthly payroll fold: classifies each shift event by employer with a
 * substring match on its title, aggregates hours, working days and slots per
 * employer, and applies each employer's salary formula.
 */
module Payroll {
  import opened Wrappers
  import opened Clock
  import opened Formulas
  import opened Koma

  // ---------------------------------------------------------------------------
  // Configuration
  // ---------------------------------------------------------------------------

  /** The closed set of salary formulas, one per employer. */
  datatype Formula = Waseaka | Toraya | Haluene

  /** One configured part-time job: its name, its hourly wage and its formula. */
  datatype Job = Job(name: string, wage: real, formula: Formula)

  const WASEAKA: string := "早稲アカ"
  const TORAYA: string := "とらや"
  const HALUENE: string := "ハルエネ"

  /**
   * The job table holds distinct names, and the slot-based formula belongs to
   * exactly the job named 早稲アカ (the only job whose formula is called with a
   * slot count).
   */
  predicate WellFormedJobs(jobs: seq<Job>)
  {
    && (forall i, j :: 0 <= i < j < |jobs| ==> jobs[i].name != jobs[j].name)
    && (forall i :: 0 <= i < |jobs| ==> (jobs[i].formula == Waseaka <==> jobs[i].name == WASEAKA))
  }

  /** The three configured jobs, in table order, with caller-supplied wages. */
  function PartTimeJobs(waseakaWage: real, torayaWage: real, halueneWage: real): (jobs: seq<Job>)
    ensures WellFormedJobs(jobs)
    ensures |jobs| == 3
    ensures jobs[0].wage == waseakaWage && jobs[1].wage == torayaWage && jobs[2].wage == halueneWage
  {
    [Job(WASEAKA, waseakaWage, Waseaka), Job(TORAYA, torayaWage, Toraya), Job(HALUENE, halueneWage, Haluene)]
  }

  /** The table with its default wages. */
  const DEFAULT_JOBS: seq<Job> := PartTimeJobs(1410.0, 1250.0, 1500.0)

  // ---------------------------------------------------------------------------
  // Events and classification
  // ---------------------------------------------------------------------------

  /** A calendar event; an event may lack a title. */
  datatype Event = Event(summary: Option<string>, start: Timestamp, end: Timestamp)

  predicate IsPrefix(p: string, s: string)
  {
    |p| <= |s| && s[..|p|] == p
  }

  /** Substring containment `needle in hay`; the empty string occurs in every string. */
  predicate IsSubstring(needle: string, hay: string)
    decreases |hay|
  {
    IsPrefix(needle, hay) || (hay != [] && IsSubstring(needle, hay[1..]))
  }

  /** `needle` occurs in `hay` starting at index `k`. */
  predicate OccursAt(needle: string, hay: string, k: int)
  {
    0 <= k && k + |needle| <= |hay| && hay[k..k + |needle|] == needle
  }

  /** Substring containment means an occurrence at some index. */
  lemma {:induction false} IsSubstringIff(needle: string, hay: string)
    ensures IsSubstring(needle, hay) <==> exists k :: OccursAt(needle, hay, k)
    decreases |hay|
  {
    if |needle| <= |hay| { assert hay[0..|needle|] == hay[..|needle|]; }
    if IsPrefix(needle, hay) {
      assert OccursAt(needle, hay, 0);
    } else if hay != [] {
      IsSubstringIff(needle, hay[1..]);
      if exists k :: OccursAt(needle, hay[1..], k) {
        var k :| OccursAt(needle, hay[1..], k);
        assert hay[k + 1..k + 1 + |needle|] == hay[1..][k..k + |needle|];
        assert OccursAt(needle, hay, k + 1);
      }
      if exists k :: OccursAt(needle, hay, k) {
        var k :| OccursAt(needle, hay, k);
        assert hay[1..][k - 1..k - 1 + |needle|] == hay[k..k + |needle|];
        assert OccursAt(needle, hay[1..], k - 1);
      }
    }
  }

  /** The event has a title and the job's name occurs in it. */
  predicate Matches(job: Job, ev: Event)
  {
    ev.summary.Some? && IsSubstring(job.name, ev.summary.value)
  }

  /** The shift's length in hours, negative when the end precedes the start. */
  function ShiftHours(ev: Event): (h: real)
    ensures h >= 0.0 <==> Instant(ev.start) <= Instant(ev.end)
    ensures h == 0.0 <==> Instant(ev.start) == Instant(ev.end)
  {
    (Instant(ev.end) - Instant(ev.start)) as real / 3600.0
  }

  /** The slots one shift contributes to a job: only the job named 早稲アカ counts slots. */
  function ShiftKoma(job: Job, ev: Event): (n: nat)
    ensures n <= |WASEDA_KOMA|
    ensures job.name != WASEAKA ==> n == 0
  {
    if job.name == WASEAKA then KomaCount(ev.start, ev.end, WASEDA_KOMA) else 0
  }

  function Last(events: seq<Event>): Event
    requires events != []
  {
    events[|events| - 1]
  }

  function Init(events: seq<Event>): seq<Event>
    requires events != []
  {
    events[..|events| - 1]
  }

  // ---------------------------------------------------------------------------
  // Aggregates, as functions of the events seen so far
  // ---------------------------------------------------------------------------

  /** Total hours of the shifts matching `job`. */
  function JobHours(job: Job, events: seq<Event>): (h: real)
    ensures (forall k :: 0 <= k < |events| ==> Instant(events[k].start) <= Instant(events[k].end)) ==> h >= 0.0
    decreases |events|
  {
    if events == [] then 0.0
    else JobHours(job, Init(events)) + (if Matches(job, Last(events)) then ShiftHours(Last(events)) else 0.0)
  }

  /** Number of shifts matching `job`: its working days. */
  function JobDays(job: Job, events: seq<Event>): (n: nat)
    ensures n <= |events|
    decreases |events|
  {
    if events == [] then 0
    else JobDays(job, Init(events)) + (if Matches(job, Last(events)) then 1 else 0)
  }

  /** Slots overlapped by the shifts matching `job`: at most six per working day, none for other jobs. */
  function JobKoma(job: Job, events: seq<Event>): (n: nat)
    ensures n <= |WASEDA_KOMA| * JobDays(job, events)
    ensures job.name != WASEAKA ==> n == 0
    decreases |events|
  {
    if events == [] then 0
    else JobKoma(job, Init(events)) + (if Matches(job, Last(events)) then ShiftKoma(job, Last(events)) else 0)
  }

  /** The job's formula applied to its aggregates. */
  function Salary(job: Job, hours: real, days: nat, koma: nat): real
  {
    match job.formula
    case Waseaka => CalcWaseaka(hours, job.wage, days, koma)
    case Toraya => CalcToraya(hours, job.wage, days)
    case Haluene => CalcHaluene(hours, job.wage, days)
  }

  function JobSalary(job: Job, events: seq<Event>): real
  {
    Salary(job, JobHours(job, events), JobDays(job, events), JobKoma(job, events))
  }

  function Sum(s: seq<real>): real
    decreases |s|
  {
    if s == [] then 0.0 else Sum(s[..|s| - 1]) + s[|s| - 1]
  }

  /** The output: per-job hours, salaries and slot counts in table order, and the grand totals. */
  datatype PayrollResult = PayrollResult(
    hours: seq<real>, salary: seq<real>, koma: seq<nat>, totalHours: real, totalSalary: real)

  // ---------------------------------------------------------------------------
  // The computation
  // ---------------------------------------------------------------------------

  /** `hours`, `days` and `koma` hold, job by job, the aggregates of `events`. */
  predicate Tallied(jobs: seq<Job>, events: seq<Event>, hours: seq<real>, days: seq<nat>, koma: seq<nat>)
  {
    && |hours| == |jobs| && |days| == |jobs| && |koma| == |jobs|
    && forall i :: 0 <= i < |jobs| ==>
      && hours[i] == JobHours(jobs[i], events)
      && days[i] == JobDays(jobs[i], events)
      && koma[i] == JobKoma(jobs[i], events)
  }

  /**
   * Adds one titled event to the running aggregates: every job whose name
   * occurs in the title gains one day and the shift's hours, and the job
   * named 早稲アカ also gains the slots the shift overlaps.
   */
  method TallyEvent(jobs: seq<Job>, ev: Event, hours: seq<real>, days: seq<nat>, koma: seq<nat>)
    returns (hours': seq<real>, days': seq<nat>, koma': seq<nat>)
    requires ev.summary.Some?
    requires |hours| == |jobs| && |days| == |jobs| && |koma| == |jobs|
    ensures |hours'| == |jobs| && |days'| == |jobs| && |koma'| == |jobs|
    ensures forall i :: 0 <= i < |jobs| ==>
      && hours'[i] == hours[i] + (if Matches(jobs[i], ev) then ShiftHours(ev) else 0.0)
      && days'[i] == days[i] + (if Matches(jobs[i], ev) then 1 else 0)
      && koma'[i] == koma[i] + (if Matches(jobs[i], ev) then ShiftKoma(jobs[i], ev) else 0)
  {
    hours', days', koma' := hours, days, koma;
    var j := 0;
    while j < |jobs|
      invariant 0 <= j <= |jobs|
      invariant |hours'| == |jobs| && |days'| == |jobs| && |koma'| == |jobs|
      invariant forall i :: 0 <= i < j ==>
        && hours'[i] == hours[i] + (if Matches(jobs[i], ev) then ShiftHours(ev) else 0.0)
        && days'[i] == days[i] + (if Matches(jobs[i], ev) then 1 else 0)
        && koma'[i] == koma[i] + (if Matches(jobs[i], ev) then ShiftKoma(jobs[i], ev) else 0)
      invariant forall i :: j <= i < |jobs| ==> hours'[i] == hours[i] && days'[i] == days[i] && koma'[i] == koma[i]
    {
      var job := jobs[j];
      if IsSubstring(job.name, ev.summary.value) {
        var h := (Instant(ev.end) - Instant(ev.start)) as real / 3600.0;
        hours' := hours'[j := hours'[j] + h];
        days' := days'[j := days'[j] + 1];
        if job.name == WASEAKA {
          var n := CountKoma(ev.start, ev.end);
          koma' := koma'[j := koma'[j] + n];
        }
      }
      j := j + 1;
    }
  }

  /**
   * Applies each job's formula to its aggregates, and sums the hours and the
   * salaries of all jobs.
   */
  method PaySalaries(jobs: seq<Job>, hours: seq<real>, days: seq<nat>, koma: seq<nat>)
    returns (salary: seq<real>, totalHours: real, totalSalary: real)
    requires |hours| == |jobs| && |days| == |jobs| && |koma| == |jobs|
    ensures |salary| == |jobs|
    ensures forall i :: 0 <= i < |jobs| ==> salary[i] == Salary(jobs[i], hours[i], days[i], koma[i])
    ensures totalHours == Sum(hours) && totalSalary == Sum(salary)
  {
    salary, totalHours, totalSalary := [], 0.0, 0.0;
    var j := 0;
    while j < |jobs|
      invariant 0 <= j <= |jobs|
      invariant |salary| == j
      invariant forall i :: 0 <= i < j ==> salary[i] == Salary(jobs[i], hours[i], days[i], koma[i])
      invariant totalHours == Sum(hours[..j])
      invariant totalSalary == Sum(salary)
    {
      var job := jobs[j];
      var pay := match job.formula
        case Waseaka => CalcWaseaka(hours[j], job.wage, days[j], koma[j])
        case Toraya => CalcToraya(hours[j], job.wage, days[j])
        case Haluene => CalcHaluene(hours[j], job.wage, days[j]);
      assert hours[..j + 1][..j] == hours[..j];
      assert (salary + [pay])[..j] == salary;
      salary := salary + [pay];
      totalHours := totalHours + hours[j];
      totalSalary := totalSalary + pay;
      j := j + 1;
    }
    assert hours[..j] == hours;
  }

  /**
   * Folds the month's events into per-job aggregates, then computes each
   * job's salary and the totals. Untitled events are skipped; every job whose
   * name occurs in a title is updated.
   */
  method CalculateSalary(jobs: seq<Job>, events: seq<Event>) returns (r: PayrollResult)
    ensures |r.hours| == |jobs| && |r.salary| == |jobs| && |r.koma| == |jobs|
    ensures forall i :: 0 <= i < |jobs| ==>
      && r.hours[i] == JobHours(jobs[i], events)
      && r.koma[i] == JobKoma(jobs[i], events)
      && r.salary[i] == JobSalary(jobs[i], events)
    ensures r.totalHours == Sum(r.hours) && r.totalSalary == Sum(r.salary)
    ensures r.totalHours == WeightedHours(jobs, events)
  {
    var jobHours: seq<real> := seq(|jobs|, _ => 0.0);
    var jobDays: seq<nat> := seq(|jobs|, _ => 0);
    var jobKoma: seq<nat> := seq(|jobs|, _ => 0);

    var e := 0;
    while e < |events|
      invariant 0 <= e <= |events|
      invariant Tallied(jobs, events[..e], jobHours, jobDays, jobKoma)
    {
      var ev := events[e];
      if ev.summary.Some? {
        jobHours, jobDays, jobKoma := TallyEvent(jobs, ev, jobHours, jobDays, jobKoma);
      }
      assert events[..e + 1] == events[..e] + [ev];
      forall i | 0 <= i < |jobs|
        ensures jobHours[i] == JobHours(jobs[i], events[..e + 1])
        ensures jobDays[i] == JobDays(jobs[i], events[..e + 1])
        ensures jobKoma[i] == JobKoma(jobs[i], events[..e + 1])
      {
        EveryMatchingJobUpdated(jobs[i], events[..e], ev);
      }
      e := e + 1;
    }
    assert events[..e] == events;

    var jobSalary, totalHours, totalSalary := PaySalaries(jobs, jobHours, jobDays, jobKoma);
    TotalHoursCountsEveryMatch(jobs, events, jobHours);
    r := PayrollResult(jobHours, jobSalary, jobKoma, totalHours, totalSalary);
  }

  // ---------------------------------------------------------------------------
  // Properties
  // ---------------------------------------------------------------------------

  /**
   * One event updates every job whose name occurs in its title, by one day
   * and by its length in hours, and leaves every other job unchanged; an
   * untitled event changes nothing.
   */
  lemma EveryMatchingJobUpdated(job: Job, events: seq<Event>, ev: Event)
    ensures Matches(job, ev) ==>
      && JobDays(job, events + [ev]) == JobDays(job, events) + 1
      && JobHours(job, events + [ev]) == JobHours(job, events) + ShiftHours(ev)
      && JobKoma(job, events + [ev]) == JobKoma(job, events) + ShiftKoma(job, ev)
    ensures !Matches(job, ev) ==>
      && JobDays(job, events + [ev]) == JobDays(job, events)
      && JobHours(job, events + [ev]) == JobHours(job, events)
      && JobKoma(job, events + [ev]) == JobKoma(job, events)
    ensures ev.summary.None? ==> !Matches(job, ev)
  {
    assert Init(events + [ev]) == events;
  }

  /** A title holding two job names counts the shift for both. */
  lemma TwoNamesCountTwice(events: seq<Event>, start: Timestamp, end: Timestamp)
    ensures var ev := Event(Some(WASEAKA + "→" + HALUENE), start, end);
      && JobDays(DEFAULT_JOBS[0], events + [ev]) == JobDays(DEFAULT_JOBS[0], events) + 1
      && JobDays(DEFAULT_JOBS[2], events + [ev]) == JobDays(DEFAULT_JOBS[2], events) + 1
      && JobDays(DEFAULT_JOBS[1], events + [ev]) == JobDays(DEFAULT_JOBS[1], events)
  {
    var title := WASEAKA + "→" + HALUENE;
    var ev := Event(Some(title), start, end);
    assert OccursAt(WASEAKA, title, 0);
    IsSubstringIff(WASEAKA, title);
    assert OccursAt(HALUENE, title, 5);
    IsSubstringIff(HALUENE, title);
    forall k | 0 <= k && k + |TORAYA| <= |title|
      ensures !OccursAt(TORAYA, title, k)
    {
      assert title[k] != TORAYA[0];
    }
    IsSubstringIff(TORAYA, title);
    EveryMatchingJobUpdated(DEFAULT_JOBS[0], events, ev);
    EveryMatchingJobUpdated(DEFAULT_JOBS[1], events, ev);
    EveryMatchingJobUpdated(DEFAULT_JOBS[2], events, ev);
  }

  /** A job no event matches has no hours, days or slots, and its formula pays nothing. */
  lemma {:induction false} UnmatchedJobEarnsNothing(job: Job, events: seq<Event>)
    requires forall k :: 0 <= k < |events| ==> !Matches(job, events[k])
    ensures JobHours(job, events) == 0.0 && JobDays(job, events) == 0 && JobKoma(job, events) == 0
    ensures JobSalary(job, events) == 0.0
    decreases |events|
  {
    if events != [] {
      UnmatchedJobEarnsNothing(job, Init(events));
    }
    FormulasZeroAtZero(job.wage);
  }

  /** What one shift of `hours` hours overlapping `koma` slots earns on its own under the job's formula. */
  function ShiftPay(job: Job, hours: real, koma: nat): real
  {
    match job.formula
    case Waseaka => koma as real * (1.5 * job.wage + 215.0) + 425.0
    case Toraya => (hours - 0.5) * job.wage + 292.0
    case Haluene => hours * job.wage + 376.0
  }

  /** Sum of what each matching shift earns on its own. */
  function PayOfShifts(job: Job, events: seq<Event>): real
    decreases |events|
  {
    if events == [] then 0.0
    else
      var ev := Last(events);
      PayOfShifts(job, Init(events)) + (if Matches(job, ev) then ShiftPay(job, ShiftHours(ev), ShiftKoma(job, ev)) else 0.0)
  }

  /** Adding one shift to the aggregates adds exactly that shift's own pay to the salary. */
  lemma SalaryAddsShiftPay(job: Job, hours: real, days: nat, koma: nat, sh: real, kk: nat)
    ensures Salary(job, hours + sh, days + 1, koma + kk) == Salary(job, hours, days, koma) + ShiftPay(job, sh, kk)
  {
    FormulasAdditive(hours, sh, job.wage, days, 1, koma, kk);
    match job.formula {
      case Waseaka =>
        assert CalcWaseaka(sh, job.wage, 1, kk) == kk as real * (1.5 * job.wage + 215.0) + 425.0;
      case Toraya =>
        assert CalcToraya(sh, job.wage, 1) == (sh - 0.5) * job.wage + 292.0;
      case Haluene =>
    }
  }

  /**
   * The monthly salary is the sum of the per-shift pays: the formulas on the
   * monthly aggregates charge each shift its own slots, its own allowance
   * and, for the break formula, its own half-hour deduction.
   */
  lemma {:induction false} SalaryIsSumOfShiftPay(job: Job, events: seq<Event>)
    ensures JobSalary(job, events) == PayOfShifts(job, events)
    decreases |events|
  {
    if events == [] {
      FormulasZeroAtZero(job.wage);
    } else {
      var init, ev := Init(events), Last(events);
      SalaryIsSumOfShiftPay(job, init);
      if Matches(job, ev) {
        SalaryAddsShiftPay(job, JobHours(job, init), JobDays(job, init), JobKoma(job, init), ShiftHours(ev), ShiftKoma(job, ev));
      }
    }
  }

  /** How many jobs' names occur in the event's title. */
  function MatchCount(jobs: seq<Job>, ev: Event): (n: nat)
    ensures n <= |jobs|
    ensures ev.summary.None? ==> n == 0
    decreases |jobs|
  {
    if jobs == [] then 0
    else MatchCount(jobs[..|jobs| - 1], ev) + (if Matches(jobs[|jobs| - 1], ev) then 1 else 0)
  }

  /** The event's hours, once for every job whose name occurs in its title. */
  function MatchedHours(jobs: seq<Job>, ev: Event): real
    decreases |jobs|
  {
    if jobs == [] then 0.0
    else MatchedHours(jobs[..|jobs| - 1], ev) + (if Matches(jobs[|jobs| - 1], ev) then ShiftHours(ev) else 0.0)
  }

  /** Counting an event once per matching job multiplies its hours by the number of matches. */
  lemma {:induction false} MatchedHoursIsCountTimesHours(jobs: seq<Job>, ev: Event)
    ensures MatchedHours(jobs, ev) == MatchCount(jobs, ev) as real * ShiftHours(ev)
    decreases |jobs|
  {
    if jobs != [] {
      var init := jobs[..|jobs| - 1];
      MatchedHoursIsCountTimesHours(init, ev);
      var m, h := MatchCount(init, ev) as real, ShiftHours(ev);
      assert (m + 1.0) * h == m * h + h;
    }
  }

  /** Each event's hours, counted for every job it matches, summed over the events. */
  function WeightedHours(jobs: seq<Job>, events: seq<Event>): real
    decreases |events|
  {
    if events == [] then 0.0
    else WeightedHours(jobs, Init(events)) + MatchedHours(jobs, Last(events))
  }

  lemma {:induction false} WeightedHoursAddJob(jobs: seq<Job>, job: Job, events: seq<Event>)
    ensures WeightedHours(jobs + [job], events) == WeightedHours(jobs, events) + JobHours(job, events)
    decreases |events|
  {
    if events != [] {
      var init, ev := Init(events), Last(events);
      WeightedHoursAddJob(jobs, job, init);
      assert (jobs + [job])[..|jobs + [job]| - 1] == jobs;
      assert MatchedHours(jobs + [job], ev) ==
        MatchedHours(jobs, ev) + (if Matches(job, ev) then ShiftHours(ev) else 0.0);
    }
  }

  /**
   * The grand total of hours counts each shift once per job whose name occurs
   * in its title: a shift matching two jobs is counted twice, an untitled
   * shift not at all.
   */
  lemma {:induction false} TotalHoursCountsEveryMatch(jobs: seq<Job>, events: seq<Event>, hours: seq<real>)
    requires |hours| == |jobs|
    requires forall i :: 0 <= i < |jobs| ==> hours[i] == JobHours(jobs[i], events)
    ensures Sum(hours) == WeightedHours(jobs, events)
    decreases |jobs|
  {
    if jobs == [] {
      EmptyTableWeightedHours(events);
    } else {
      var n := |jobs| - 1;
      TotalHoursCountsEveryMatch(jobs[..n], events, hours[..n]);
      assert jobs[..n] + [jobs[n]] == jobs;
      WeightedHoursAddJob(jobs[..n], jobs[n], events);
    }
  }

  /** An empty job table counts no hours. */
  lemma {:induction false} EmptyTableWeightedHours(events: seq<Event>)
    ensures WeightedHours([], events) == 0.0
    decreases |events|
  {
    if events != [] {
      EmptyTableWeightedHours(Init(events));
    }
  }

  /** With the default table, each job is paid by the formula its name selects. */
  lemma DefaultJobsFormulas(events: seq<Event>)
    ensures JobSalary(DEFAULT_JOBS[0], events) ==
      CalcWaseaka(JobHours(DEFAULT_JOBS[0], events), 1410.0, JobDays(DEFAULT_JOBS[0], events), JobKoma(DEFAULT_JOBS[0], events))
    ensures JobSalary(DEFAULT_JOBS[1], events) ==
      CalcToraya(JobHours(DEFAULT_JOBS[1], events), 1250.0, JobDays(DEFAULT_JOBS[1], events))
    ensures JobSalary(DEFAULT_JOBS[2], events) ==
      CalcHaluene(JobHours(DEFAULT_JOBS[2], events), 1500.0, JobDays(DEFAULT_JOBS[2], events))
  {
  }
}
