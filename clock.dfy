/**
 * Timezone-aware timestamps, the `replace(hour=…, minute=…)` re-anchoring the
 * slot rule depends on, and the year/month arithmetic of the query window.
 */
module Clock {
  import opened Wrappers

  const SECONDS_PER_DAY: int := 86400

  /** A second within one day on the local clock. */
  type SecondOfDay = s: int | 0 <= s < 86400
  /** A fixed UTC offset in seconds east of UTC; such offsets lie strictly inside one day. */
  type UtcOffset = o: int | -86400 < o < 86400
  type Hour = h: int | 0 <= h < 24
  type Minute = m: int | 0 <= m < 60

  /**
   * An aware datetime at whole-second resolution: a day index and a second of
   * that day, both read on the local clock, together with the UTC offset.
   */
  datatype Timestamp = Timestamp(day: int, sec: SecondOfDay, offset: UtcOffset)

  /** A wall-clock time `HH:MM` as written in a slot table. */
  datatype WallClock = WallClock(hour: Hour, minute: Minute)

  /**
   * The absolute instant of `t` in seconds since day 0 UTC. Aware datetimes
   * are ordered and subtracted by this instant.
   */
  function Instant(t: Timestamp): (i: int)
    ensures (i + t.offset) / SECONDS_PER_DAY == t.day && (i + t.offset) % SECONDS_PER_DAY == t.sec
  {
    t.day * SECONDS_PER_DAY + t.sec - t.offset
  }

  function ClockSeconds(w: WallClock): (s: SecondOfDay)
    ensures s % 60 == 0 && s / 60 == w.hour * 60 + w.minute
  {
    w.hour * 3600 + w.minute * 60
  }

  /**
   * `t.replace(hour=w.hour, minute=w.minute)`: the date, the offset and the
   * seconds of `t` are kept, only its hour and minute are replaced.
   */
  function WithClock(t: Timestamp, w: WallClock): (r: Timestamp)
    ensures r.day == t.day && r.offset == t.offset
    ensures r.sec / 60 == w.hour * 60 + w.minute
    ensures r.sec % 60 == t.sec % 60
  {
    Timestamp(t.day, ClockSeconds(w) + t.sec % 60, t.offset)
  }

  /** Two re-anchorings of the same timestamp are ordered exactly as their wall-clock times. */
  lemma WithClockOrder(t: Timestamp, a: WallClock, b: WallClock)
    ensures Instant(WithClock(t, a)) - Instant(WithClock(t, b)) == ClockSeconds(a) - ClockSeconds(b)
  {
  }

  // ---------------------------------------------------------------------------
  // Months
  // ---------------------------------------------------------------------------

  const MINYEAR: int := 1
  const MAXYEAR: int := 9999

  type Month = m: int | 1 <= m <= 12 witness 1

  /** A naive midnight datetime `datetime(year, month, day)`. */
  datatype Date = Date(year: int, month: int, day: int)

  /** The exception `datetime` raises for a field outside its range. */
  datatype DateError = ValueError

  /** Months counted from January of year 0; consecutive months differ by one. */
  function MonthIndex(year: int, month: int): int
  {
    12 * year + (month - 1)
  }

  /** The month after `(year, month)`: the `▶` button, and `relativedelta(months=1)`. */
  function NextMonth(year: int, month: Month): (r: (int, Month))
    ensures MonthIndex(r.0, r.1) == MonthIndex(year, month) + 1
  {
    if month == 12 then (year + 1, 1) else (year, month + 1)
  }

  /** The month before `(year, month)`: the `◀` button. */
  function PrevMonth(year: int, month: Month): (r: (int, Month))
    ensures MonthIndex(r.0, r.1) == MonthIndex(year, month) - 1
  {
    if month == 1 then (year - 1, 12) else (year, month - 1)
  }

  /** A month index determines its year and month. */
  lemma MonthIndexInjective(y1: int, m1: Month, y2: int, m2: Month)
    requires MonthIndex(y1, m1) == MonthIndex(y2, m2)
    ensures y1 == y2 && m1 == m2
  {
  }

  /** Stepping forward and back are inverse to each other. */
  lemma MonthStepsInverse(year: int, month: Month)
    ensures PrevMonth(NextMonth(year, month).0, NextMonth(year, month).1) == (year, month)
    ensures NextMonth(PrevMonth(year, month).0, PrevMonth(year, month).1) == (year, month)
  {
    var n := NextMonth(year, month);
    var p := PrevMonth(n.0, n.1);
    MonthIndexInjective(p.0, p.1, year, month);
    var p' := PrevMonth(year, month);
    var n' := NextMonth(p'.0, p'.1);
    MonthIndexInjective(n'.0, n'.1, year, month);
  }

  /**
   * The query window `[first instant of the month, first instant of the next
   * month)`. `datetime(year, month, 1)` raises for a month outside 1..12 or a
   * year outside 1..9999, and adding one month to December 9999 leaves the
   * year range and raises too.
   */
  function GetMonthRange(year: int, month: int): (r: Result<(Date, Date), DateError>)
    ensures r.Success? <==>
      MINYEAR <= year <= MAXYEAR && 1 <= month <= 12 && MonthIndex(year, month) < MonthIndex(MAXYEAR, 12)
    ensures r.Success? ==> r.value.0 == Date(year, month, 1)
    ensures r.Success? ==>
      var e := r.value.1;
      e.day == 1 && 1 <= e.month <= 12 && MINYEAR <= e.year <= MAXYEAR &&
      MonthIndex(e.year, e.month) == MonthIndex(year, month) + 1
  {
    if !(MINYEAR <= year <= MAXYEAR && 1 <= month <= 12) then
      Failure(ValueError)
    else
      var next := NextMonth(year, month);
      if next.0 > MAXYEAR then Failure(ValueError)
      else Success((Date(year, month, 1), Date(next.0, next.1, 1)))
  }

  /** December wraps to January of the following year. */
  lemma DecemberWraps(year: int)
    requires MINYEAR <= year < MAXYEAR
    ensures GetMonthRange(year, 12) == Success((Date(year, 12, 1), Date(year + 1, 1, 1)))
  {
  }

  /** The window ends where the `▶` button would move to. */
  lemma RangeEndIsNextMonth(year: int, month: Month)
    requires GetMonthRange(year, month).Success?
    ensures var e := GetMonthRange(year, month).value.1;
      (e.year, e.month) == NextMonth(year, month)
  {
    var e := GetMonthRange(year, month).value.1;
    var n := NextMonth(year, month);
    MonthIndexInjective(e.year, e.month, n.0, n.1);
  }
}
