/**
 * The daily slot ("koma") schedule of the slot-based employer and the rule
 * that decides which slots a shift overlaps. Every slot window is re-anchored
 * onto the date (and offset and seconds) of the shift's start, and a slot
 * counts when the shift and the window overlap as open intervals.
 */
module Koma {
  import opened Clock

  datatype Slot = Slot(name: string, from: WallClock, to: WallClock)

  /** The fixed daily schedule Y, Z, A, B, C, D. */
  const WASEDA_KOMA: seq<Slot> := [
    Slot("Y", WallClock(10, 40), WallClock(12, 10)),
    Slot("Z", WallClock(12, 20), WallClock(13, 50)),
    Slot("A", WallClock(15, 0), WallClock(16, 30)),
    Slot("B", WallClock(16, 40), WallClock(18, 10)),
    Slot("C", WallClock(18, 20), WallClock(19, 50)),
    Slot("D", WallClock(20, 0), WallClock(21, 30))
  ]

  /** The end of the last slot of the day. */
  const LAST_SLOT_END: WallClock := WallClock(21, 30)

  /** Slots are non-empty, ordered by start time and pairwise disjoint. */
  ghost predicate OrderedSchedule(schedule: seq<Slot>)
  {
    && (forall i :: 0 <= i < |schedule| ==> ClockSeconds(schedule[i].from) < ClockSeconds(schedule[i].to))
    && (forall i, j :: 0 <= i < j < |schedule| ==> ClockSeconds(schedule[i].to) <= ClockSeconds(schedule[j].from))
  }

  lemma WasedaScheduleShape()
    ensures |WASEDA_KOMA| == 6
    ensures WASEDA_KOMA[0].from == WallClock(10, 40) && WASEDA_KOMA[5].to == LAST_SLOT_END
    ensures OrderedSchedule(WASEDA_KOMA)
    ensures forall i :: 0 <= i < |WASEDA_KOMA| ==> ClockSeconds(WASEDA_KOMA[i].to) <= ClockSeconds(LAST_SLOT_END)
  {
  }

  /** The shift `[start, end]` meets `slot` re-anchored on the start's date, boundaries excluded. */
  predicate Overlaps(start: Timestamp, end: Timestamp, slot: Slot)
  {
    Instant(start) < Instant(WithClock(start, slot.to)) && Instant(end) > Instant(WithClock(start, slot.from))
  }

  /** The number of slots of `schedule` the shift overlaps. */
  function KomaCount(start: Timestamp, end: Timestamp, schedule: seq<Slot>): (n: nat)
    ensures n <= |schedule|
    decreases |schedule|
  {
    if schedule == [] then 0
    else
      var last := schedule[|schedule| - 1];
      KomaCount(start, end, schedule[..|schedule| - 1]) + (if Overlaps(start, end, last) then 1 else 0)
  }

  /** Counts the schedule slots one shift overlaps, slot by slot. */
  method CountKoma(start: Timestamp, end: Timestamp) returns (n: nat)
    ensures n == KomaCount(start, end, WASEDA_KOMA)
    ensures n <= |WASEDA_KOMA|
  {
    n := 0;
    var i := 0;
    while i < |WASEDA_KOMA|
      invariant 0 <= i <= |WASEDA_KOMA|
      invariant n == KomaCount(start, end, WASEDA_KOMA[..i])
    {
      var slot := WASEDA_KOMA[i];
      var komaStart := WithClock(start, slot.from);
      var komaEnd := WithClock(start, slot.to);
      if Instant(start) < Instant(komaEnd) && Instant(end) > Instant(komaStart) {
        n := n + 1;
      }
      assert WASEDA_KOMA[..i + 1][..i] == WASEDA_KOMA[..i];
      i := i + 1;
    }
    assert WASEDA_KOMA[..i] == WASEDA_KOMA;
  }

  /** No slot is counted exactly when the shift overlaps none of them. */
  lemma {:induction false} KomaCountZeroIff(start: Timestamp, end: Timestamp, schedule: seq<Slot>)
    ensures KomaCount(start, end, schedule) == 0 <==>
      forall i :: 0 <= i < |schedule| ==> !Overlaps(start, end, schedule[i])
    decreases |schedule|
  {
    if schedule != [] {
      var init := schedule[..|schedule| - 1];
      KomaCountZeroIff(start, end, init);
      assert forall i :: 0 <= i < |init| ==> init[i] == schedule[i];
    }
  }

  /** Every slot is counted exactly when the shift overlaps all of them. */
  lemma {:induction false} KomaCountAllIff(start: Timestamp, end: Timestamp, schedule: seq<Slot>)
    ensures KomaCount(start, end, schedule) == |schedule| <==>
      forall i :: 0 <= i < |schedule| ==> Overlaps(start, end, schedule[i])
    decreases |schedule|
  {
    if schedule != [] {
      var init := schedule[..|schedule| - 1];
      KomaCountAllIff(start, end, init);
      assert forall i :: 0 <= i < |init| ==> init[i] == schedule[i];
    }
  }

  /** Two shifts from the same start that overlap the same slots count the same. */
  lemma {:induction false} KomaCountSameOverlaps(start: Timestamp, e1: Timestamp, e2: Timestamp, schedule: seq<Slot>)
    requires forall i :: 0 <= i < |schedule| ==> (Overlaps(start, e1, schedule[i]) <==> Overlaps(start, e2, schedule[i]))
    ensures KomaCount(start, e1, schedule) == KomaCount(start, e2, schedule)
    decreases |schedule|
  {
    if schedule != [] {
      var init := schedule[..|schedule| - 1];
      assert forall i :: 0 <= i < |init| ==> init[i] == schedule[i];
      KomaCountSameOverlaps(start, e1, e2, init);
    }
  }

  /** Ending a shift later never lowers its slot count. */
  lemma {:induction false} KomaCountMonotoneInEnd(start: Timestamp, e1: Timestamp, e2: Timestamp, schedule: seq<Slot>)
    requires Instant(e1) <= Instant(e2)
    ensures KomaCount(start, e1, schedule) <= KomaCount(start, e2, schedule)
    decreases |schedule|
  {
    if schedule != [] {
      KomaCountMonotoneInEnd(start, e1, e2, schedule[..|schedule| - 1]);
    }
  }

  /** `t` lies in the half-open second range `[lo, hi)`. */
  predicate Within(t: int, lo: int, hi: int)
  {
    lo <= t < hi
  }

  /**
   * For a shift of positive length and a slot that starts before it ends, the
   * strict test holds exactly when shift and slot window share a second:
   * touching boundaries do not overlap.
   */
  lemma OverlapsIffSharedSecond(start: Timestamp, end: Timestamp, slot: Slot)
    requires Instant(start) < Instant(end)
    requires ClockSeconds(slot.from) < ClockSeconds(slot.to)
    ensures Overlaps(start, end, slot) <==>
      exists t :: Within(t, Instant(start), Instant(end)) &&
                  Within(t, Instant(WithClock(start, slot.from)), Instant(WithClock(start, slot.to)))
  {
    var ks := Instant(WithClock(start, slot.from));
    var ke := Instant(WithClock(start, slot.to));
    WithClockOrder(start, slot.to, slot.from);
    if Overlaps(start, end, slot) {
      var t := if Instant(start) < ks then ks else Instant(start);
      assert Within(t, Instant(start), Instant(end)) && Within(t, ks, ke);
    }
  }

  /** A shift ending exactly at a slot's start, or starting exactly at its end, does not count it. */
  lemma TouchingSlotNotCounted(start: Timestamp, end: Timestamp, slot: Slot)
    requires Instant(end) == Instant(WithClock(start, slot.from)) || Instant(start) == Instant(WithClock(start, slot.to))
    ensures !Overlaps(start, end, slot)
  {
  }

  // ---------------------------------------------------------------------------
  // The fixed schedule
  // ---------------------------------------------------------------------------

  function At(day: int, hour: Hour, minute: Minute, offset: UtcOffset): Timestamp
  {
    Timestamp(day, ClockSeconds(WallClock(hour, minute)), offset)
  }

  /** A shift from 10:00 to 22:00 on one date overlaps all six slots. */
  lemma FullDayCountsSix(day: int, offset: UtcOffset)
    ensures KomaCount(At(day, 10, 0, offset), At(day, 22, 0, offset), WASEDA_KOMA) == 6
  {
    KomaCountAllIff(At(day, 10, 0, offset), At(day, 22, 0, offset), WASEDA_KOMA);
  }

  /** A shift covering exactly slot Y, 10:40 to 12:10, counts one slot. */
  lemma ExactSlotCountsOne(day: int, offset: UtcOffset)
    ensures KomaCount(At(day, 10, 40, offset), At(day, 12, 10, offset), WASEDA_KOMA) == 1
    ensures Overlaps(At(day, 10, 40, offset), At(day, 12, 10, offset), WASEDA_KOMA[0])
  {
    var s, e := At(day, 10, 40, offset), At(day, 12, 10, offset);
    assert Overlaps(s, e, WASEDA_KOMA[0]);
    KomaCountZeroIff(s, e, WASEDA_KOMA[1..]);
    assert KomaCount(s, e, WASEDA_KOMA[1..]) == 0;
    KomaCountSplitFirst(s, e, WASEDA_KOMA);
  }

  /** A shift filling the break from 12:10 to 12:20 touches Y and Z but counts neither. */
  lemma BreakBetweenSlotsCountsZero(day: int, offset: UtcOffset)
    ensures KomaCount(At(day, 12, 10, offset), At(day, 12, 20, offset), WASEDA_KOMA) == 0
  {
    KomaCountZeroIff(At(day, 12, 10, offset), At(day, 12, 20, offset), WASEDA_KOMA);
  }

  /** Counting can equally start from the first slot. */
  lemma {:induction false} KomaCountSplitFirst(start: Timestamp, end: Timestamp, schedule: seq<Slot>)
    requires schedule != []
    ensures KomaCount(start, end, schedule) ==
      (if Overlaps(start, end, schedule[0]) then 1 else 0) + KomaCount(start, end, schedule[1..])
    decreases |schedule|
  {
    if |schedule| > 1 {
      var init := schedule[..|schedule| - 1];
      KomaCountSplitFirst(start, end, init);
      assert init[1..] == schedule[1..][..|schedule[1..]| - 1];
    }
  }

  /**
   * A shift whose start clock reads 21:30 or later counts no slot at all,
   * however late it ends: every window lies on the start's date, before it.
   */
  lemma LateStartCountsZero(start: Timestamp, end: Timestamp)
    requires start.sec >= ClockSeconds(LAST_SLOT_END)
    ensures KomaCount(start, end, WASEDA_KOMA) == 0
  {
    WasedaScheduleShape();
    forall i | 0 <= i < |WASEDA_KOMA|
      ensures !Overlaps(start, end, WASEDA_KOMA[i])
    {
      var w := WithClock(start, WASEDA_KOMA[i].to);
      assert w.sec == ClockSeconds(WASEDA_KOMA[i].to) + start.sec % 60;
      assert start.sec == 60 * (start.sec / 60) + start.sec % 60;
    }
    KomaCountZeroIff(start, end, WASEDA_KOMA);
  }

  /**
   * Once a shift runs past the last slot of its start date, its end no longer
   * matters: a shift crossing midnight never counts slots of its end date.
   */
  lemma EndPastLastSlotIgnored(start: Timestamp, e1: Timestamp, e2: Timestamp)
    requires Instant(e1) >= Instant(WithClock(start, LAST_SLOT_END))
    requires Instant(e2) >= Instant(WithClock(start, LAST_SLOT_END))
    ensures KomaCount(start, e1, WASEDA_KOMA) == KomaCount(start, e2, WASEDA_KOMA)
  {
    WasedaScheduleShape();
    forall i | 0 <= i < |WASEDA_KOMA|
      ensures Overlaps(start, e1, WASEDA_KOMA[i]) <==> Overlaps(start, e2, WASEDA_KOMA[i])
    {
      WithClockOrder(start, LAST_SLOT_END, WASEDA_KOMA[i].from);
    }
    KomaCountSameOverlaps(start, e1, e2, WASEDA_KOMA);
  }

  /** An overnight shift from 23:00 to 14:00 the next day counts nothing, though it covers Y and Z of that day. */
  lemma OvernightShiftCountsZero(day: int, offset: UtcOffset)
    ensures KomaCount(At(day, 23, 0, offset), At(day + 1, 14, 0, offset), WASEDA_KOMA) == 0
  {
    LateStartCountsZero(At(day, 23, 0, offset), At(day + 1, 14, 0, offset));
  }

  /** The order of start and end is not checked: a shift from 12:00 back to 11:00 counts slot Y. */
  lemma ReversedShiftCountsSlot(day: int, offset: UtcOffset)
    ensures KomaCount(At(day, 12, 0, offset), At(day, 11, 0, offset), WASEDA_KOMA) == 1
    ensures Overlaps(At(day, 12, 0, offset), At(day, 11, 0, offset), WASEDA_KOMA[0])
  {
    var s, e := At(day, 12, 0, offset), At(day, 11, 0, offset);
    assert Overlaps(s, e, WASEDA_KOMA[0]);
    KomaCountZeroIff(s, e, WASEDA_KOMA[1..]);
    KomaCountSplitFirst(s, e, WASEDA_KOMA);
  }
}
