/** The office calendar of the efficiency calculator: weekdays, the 09:00-17:00 office
    window and the per-day hour cap. An instant is a whole number of minutes counted
    from a Monday at 00:00, so its day is `t / 1440` and that day is a weekday when
    `day % 7 < 5` (0 is Monday). */
module OfficeCalendar {

  const MinutesPerDay: int := 1440
  /** 09:00 and 17:00, in minutes after midnight. */
  const OfficeStart: int := 540
  const OfficeEnd: int := 1020

  function DayOf(t: int): int {
    t / MinutesPerDay
  }

  function TimeOf(t: int): int {
    t % MinutesPerDay
  }

  predicate IsWeekday(day: int) {
    day % 7 < 5
  }

  function MinInt(a: int, b: int): int {
    if a <= b then a else b
  }

  function MaxInt(a: int, b: int): int {
    if a <= b then b else a
  }

  function MinReal(a: real, b: real): real {
    if a <= b then a else b
  }

  /** Hours from minute `from` to minute `to` of one day, capped at `maxHours`, or
      nothing when the window is empty. */
  function WindowHours(from: int, to: int, maxHours: real): (r: real)
    ensures from >= to ==> r == 0.0
    ensures from < to ==> r <= (to - from) as real / 60.0 && r <= maxHours
    ensures from < to && maxHours >= 0.0 ==> r >= 0.0
  {
    if from < to then MinReal((to - from) as real / 60.0, maxHours) else 0.0
  }

  /** The hours one calendar day contributes to the span from `start` to `end`. */
  function DayHours(day: int, start: int, end: int, maxHours: real): (r: real)
    ensures !IsWeekday(day) ==> r == 0.0
    ensures maxHours >= 0.0 ==> 0.0 <= r <= maxHours
    ensures IsWeekday(day) && DayOf(start) < day < DayOf(end) ==> r == maxHours
    ensures day == DayOf(start) || day == DayOf(end) ==> r <= 8.0
  {
    if !IsWeekday(day) then 0.0
    else if day == DayOf(start) && day == DayOf(end) then
      WindowHours(MaxInt(TimeOf(start), OfficeStart), MinInt(TimeOf(end), OfficeEnd), maxHours)
    else if day == DayOf(start) then
      WindowHours(MaxInt(TimeOf(start), OfficeStart), OfficeEnd, maxHours)
    else if day == DayOf(end) then
      WindowHours(OfficeStart, MinInt(TimeOf(end), OfficeEnd), maxHours)
    else maxHours
  }

  /** The hours of the days `lo` up to, but not including, `hi`. */
  function HoursOver(lo: int, hi: int, start: int, end: int, maxHours: real): real
    decreases hi - lo
  {
    if hi <= lo then 0.0 else HoursOver(lo, hi - 1, start, end, maxHours) + DayHours(hi - 1, start, end, maxHours)
  }

  /** The weekdays among the days `lo` up to, but not including, `hi`. */
  function WeekdaysIn(lo: int, hi: int): nat
    decreases hi - lo
  {
    if hi <= lo then 0 else WeekdaysIn(lo, hi - 1) + (if IsWeekday(hi - 1) then 1 else 0)
  }

  /** `_calculate_business_hours_between_dates`, before rounding. */
  function BusinessHours(start: int, end: int, maxHours: real): real {
    if start >= end then 0.0 else HoursOver(DayOf(start), DayOf(end) + 1, start, end, maxHours)
  }

  /** `_calculate_office_days_between_dates`. */
  function OfficeDays(start: int, end: int): nat {
    if start >= end then 0 else WeekdaysIn(DayOf(start), DayOf(end) + 1)
  }

  method BusinessHoursBetween(start: int, end: int, maxHours: real) returns (total: real)
    ensures total == BusinessHours(start, end, maxHours)
  {
    if start >= end {
      return 0.0;
    }
    total := 0.0;
    var current := DayOf(start);
    var last := DayOf(end);
    while current <= last
      invariant DayOf(start) <= current <= last + 1
      invariant total == HoursOver(DayOf(start), current, start, end, maxHours)
      decreases last - current
    {
      if !IsWeekday(current) {
        current := current + 1;
        continue;
      }
      if current == DayOf(start) && current == DayOf(end) {
        var dayStart := MaxInt(TimeOf(start), OfficeStart);
        var dayEnd := MinInt(TimeOf(end), OfficeEnd);
        if dayStart < dayEnd {
          total := total + MinReal((dayEnd - dayStart) as real / 60.0, maxHours);
        }
      } else if current == DayOf(start) {
        var dayStart := MaxInt(TimeOf(start), OfficeStart);
        if dayStart < OfficeEnd {
          total := total + MinReal((OfficeEnd - dayStart) as real / 60.0, maxHours);
        }
      } else if current == DayOf(end) {
        var dayEnd := MinInt(TimeOf(end), OfficeEnd);
        if OfficeStart < dayEnd {
          total := total + MinReal((dayEnd - OfficeStart) as real / 60.0, maxHours);
        }
      } else {
        total := total + maxHours;
      }
      current := current + 1;
    }
  }

  method OfficeDaysBetween(start: int, end: int) returns (days: real)
    ensures days == OfficeDays(start, end) as real
  {
    if start >= end {
      return 0.0;
    }
    days := 0.0;
    var current := DayOf(start);
    var last := DayOf(end);
    while current <= last
      invariant DayOf(start) <= current <= last + 1
      invariant days == WeekdaysIn(DayOf(start), current) as real
      decreases last - current
    {
      if current % 7 < 5 {
        days := days + 1.0;
      }
      current := current + 1;
    }
  }

  /** An end that is not after the start spans nothing. */
  lemma EmptySpan(start: int, end: int, maxHours: real)
    requires end <= start
    ensures BusinessHours(start, end, maxHours) == 0.0 && OfficeDays(start, end) == 0
  {
  }

  /** The cap summed over the office days among the days `lo` up to `hi`. */
  function CapOver(lo: int, hi: int, maxHours: real): real
    decreases hi - lo
  {
    if hi <= lo then 0.0 else CapOver(lo, hi - 1, maxHours) + (if IsWeekday(hi - 1) then maxHours else 0.0)
  }

  lemma {:induction false} CapOverIsProduct(lo: int, hi: int, maxHours: real)
    ensures CapOver(lo, hi, maxHours) == WeekdaysIn(lo, hi) as real * maxHours
    decreases hi - lo
  {
    if hi > lo {
      CapOverIsProduct(lo, hi - 1, maxHours);
      var w := WeekdaysIn(lo, hi - 1);
      assert (w + 1) as real * maxHours == w as real * maxHours + maxHours;
    }
  }

  /** Business hours never exceed the per-day cap on each office day of the span. */
  lemma {:induction false} HoursOverBounded(lo: int, hi: int, start: int, end: int, maxHours: real)
    requires maxHours >= 0.0
    ensures 0.0 <= HoursOver(lo, hi, start, end, maxHours) <= CapOver(lo, hi, maxHours)
    decreases hi - lo
  {
    if hi > lo {
      HoursOverBounded(lo, hi - 1, start, end, maxHours);
    }
  }

  lemma BusinessHoursBounded(start: int, end: int, maxHours: real)
    requires maxHours >= 0.0
    ensures 0.0 <= BusinessHours(start, end, maxHours) <= OfficeDays(start, end) as real * maxHours
  {
    if start < end {
      var lo, hi := DayOf(start), DayOf(end) + 1;
      HoursOverBounded(lo, hi, start, end, maxHours);
      CapOverIsProduct(lo, hi, maxHours);
      assert BusinessHours(start, end, maxHours) == HoursOver(lo, hi, start, end, maxHours);
      assert OfficeDays(start, end) == WeekdaysIn(lo, hi);
    }
  }

  /** Any seven consecutive days hold exactly five weekdays. */
  lemma FiveWeekdaysPerWeek(d: int)
    ensures WeekdaysIn(d, d + 7) == 5
  {
    WeekdaysShift(d, 7);
    WeekFromResidue(d % 7);
  }

  /** The weekdays among `k` days starting at a day whose weekday index is `r`. */
  function WeekdaysFrom(r: int, k: nat): nat {
    if k == 0 then 0 else WeekdaysFrom(r, k - 1) + (if (r + k - 1) % 7 < 5 then 1 else 0)
  }

  lemma {:induction false} WeekdaysShift(d: int, k: nat)
    ensures WeekdaysIn(d, d + k) == WeekdaysFrom(d % 7, k)
  {
    if k > 0 {
      WeekdaysShift(d, k - 1);
      ShiftedWeekday(d / 7, d % 7, k - 1);
      assert d == d / 7 * 7 + d % 7;
    }
  }

  lemma WeekFromResidue(r: int)
    requires 0 <= r < 7
    ensures WeekdaysFrom(r, 7) == 5
  {
    if r < 4 {
      WeekFromEarlyResidue(r);
    } else {
      WeekFromLateResidue(r);
    }
  }

  lemma WeekFromEarlyResidue(r: int)
    requires 0 <= r < 4
    ensures WeekdaysFrom(r, 7) == 5
  {
    if r == 0 { assert WeekdaysFrom(0, 7) == 5; }
    else if r == 1 { assert WeekdaysFrom(1, 7) == 5; }
    else if r == 2 { assert WeekdaysFrom(2, 7) == 5; }
    else { assert WeekdaysFrom(3, 7) == 5; }
  }

  lemma WeekFromLateResidue(r: int)
    requires 4 <= r < 7
    ensures WeekdaysFrom(r, 7) == 5
  {
    if r == 4 { assert WeekdaysFrom(4, 7) == 5; }
    else if r == 5 { assert WeekdaysFrom(5, 7) == 5; }
    else { assert WeekdaysFrom(6, 7) == 5; }
  }

  lemma ShiftedWeekday(q: int, r: int, k: int)
    requires 0 <= r < 7
    ensures IsWeekday(q * 7 + r + k) <==> (r + k) % 7 < 5
  {
    assert q * 7 + r + k == q * 7 + (r + k);
  }

  /** A whole week strictly inside the span contributes five full days. */
  lemma {:induction false} InnerDaysAreFull(lo: int, hi: int, start: int, end: int, maxHours: real)
    requires DayOf(start) < lo && hi <= DayOf(end)
    ensures HoursOver(lo, hi, start, end, maxHours) == WeekdaysIn(lo, hi) as real * maxHours
    decreases hi - lo
  {
    if hi > lo {
      InnerDaysAreFull(lo, hi - 1, start, end, maxHours);
    }
  }

  lemma InnerWeekIsFiveDays(d: int, start: int, end: int, maxHours: real)
    requires DayOf(start) < d && d + 7 <= DayOf(end)
    ensures HoursOver(d, d + 7, start, end, maxHours) == 5.0 * maxHours
  {
    InnerDaysAreFull(d, d + 7, start, end, maxHours);
    FiveWeekdaysPerWeek(d);
  }

  /** Within a single weekday, the span counts its part inside office hours. */
  lemma SameDaySpan(start: int, end: int, maxHours: real)
    requires start < end && DayOf(start) == DayOf(end) && IsWeekday(DayOf(start))
    requires OfficeStart <= TimeOf(start) && TimeOf(end) <= OfficeEnd
    ensures BusinessHours(start, end, maxHours) == MinReal((end - start) as real / 60.0, maxHours)
  {
    var day := DayOf(start);
    assert end - start == TimeOf(end) - TimeOf(start);
    assert HoursOver(day, day + 1, start, end, maxHours) == HoursOver(day, day, start, end, maxHours) + DayHours(day, start, end, maxHours);
  }
}
