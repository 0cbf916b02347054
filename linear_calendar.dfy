// The working-time arithmetic of the issue-tracker report
// (src/wellcode_cli/linear/linear_metrics.py): work hours between two
// instants, work points, working days and the story-point table. Instants are
// UTC seconds; the source's `astimezone(UTC)` is the identity on them. Work
// hours are counted in seconds (the source divides by 3600).

module LinearCalendar {
  import opened Common
  import opened Clock

  const WorkdayStart: int := 9 * Hour
  const WorkdayEnd: int := 17 * Hour
  const WorkdayCap: int := 8 * Hour

  /** The 09:00 of the day after the day containing t: where the loop moves next. */
  function NextNine(t: int): (n: int)
    ensures t < n
    ensures n % Day == WorkdayStart
  {
    DayStart(t) + WorkdayStart + Day
  }

  /** What one iteration credits for the day containing `current`, given the end instant. */
  function DayCredit(current: int, end: int): int
  {
    if IsWeekday(current) then
      var dayEnd := if DayStart(current) + WorkdayEnd < end then DayStart(current) + WorkdayEnd else end;
      var dayStart := DayStart(current) + WorkdayStart;
      if dayEnd > dayStart then (if dayEnd - dayStart < WorkdayCap then dayEnd - dayStart else WorkdayCap) else 0
    else 0
  }

  /** The work seconds the loop adds up from `current` until `end`. */
  function WorkSeconds(current: int, end: int): int
    decreases end - current
  {
    if current >= end then 0 else DayCredit(current, end) + WorkSeconds(NextNine(current), end)
  }

  /** The number of iterations the loop makes from `current`. */
  function Iterations(current: int, end: int): nat
    decreases end - current
  {
    if current >= end then 0 else 1 + Iterations(NextNine(current), end)
  }

  /** A day contributes only on Monday to Friday, and never more than 8 hours. */
  lemma DayCreditBounds(current: int, end: int)
    ensures 0 <= DayCredit(current, end) <= WorkdayCap
    ensures !IsWeekday(current) ==> DayCredit(current, end) == 0
    ensures end <= DayStart(current) + WorkdayStart ==> DayCredit(current, end) == 0
  {
  }

  /** The total is between 0 and 8 hours per iteration. */
  lemma {:induction false} WorkSecondsBounds(current: int, end: int)
    ensures 0 <= WorkSeconds(current, end) <= WorkdayCap * Iterations(current, end)
    decreases end - current
  {
    if current < end {
      DayCreditBounds(current, end);
      WorkSecondsBounds(NextNine(current), end);
    }
  }

  /**
   * The start's time of day is ignored: two starts on the same day, both before
   * the end, give the same total.
   */
  lemma IgnoresStartTimeOfDay(s1: int, s2: int, end: int)
    requires DayStart(s1) == DayStart(s2) && s1 < end && s2 < end
    ensures WorkSeconds(s1, end) == WorkSeconds(s2, end)
  {
    WeekdayOfDayStart(s1);
    WeekdayOfDayStart(s2);
    assert NextNine(s1) == NextNine(s2);
    assert DayCredit(s1, end) == DayCredit(s2, end);
  }

  /** A window that starts on a Saturday and ends before Monday counts nothing. */
  lemma WeekendWindowIsFree(current: int, end: int)
    requires Weekday(current) == 5 && end <= DayStart(current) + 2 * Day
    ensures WorkSeconds(current, end) == 0
  {
    var next := NextNine(current);
    WeekdayOfDayStart(current);
    WeekdayShift(DayStart(current), 1);
    assert next == DayStart(current) + Day + WorkdayStart;
    assert Weekday(next) == 6 by {
      assert next / Day == DayStart(current) / Day + 1;
    }
    if next < end {
      var next2 := NextNine(next);
      assert DayStart(next) == DayStart(current) + Day;
      assert DayCredit(next, end) == 0;
      assert WorkSeconds(next2, end) == 0;
    }
  }

  /** calculate_work_hours, in seconds; a missing endpoint gives 0. */
  method CalculateWorkHours(start: Option<int>, end: Option<int>) returns (total: int)
    ensures start.None? || end.None? ==> total == 0
    ensures start.Some? && end.Some? ==> total == WorkSeconds(start.value, end.value)
    ensures start.Some? && end.Some? && end.value <= start.value ==> total == 0
    ensures total >= 0
  {
    if start.None? || end.None? {
      return 0;
    }
    var e := end.value;
    var current := start.value;
    total := 0;
    WorkSecondsBounds(current, e);
    while current < e
      invariant total + WorkSeconds(current, e) == WorkSeconds(start.value, e)
      invariant total >= 0
      decreases e - current
    {
      if Weekday(current) < 5 {
        var dayEnd := DayStart(current) + WorkdayEnd;
        if e < dayEnd {
          dayEnd := e;
        }
        var dayStart := DayStart(current) + WorkdayStart;
        if dayEnd > dayStart {
          var worked := dayEnd - dayStart;
          total := total + (if worked < WorkdayCap then worked else WorkdayCap);
        }
      }
      current := DayStart(current) + WorkdayStart + Day;
    }
  }

  /** One point per 24-hour step from `current` (while before `end`) that lands on a weekday. */
  function WorkPoints(current: int, end: int): nat
    decreases end - current
  {
    if current >= end then 0 else (if IsWeekday(current) then 1 else 0) + WorkPoints(current + Day, end)
  }

  /** Counting in two stretches, split on a whole number of days, adds up. */
  lemma {:induction false} WorkPointsSplit(current: int, days: nat, end: int)
    requires current + days * Day <= end
    ensures WorkPoints(current, end) == WorkPoints(current, current + days * Day) + WorkPoints(current + days * Day, end)
    decreases days
  {
    if days > 0 {
      WorkPointsSplit(current + Day, days - 1, end);
      assert current + Day + (days - 1) * Day == current + days * Day;
      WorkPointsSplit(current + Day, days - 1, current + days * Day);
      assert WorkPoints(current + days * Day, current + days * Day) == 0;
    }
  }

  /** Weekdays among the k days that follow a day whose weekday is w. */
  function WeekPoints(w: int, k: nat): nat
  {
    if k == 0 then 0 else WeekPoints(w, k - 1) + (if (w + k - 1) % 7 < 5 then 1 else 0)
  }

  /** The first k steps of the point count, for k days that end before `end`. */
  lemma {:induction false} WorkPointsPrefix(current: int, k: nat, end: int)
    requires current + k * Day <= end
    ensures WorkPoints(current, end) == WeekPoints(Weekday(current), k) + WorkPoints(current + k * Day, end)
    decreases k
  {
    if k > 0 {
      WorkPointsPrefix(current, k - 1, end);
      var t := current + (k - 1) * Day;
      assert t + Day == current + k * Day;
      WeekdayShift(current, k - 1);
    }
  }

  /** A full week from any instant holds exactly five points. */
  lemma WorkPointsWeek(current: int)
    ensures WorkPoints(current, current + 7 * Day) == 5
  {
    WorkPointsPrefix(current, 7, current + 7 * Day);
    FiveOfSeven(Weekday(current));
  }

  /** Seven consecutive weekdays, starting anywhere, hold five of Monday to Friday. */
  lemma FiveOfSeven(w: int)
    requires 0 <= w < 7
    ensures WeekPoints(w, 7) == 5
  {
    if w == 0 {
      assert WeekPoints(0, 7) == 5;
    } else if w == 1 {
      assert WeekPoints(1, 7) == 5;
    } else if w == 2 {
      assert WeekPoints(2, 7) == 5;
    } else if w == 3 {
      assert WeekPoints(3, 7) == 5;
    } else if w == 4 {
      assert WeekPoints(4, 7) == 5;
    } else if w == 5 {
      assert WeekPoints(5, 7) == 5;
    } else {
      assert WeekPoints(6, 7) == 5;
    }
  }

  /** k whole weeks from any instant hold exactly 5k points. */
  lemma {:induction false} WorkPointsWeeks(current: int, weeks: nat)
    ensures WorkPoints(current, current + 7 * weeks * Day) == 5 * weeks
    decreases weeks
  {
    if weeks > 0 {
      var end := current + 7 * weeks * Day;
      WorkPointsSplit(current, 7, end);
      WorkPointsWeek(current);
      assert current + 7 * Day + 7 * (weeks - 1) * Day == end;
      WorkPointsWeeks(current + 7 * Day, weeks - 1);
    }
  }

  /** calculate_work_points; a missing endpoint gives 0. */
  method CalculateWorkPoints(start: Option<int>, end: Option<int>) returns (total: nat)
    ensures start.None? || end.None? ==> total == 0
    ensures start.Some? && end.Some? ==> total == WorkPoints(start.value, end.value)
  {
    if start.None? || end.None? {
      return 0;
    }
    var e := end.value;
    var current := start.value;
    total := 0;
    while current < e
      invariant total + WorkPoints(current, e) == WorkPoints(start.value, e)
      decreases e - current
    {
      if Weekday(current) < 5 {
        total := total + 1;
      }
      current := current + Day;
    }
  }

  /** The date (days since 1970-01-01) of an instant: datetime.date(). */
  function DateOf(t: int): int
  {
    t / Day
  }

  /** Monday to Friday, for a date counted in days since 1970-01-01 (a Thursday). */
  predicate IsWorkingDate(d: int)
  {
    (d + 3) % 7 < 5
  }

  /** Working dates from `d` to `last`, both included. */
  function WorkingDates(d: int, last: int): nat
    decreases last - d
  {
    if d > last then 0 else (if IsWorkingDate(d) then 1 else 0) + WorkingDates(d + 1, last)
  }

  /** The Monday-to-Friday dates of the inclusive range, as a set. */
  ghost function WorkingDateSet(d: int, last: int): set<int>
  {
    set x | d <= x <= last && IsWorkingDate(x)
  }

  /** The loop counts exactly the Monday-to-Friday dates of the inclusive range. */
  lemma {:induction false} WorkingDatesCountsSet(d: int, last: int)
    ensures WorkingDates(d, last) == |WorkingDateSet(d, last)|
    decreases last - d
  {
    if d > last {
      assert WorkingDateSet(d, last) == {};
    } else {
      WorkingDatesCountsSet(d + 1, last);
      if IsWorkingDate(d) {
        assert WorkingDateSet(d, last) == {d} + WorkingDateSet(d + 1, last);
      } else {
        assert WorkingDateSet(d, last) == WorkingDateSet(d + 1, last);
      }
    }
  }

  /** calculate_working_days; a missing endpoint gives 0. */
  method CalculateWorkingDays(start: Option<int>, end: Option<int>) returns (days: nat)
    ensures start.None? || end.None? ==> days == 0
    ensures start.Some? && end.Some? ==> days == |WorkingDateSet(DateOf(start.value), DateOf(end.value))|
    ensures start.Some? && end.Some? && DateOf(end.value) < DateOf(start.value) ==> days == 0
  {
    if start.None? || end.None? {
      return 0;
    }
    var last := DateOf(end.value);
    var current := DateOf(start.value);
    WorkingDatesCountsSet(current, last);
    days := 0;
    while current <= last
      invariant days + WorkingDates(current, last) == WorkingDates(DateOf(start.value), last)
      decreases last - current
    {
      if (current + 3) % 7 < 5 {
        days := days + 1;
      }
      current := current + 1;
    }
  }

  /** The story points the table knows. */
  predicate IsTablePoint(points: int)
  {
    points == 1 || points == 2 || points == 3 || points == 5 || points == 8 || points == 13
  }

  /** points_to_expected_hours: the Fibonacci table in working hours, 0 for any other value. */
  function PointsToExpectedHours(points: int): (hours: int)
    ensures hours == 0 <==> !IsTablePoint(points)
    ensures hours >= 0
    ensures points == 3 ==> hours == 8
    ensures points == 5 ==> hours == 40
  {
    var hoursPerDay, hoursPerWeek := 8, 40;
    if points == 1 then 1
    else if points == 2 then 4
    else if points == 3 then hoursPerDay
    else if points == 5 then hoursPerWeek
    else if points == 8 then hoursPerWeek + hoursPerDay * 5
    else if points == 13 then hoursPerWeek * 2
    else 0
  }

  /** More points never mean fewer expected hours, within the table. */
  lemma PointsToExpectedHoursMonotone(p: int, q: int)
    requires IsTablePoint(p) && IsTablePoint(q) && p <= q
    ensures PointsToExpectedHours(p) <= PointsToExpectedHours(q)
  {
  }
}
