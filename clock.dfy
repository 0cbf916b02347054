// Instants are whole seconds since 1970-01-01T00:00:00 UTC. Dafny's `/` and
// `%` round towards negative infinity for a positive divisor, which is what
// Python's datetime arithmetic does for instants before 1970 as well.

module Clock {

  const Minute: int := 60
  const Hour: int := 3600
  const Day: int := 86400

  /** Midnight (UTC) of the day containing t: datetime.replace(hour=0, minute=0, ...). */
  function DayStart(t: int): (r: int)
    ensures r <= t < r + Day
    ensures r % Day == 0
  {
    t - t % Day
  }

  /** datetime.weekday(): Monday is 0 and Sunday is 6; 1970-01-01 was a Thursday (3). */
  function Weekday(t: int): (d: int)
    ensures 0 <= d < 7
  {
    (t / Day + 3) % 7
  }

  /** datetime.hour in UTC. */
  function HourOf(t: int): (h: int)
    ensures 0 <= h < 24
  {
    (t % Day) / Hour
  }

  predicate IsWeekday(t: int)
  {
    Weekday(t) < 5
  }

  lemma WeekdayOfDayStart(t: int)
    ensures Weekday(DayStart(t)) == Weekday(t)
    ensures HourOf(DayStart(t)) == 0
  {
    assert DayStart(t) / Day == t / Day;
  }

  /** Adding whole days moves the weekday forward cyclically and keeps the time of day. */
  lemma WeekdayShift(t: int, days: int)
    ensures Weekday(t + days * Day) == (Weekday(t) + days) % 7
    ensures HourOf(t + days * Day) == HourOf(t)
  {
    assert (t + days * Day) / Day == t / Day + days;
    assert (t + days * Day) % Day == t % Day;
  }

  /** Whole days from a midnight land on a midnight. */
  lemma WholeDays(r: int, n: int)
    requires r % Day == 0
    ensures (r + n * Day) % Day == 0
  {
    assert r + n * Day == (r / Day + n) * Day;
  }

  /** Monday midnight of the week containing t. */
  lemma MondayOfWeek(t: int)
    ensures Weekday(DayStart(t) - Weekday(t) * Day) == 0
    ensures DayStart(t) - Weekday(t) * Day <= t
    ensures (DayStart(t) - Weekday(t) * Day) % Day == 0
  {
    WeekdayOfDayStart(t);
    WeekdayShift(DayStart(t), -Weekday(t));
  }
}
