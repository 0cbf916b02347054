// Timezone normalisation: ensure_datetime (src/wellcode_cli/github/utils.py
// and the older copy in wellcode_cli/github_metrics.py) and is_within_range.
// A value is what the callers pass: nothing, a naive datetime (a wall-clock
// reading in seconds), an aware datetime (a wall-clock reading with its UTC
// offset in seconds), or a plain date (days since 1970-01-01).

module DateTimes {
  import Clock

  datatype Value =
    | NoneValue
    | Naive(wall: int)
    | Aware(wall: int, offset: int)
    | PlainDate(day: int)

  /** The instant an aware datetime denotes, in UTC seconds. */
  function Instant(v: Value): int
    requires v.Aware?
  {
    v.wall - v.offset
  }

  /**
   * ensure_datetime: None stays None, an aware datetime is returned as it is,
   * a naive one is tagged UTC with its wall clock kept, and a date becomes its
   * midnight tagged UTC.
   */
  function EnsureDatetime(v: Value): (r: Value)
    ensures v.NoneValue? <==> r.NoneValue?
    ensures r.NoneValue? || r.Aware?
    ensures v.Aware? ==> r == v
    ensures v.Naive? ==> r.wall == v.wall && r.offset == 0
    ensures v.PlainDate? ==> r.offset == 0 && r.wall % Clock.Day == 0 && r.wall / Clock.Day == v.day
  {
    match v
    case NoneValue => NoneValue
    case Naive(wall) => Aware(wall, 0)
    case Aware(_, _) => v
    case PlainDate(day) => Aware(day * Clock.Day, 0)
  }

  /** Every result is already timezone-aware, so normalising twice changes nothing. */
  lemma EnsureDatetimeIdempotent(v: Value)
    ensures EnsureDatetime(EnsureDatetime(v)) == EnsureDatetime(v)
  {
  }

  /** Tagging a naive or date value as UTC never shifts it: its instant is its wall clock. */
  lemma EnsureDatetimeKeepsWallClock(v: Value)
    requires v.Naive?
    ensures Instant(EnsureDatetime(v)) == v.wall
    ensures Clock.HourOf(Instant(EnsureDatetime(v))) == Clock.HourOf(v.wall)
  {
  }

  /**
   * is_within_range: after normalising all three arguments, false when any is
   * missing, otherwise start <= date <= end compared as instants.
   */
  function IsWithinRange(date: Value, start: Value, end: Value): (b: bool)
    ensures b <==> (!date.NoneValue? && !start.NoneValue? && !end.NoneValue?
      && Instant(EnsureDatetime(start)) <= Instant(EnsureDatetime(date)) <= Instant(EnsureDatetime(end)))
  {
    var d, s, e := EnsureDatetime(date), EnsureDatetime(start), EnsureDatetime(end);
    if d.NoneValue? || s.NoneValue? || e.NoneValue? then false
    else Instant(s) <= Instant(d) <= Instant(e)
  }

  /** The range is inclusive at both ends. */
  lemma RangeInclusive(start: Value, end: Value)
    requires !start.NoneValue? && !end.NoneValue?
    requires Instant(EnsureDatetime(start)) <= Instant(EnsureDatetime(end))
    ensures IsWithinRange(start, start, end)
    ensures IsWithinRange(end, start, end)
  {
  }

  /** Two encodings of one instant are interchangeable as the date being checked. */
  lemma RangeDependsOnInstantOnly(d1: Value, d2: Value, start: Value, end: Value)
    requires d1.Aware? && d2.Aware? && Instant(d1) == Instant(d2)
    ensures IsWithinRange(d1, start, end) == IsWithinRange(d2, start, end)
  {
  }
}
