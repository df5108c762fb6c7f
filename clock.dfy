/**
 * Time as conversation.py uses it, in whole POSIX seconds.
 *
 * `datetime.fromtimestamp` yields local wall-clock time; the model fixes the local
 * zone to a constant UTC offset `tz` (seconds), so local time is `t + tz`. With a
 * positive divisor Dafny's `/` and `%` are Python's `//` and `%` (floor division),
 * also for instants before 1970. 1970-01-01 was a Thursday, and Python numbers
 * weekdays from Monday = 0, so that day is weekday 3.
 */
module Clock {
  import opened Base

  const SecondsPerHour: int := 3600
  const SecondsPerDay: int := 86400

  /** `date.hour` of the local time of instant `t`. */
  function Hour(t: int, tz: int): (h: int)
    ensures 0 <= h < 24
    ensures h * SecondsPerHour <= (t + tz) % SecondsPerDay < h * SecondsPerHour + SecondsPerHour
  {
    ((t + tz) % SecondsPerDay) / SecondsPerHour
  }

  /** `date.weekday()` of the local time of instant `t` (Monday = 0, Sunday = 6). */
  function Weekday(t: int, tz: int): (w: int)
    ensures 0 <= w < 7
  {
    ((t + tz) / SecondsPerDay + 3) % 7
  }

  /** `(date - start).days`: whole days from `start` to `t`, rounded down like `timedelta.days`. */
  function DayOffset(t: int, start: int): (d: int)
    ensures d * SecondsPerDay <= t - start < d * SecondsPerDay + SecondsPerDay
  {
    (t - start) / SecondsPerDay
  }

  /** `(end - start).days + 1`: the days from `start` to `end`, both counted. */
  function NumDays(start: int, end: int): int {
    DayOffset(end, start) + 1
  }

  /** The same wall-clock hour recurs one day later. */
  lemma HourRecursDaily(t: int, tz: int)
    ensures Hour(t + SecondsPerDay, tz) == Hour(t, tz)
  {
    assert (t + SecondsPerDay + tz) % SecondsPerDay == (t + tz) % SecondsPerDay;
  }

  /** One day later is the next weekday, Sunday wrapping round to Monday. */
  lemma WeekdayAdvancesDaily(t: int, tz: int)
    ensures Weekday(t + SecondsPerDay, tz) == (Weekday(t, tz) + 1) % 7
  {
    assert (t + SecondsPerDay + tz) / SecondsPerDay == (t + tz) / SecondsPerDay + 1;
  }

  /** Weekdays are numbered from Monday: local midnight starting Monday 1970-01-05 is weekday 0. */
  lemma WeekdayNumbersFromMonday(tz: int)
    ensures Weekday(4 * SecondsPerDay - tz, tz) == 0
  {
  }

  /** The weekday depends only on the local calendar day. */
  lemma WeekdaySameDay(s: int, t: int, tz: int)
    requires (s + tz) / SecondsPerDay == (t + tz) / SecondsPerDay
    ensures Weekday(s, tz) == Weekday(t, tz)
  {
  }

  /** An inclusive day count is at least one when the span is not reversed. */
  lemma NumDaysPositive(start: int, end: int)
    requires start <= end
    ensures NumDays(start, end) >= 1
  {
  }

  /** Every instant in `[start, end]` has a day offset below `NumDays(start, end)`. */
  lemma DayOffsetInSpan(t: int, start: int, end: int)
    requires start <= t <= end
    ensures 0 <= DayOffset(t, start) < NumDays(start, end)
  {
  }

  /**
   * The list position `lst[i]` addresses in a list of length `len`: Python accepts
   * `-len <= i < len`, a negative index counting from the end; anything else raises
   * `IndexError` (`None`).
   */
  function PyIndex(len: int, i: int): (r: Option<nat>)
    ensures r.Some? <==> -len <= i < len
    ensures r.Some? ==> r.value < len && (r.value == i || r.value == len + i)
  {
    if 0 <= i < len then Some(i)
    else if -len <= i < 0 then Some(len + i)
    else None
  }
}
