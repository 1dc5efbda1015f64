/**
 * Calendar alignment: the 8-hour shift of every tweet's UTC time and the
 * year / month / week / weekday split that `date_parts` performs on the
 * shifted time.
 *
 * Instants are whole seconds since 1970-01-01 00:00:00 UTC and dates are
 * day numbers since 1970-01-01. The weekday follows Python's `weekday()`
 * (Monday 0 ... Sunday 6). The Gregorian calendar itself (the year, month
 * and ISO 8601 week number of a date) is not re-derived: it is supplied as
 * a `Calendar`, a function from day numbers to those fields.
 */
module Calendar {

  /** An instant, in whole seconds since 1970-01-01 00:00:00 UTC. */
  type Instant = int

  /** A calendar date, as the number of days since 1970-01-01. */
  type Day = int

  const SECONDS_PER_HOUR: int := 3600
  const SECONDS_PER_DAY: int := 24 * SECONDS_PER_HOUR

  /** Every tweet is moved back by `timedelta(hours=8)`. */
  const OFFSET_HOURS: int := 8
  const OFFSET: int := OFFSET_HOURS * SECONDS_PER_HOUR

  /** Python's `weekday()` numbering. */
  const MONDAY: int := 0
  const SATURDAY: int := 5
  const SUNDAY: int := 6

  /** 1970-01-01 was a Thursday. */
  const EPOCH_WEEKDAY: int := 3

  /** `datetime_adj`: the parsed UTC time moved back by the offset. */
  function AdjustedTime(t: Instant): Instant
  {
    t - OFFSET
  }

  /** `.dt.date`: the calendar date an instant falls on. */
  function DateOf(t: Instant): Day
  {
    t / SECONDS_PER_DAY
  }

  /** Seconds elapsed since midnight of the instant's own date. */
  function TimeOfDay(t: Instant): (s: int)
    ensures 0 <= s < SECONDS_PER_DAY
    ensures DateOf(t) * SECONDS_PER_DAY + s == t
  {
    t % SECONDS_PER_DAY
  }

  /** The date of an instant is determined by any split into whole days and a time of day. */
  lemma DateOfSplit(t: Instant, q: Day, r: int)
    requires 0 <= r < SECONDS_PER_DAY && t == q * SECONDS_PER_DAY + r
    ensures DateOf(t) == q
  {
  }

  /**
   * The adjusted time is exactly eight hours before the tweet, and its date
   * is the previous date exactly when the tweet was sent before 08:00 UTC.
   */
  lemma ShiftedDate(t: Instant)
    ensures t - AdjustedTime(t) == OFFSET_HOURS * SECONDS_PER_HOUR
    ensures TimeOfDay(t) < OFFSET ==> DateOf(AdjustedTime(t)) == DateOf(t) - 1
    ensures TimeOfDay(t) >= OFFSET ==> DateOf(AdjustedTime(t)) == DateOf(t)
  {
    var q, r := DateOf(t), TimeOfDay(t);
    if r < OFFSET {
      DateOfSplit(AdjustedTime(t), q - 1, r - OFFSET + SECONDS_PER_DAY);
    } else {
      DateOfSplit(AdjustedTime(t), q, r - OFFSET);
    }
  }

  /** Python's `weekday()` of a date: Monday is 0 and Sunday is 6. */
  function Weekday(d: Day): (w: int)
    ensures 0 <= w <= 6
  {
    (d + EPOCH_WEEKDAY) % 7
  }

  /** `weekday in [5,6]`. */
  predicate IsWeekend(weekday: int)
  {
    weekday == SATURDAY || weekday == SUNDAY
  }

  /** The Saturday and Sunday before a Monday are the two preceding dates. */
  lemma WeekendBeforeMonday(mon: Day)
    requires Weekday(mon) == MONDAY
    ensures Weekday(mon - 1) == SUNDAY && Weekday(mon - 2) == SATURDAY
  {
  }

  /** What the calendar library reports about a date: its year, its month and its ISO 8601 week number. */
  datatype CivilFields = CivilFields(year: int, month: int, isoWeek: int)

  /** The Gregorian and ISO 8601 calendar, as the civil fields of every date. */
  type Calendar = Day -> CivilFields

  /** The four values `date_parts` returns. */
  datatype Parts = Parts(year: int, month: int, week: int, weekday: int)

  /**
   * `date_parts`: year, month and weekday of the adjusted time's date, and
   * its ISO week, one higher on Saturday and Sunday so that a weekend shares
   * the week of the Monday after it.
   */
  function DateParts(cal: Calendar, adj: Instant): (p: Parts)
    ensures p.weekday == Weekday(DateOf(adj))
    ensures p.year == cal(DateOf(adj)).year && p.month == cal(DateOf(adj)).month
    ensures p.week == cal(DateOf(adj)).isoWeek + 1 <==> IsWeekend(p.weekday)
    ensures p.week == cal(DateOf(adj)).isoWeek <==> !IsWeekend(p.weekday)
  {
    var day := DateOf(adj);
    var weekday := Weekday(day);
    var week := if IsWeekend(weekday) then cal(day).isoWeek + 1 else cal(day).isoWeek;
    Parts(cal(day).year, cal(day).month, week, weekday)
  }

  /** ISO 8601 weeks run from Monday to Sunday: a date other than a Monday has the week number of the date before it. */
  ghost predicate IsoWeeksRunMondayToSunday(cal: Calendar)
  {
    forall d: Day {:trigger Weekday(d)} :: Weekday(d) != MONDAY ==> cal(d).isoWeek == cal(d - 1).isoWeek
  }

  /**
   * Inside one ISO year and one calendar year, the Saturday and Sunday
   * before a Monday get that Monday's year and week from `date_parts`.
   */
  lemma WeekendJoinsFollowingMonday(cal: Calendar, sat: Instant, sun: Instant, mon: Instant)
    requires IsoWeeksRunMondayToSunday(cal)
    requires Weekday(DateOf(mon)) == MONDAY
    requires DateOf(sat) == DateOf(mon) - 2 && DateOf(sun) == DateOf(mon) - 1
    requires cal(DateOf(mon)).isoWeek == cal(DateOf(sun)).isoWeek + 1
    requires cal(DateOf(sat)).year == cal(DateOf(mon)).year && cal(DateOf(sun)).year == cal(DateOf(mon)).year
    ensures DateParts(cal, sat).weekday == SATURDAY && DateParts(cal, sun).weekday == SUNDAY
    ensures DateParts(cal, sat).year == DateParts(cal, mon).year && DateParts(cal, sun).year == DateParts(cal, mon).year
    ensures DateParts(cal, sat).week == DateParts(cal, mon).week && DateParts(cal, sun).week == DateParts(cal, mon).week
  {
    WeekendBeforeMonday(DateOf(mon));
    assert Weekday(DateOf(sun)) != MONDAY;
  }

  /**
   * There is no wrap-around at the turn of an ISO year: when the Monday
   * opens week 1, the Sunday before it (in week 52 or 53) is bumped to 53
   * or 54 and does not join it.
   */
  lemma WeekendBeforeFirstIsoWeekStaysApart(cal: Calendar, sun: Instant, mon: Instant)
    requires Weekday(DateOf(mon)) == MONDAY && DateOf(sun) == DateOf(mon) - 1
    requires cal(DateOf(mon)).isoWeek == 1 && cal(DateOf(sun)).isoWeek >= 52
    ensures DateParts(cal, sun).week >= 53 && DateParts(cal, mon).week == 1
  {
    WeekendBeforeMonday(DateOf(mon));
  }
}
