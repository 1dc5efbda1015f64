/**
 * Weekend folding: `sat_sun_mon_combine`, which puts Saturday, Sunday and
 * Monday into one daily bucket, and the `weekday_key` lookup of the dates
 * behind each (year, week, weekday), taken before the fold.
 */
module Folding {
  import opened Util
  import opened Calendar

  /** The daily bucket that Saturday, Sunday and Monday share. */
  const FOLDED_BUCKET: int := 0

  /** `sat_sun_mon_combine`: Tuesday to Friday keep their number, every other day goes to bucket 0. */
  function SatSunMonCombine(daynum: int): (r: int)
    ensures 0 <= r <= 4
    ensures r == daynum <==> 0 <= daynum <= 4
    ensures r != daynum ==> r == FOLDED_BUCKET
  {
    if daynum in {1, 2, 3, 4} then daynum else FOLDED_BUCKET
  }

  /** Folding a folded weekday changes nothing. */
  lemma SatSunMonCombineIdempotent(daynum: int)
    ensures SatSunMonCombine(SatSunMonCombine(daynum)) == SatSunMonCombine(daynum)
  {
  }

  /** Monday, Saturday and Sunday land in the folded bucket; Tuesday to Friday stay apart from it and from each other. */
  lemma SatSunMonShareBucket(daynum: int)
    requires 0 <= daynum <= 6
    ensures SatSunMonCombine(daynum) == FOLDED_BUCKET <==> daynum == MONDAY || IsWeekend(daynum)
    ensures SatSunMonCombine(daynum) != FOLDED_BUCKET ==> SatSunMonCombine(daynum) == daynum
  {
  }

  /** One row of `weekday_key`: a (year, week, weekday) and the date behind it. */
  datatype DateKey = DateKey(year: int, week: int, weekday: int, date: Day)

  /** `drop_duplicates()`: the rows without repeats. */
  function DropDuplicates(s: seq<DateKey>): (r: seq<DateKey>)
    ensures Distinct(r)
    ensures forall x :: x in r <==> x in s
    ensures |r| <= |s|
  {
    if s == [] then []
    else
      var n := |s| - 1;
      assert s == s[..n] + [s[n]];
      var kept := DropDuplicates(s[..n]);
      if s[n] in kept then kept else kept + [s[n]]
  }

  /** The rows whose weekday is neither Saturday (5) nor Sunday (6). */
  function NonWeekendRows(rows: seq<DateKey>): (r: seq<DateKey>)
    ensures forall e :: e in r <==> e in rows && !IsWeekend(e.weekday)
  {
    if rows == [] then []
    else
      assert rows == [rows[0]] + rows[1..];
      (if IsWeekend(rows[0].weekday) then [] else [rows[0]]) + NonWeekendRows(rows[1..])
  }

  /**
   * `weekday_key`: the (year, week, weekday, date) rows of every tweet not
   * sent on a Saturday or Sunday, without duplicates.
   */
  function WeekdayKeyOf(rows: seq<DateKey>): (key: seq<DateKey>)
    ensures Distinct(key)
    ensures forall e :: e in key <==> e in rows && !IsWeekend(e.weekday)
  {
    DropDuplicates(NonWeekendRows(rows))
  }

  /** Two lookup rows name the same (year, week, weekday). */
  predicate SameDay(a: DateKey, b: DateKey)
  {
    a.year == b.year && a.week == b.week && a.weekday == b.weekday
  }

  /** Every (year, week, weekday) in the lookup names one date, so a left merge on it cannot duplicate rows. */
  predicate UniqueDayKeys(key: seq<DateKey>)
  {
    forall i, j :: 0 <= i < |key| && 0 <= j < |key| && SameDay(key[i], key[j]) ==> key[i].date == key[j].date
  }

  /** The date the lookup holds for (year, week, weekday), or a missing cell when it holds none. */
  function LookupDate(key: seq<DateKey>, year: int, week: int, weekday: int): (d: Option<Day>)
    ensures d.Some? ==> DateKey(year, week, weekday, d.value) in key
    ensures d.None? ==> forall e :: e in key ==> !SameDay(e, DateKey(year, week, weekday, 0))
  {
    if key == [] then None
    else if key[0].year == year && key[0].week == week && key[0].weekday == weekday then Some(key[0].date)
    else LookupDate(key[1..], year, week, weekday)
  }

  /** Under unique day keys the lookup finds a date exactly when the key holds that date. */
  lemma LookupDateExact(key: seq<DateKey>, year: int, week: int, weekday: int, d: Day)
    requires UniqueDayKeys(key)
    ensures LookupDate(key, year, week, weekday) == Some(d) <==> DateKey(year, week, weekday, d) in key
  {
    var found := LookupDate(key, year, week, weekday);
    if DateKey(year, week, weekday, d) in key {
      var j :| 0 <= j < |key| && key[j] == DateKey(year, week, weekday, d);
      assert !SameDay(key[j], DateKey(year, week, weekday, 0)) ==> false;
      var i :| 0 <= i < |key| && key[i] == DateKey(year, week, weekday, found.value);
      assert SameDay(key[i], key[j]);
    }
  }
}
