/**
 * The tweet table `data` and the steps that rewrite it column by column:
 * the adjusted time and date (lines 48-51), the year/month/week/weekday
 * split (lines 56-57) and the in-place fold of the weekday column (line
 * 62). The `weekday_key` lookup (lines 59-60) is read from the table
 * between the split and the fold, and its meaning depends on that order.
 */
module Frame {
  import opened Util
  import opened Calendar
  import opened Folding
  import opened Buckets

  /** One input record, with the columns the pipeline reads: the parsed UTC `datetime`, `sentiment` and `sentiment_score`. */
  datatype Tweet = Tweet(datetime: Instant, sentiment: string, score: real)

  /** The derived columns the table holds so far, in the order the script adds them. */
  datatype Stage =
    | Loaded    // only the input columns
    | Adjusted  // plus `datetime_adj` and `date`
    | Split     // plus `year`, `month`, `week` and the raw `weekday`
    | Folded    // `weekday` overwritten by `sat_sun_mon_combine`

  // ---------------------------------------------------------------------
  // Each column as a function of the input records.

  /** `date_parts` of a tweet's adjusted time. */
  function TweetParts(cal: Calendar, t: Tweet): Parts
  {
    DateParts(cal, AdjustedTime(t.datetime))
  }

  /** The `date` of a tweet: the date of its adjusted time. */
  function TweetDate(t: Tweet): Day
  {
    DateOf(AdjustedTime(t.datetime))
  }

  function AdjustedColumn(tweets: seq<Tweet>): (adj: seq<Instant>)
    ensures |adj| == |tweets|
    ensures forall i :: 0 <= i < |tweets| ==> adj[i] == AdjustedTime(tweets[i].datetime)
  {
    seq(|tweets|, i requires 0 <= i < |tweets| => AdjustedTime(tweets[i].datetime))
  }

  function DateColumn(adj: seq<Instant>): (dates: seq<Day>)
    ensures |dates| == |adj|
    ensures forall i :: 0 <= i < |adj| ==> dates[i] == DateOf(adj[i])
  {
    seq(|adj|, i requires 0 <= i < |adj| => DateOf(adj[i]))
  }

  function ScoreColumn(tweets: seq<Tweet>): (scores: seq<real>)
    ensures |scores| == |tweets|
    ensures forall i :: 0 <= i < |tweets| ==> scores[i] == tweets[i].score
  {
    seq(|tweets|, i requires 0 <= i < |tweets| => tweets[i].score)
  }

  /** The (year, week, weekday, date) row of every tweet, with the weekday as `date_parts` returns it. */
  function RawDateKeys(cal: Calendar, tweets: seq<Tweet>): (rows: seq<DateKey>)
    ensures |rows| == |tweets|
  {
    seq(|tweets|, i requires 0 <= i < |tweets| =>
      var p := TweetParts(cal, tweets[i]);
      DateKey(p.year, p.week, p.weekday, TweetDate(tweets[i])))
  }

  /** The same rows once the weekday has been folded. */
  function FoldedDateKeys(cal: Calendar, tweets: seq<Tweet>): (rows: seq<DateKey>)
    ensures |rows| == |tweets|
  {
    seq(|tweets|, i requires 0 <= i < |tweets| =>
      var p := TweetParts(cal, tweets[i]);
      DateKey(p.year, p.week, SatSunMonCombine(p.weekday), TweetDate(tweets[i])))
  }

  /** The daily grouping key of every tweet: (year, week, folded weekday, sentiment). */
  function DayBucketsOf(cal: Calendar, tweets: seq<Tweet>): (ks: seq<DayBucket>)
    ensures |ks| == |tweets|
  {
    seq(|tweets|, i requires 0 <= i < |tweets| =>
      var p := TweetParts(cal, tweets[i]);
      DayBucket(p.year, p.week, SatSunMonCombine(p.weekday), tweets[i].sentiment))
  }

  /** The weekly grouping key of every tweet: (year, week, sentiment). */
  function WeekBucketsOf(cal: Calendar, tweets: seq<Tweet>): (ks: seq<WeekBucket>)
    ensures |ks| == |tweets|
  {
    seq(|tweets|, i requires 0 <= i < |tweets| =>
      var p := TweetParts(cal, tweets[i]);
      WeekBucket(p.year, p.week, tweets[i].sentiment))
  }

  /** The monthly grouping key of every tweet: (year, month, sentiment). */
  function MonthBucketsOf(cal: Calendar, tweets: seq<Tweet>): (ks: seq<MonthBucket>)
    ensures |ks| == |tweets|
  {
    seq(|tweets|, i requires 0 <= i < |tweets| =>
      var p := TweetParts(cal, tweets[i]);
      MonthBucket(p.year, p.month, tweets[i].sentiment))
  }

  // ---------------------------------------------------------------------
  // The table.

  /** The `data` frame: the input records and the columns derived from them so far. */
  class TweetFrame {
    const tweets: seq<Tweet>
    const cal: Calendar
    var stage: Stage
    var datetimeAdj: seq<Instant>
    var date: seq<Day>
    var year: seq<int>
    var month: seq<int>
    var week: seq<int>
    var weekday: seq<int>

    /** Each column present at the current stage holds, row by row, what the script computes for it. */
    ghost predicate Valid()
      reads this
    {
      && (stage == Loaded ==> datetimeAdj == [] && date == [])
      && (stage != Loaded ==> datetimeAdj == AdjustedColumn(tweets) && date == DateColumn(datetimeAdj))
      && (stage == Loaded || stage == Adjusted ==> year == [] && month == [] && week == [] && weekday == [])
      && (stage == Split || stage == Folded ==>
            && |year| == |tweets| && |month| == |tweets| && |week| == |tweets| && |weekday| == |tweets|
            && forall i :: 0 <= i < |tweets| ==>
                 var p := TweetParts(cal, tweets[i]);
                 && year[i] == p.year && month[i] == p.month && week[i] == p.week
                 && weekday[i] == if stage == Split then p.weekday else SatSunMonCombine(p.weekday))
    }

    /** The table as read from the input, with no derived column yet. */
    constructor (tweets: seq<Tweet>, cal: Calendar)
      ensures Valid() && stage == Loaded
      ensures this.tweets == tweets && this.cal == cal
    {
      this.tweets := tweets;
      this.cal := cal;
      stage := Loaded;
      datetimeAdj, date := [], [];
      year, month, week, weekday := [], [], [], [];
    }

    /** Lines 48-51: adds `datetime_adj`, each tweet's time moved back eight hours, and `date`, its date. */
    method AddAdjustedDatetime()
      requires Valid() && stage == Loaded
      modifies this
      ensures Valid() && stage == Adjusted
      ensures datetimeAdj == AdjustedColumn(tweets) && date == DateColumn(datetimeAdj)
    {
      var adj: seq<Instant> := [];
      for i := 0 to |tweets|
        invariant |adj| == i
        invariant forall j :: 0 <= j < i ==> adj[j] == AdjustedTime(tweets[j].datetime)
      {
        adj := adj + [AdjustedTime(tweets[i].datetime)];
      }
      datetimeAdj := adj;
      date := DateColumn(datetimeAdj);
      stage := Adjusted;
    }

    /** Lines 56-57: adds the `year`, `month`, `week` and `weekday` columns from `date_parts` of each adjusted time. */
    method AddDateParts()
      requires Valid() && stage == Adjusted
      modifies this
      ensures Valid() && stage == Split
      ensures datetimeAdj == old(datetimeAdj) && date == old(date)
    {
      var ys, ms, ws, ds: seq<int> := [], [], [], [];
      for i := 0 to |tweets|
        invariant |ys| == i && |ms| == i && |ws| == i && |ds| == i
        invariant forall j :: 0 <= j < i ==>
          var p := DateParts(cal, datetimeAdj[j]);
          ys[j] == p.year && ms[j] == p.month && ws[j] == p.week && ds[j] == p.weekday
      {
        var p := DateParts(cal, datetimeAdj[i]);
        ys, ms, ws, ds := ys + [p.year], ms + [p.month], ws + [p.week], ds + [p.weekday];
      }
      year, month, week, weekday := ys, ms, ws, ds;
      stage := Split;
    }

    /** Line 62: overwrites `weekday` in place with `sat_sun_mon_combine` of itself; no other column changes. */
    method FoldWeekdays()
      requires Valid() && stage == Split
      modifies this
      ensures Valid() && stage == Folded
      ensures |weekday| == |old(weekday)|
      ensures forall i :: 0 <= i < |weekday| ==> weekday[i] == SatSunMonCombine(old(weekday)[i])
      ensures datetimeAdj == old(datetimeAdj) && date == old(date)
      ensures year == old(year) && month == old(month) && week == old(week)
    {
      var raw := weekday;
      weekday := seq(|raw|, i requires 0 <= i < |raw| => SatSunMonCombine(raw[i]));
      stage := Folded;
    }

    /**
     * Lines 59-60: `weekday_key`, read from the table as it stands. Taken
     * before the fold it is built from the raw weekdays; taken after it, it
     * would be built from the folded ones.
     */
    function WeekdayKey(): (key: seq<DateKey>)
      reads this
      requires Valid() && (stage == Split || stage == Folded)
      ensures stage == Split ==> key == WeekdayKeyOf(RawDateKeys(cal, tweets))
      ensures stage == Folded ==> key == WeekdayKeyOf(FoldedDateKeys(cal, tweets))
    {
      var ys, ws, ds, dates := year, week, weekday, date;
      var rows := seq(|tweets|, i requires 0 <= i < |tweets| => DateKey(ys[i], ws[i], ds[i], dates[i]));
      assert stage == Split ==> rows == RawDateKeys(cal, tweets);
      assert stage == Folded ==> rows == FoldedDateKeys(cal, tweets);
      WeekdayKeyOf(rows)
    }

    /** The `['year','week','weekday','sentiment']` grouping columns (line 67), read after the fold. */
    function DayKeys(): (ks: seq<DayBucket>)
      reads this
      requires Valid() && stage == Folded
      ensures ks == DayBucketsOf(cal, tweets)
    {
      var ys, ws, ds := year, week, weekday;
      seq(|tweets|, i requires 0 <= i < |tweets| => DayBucket(ys[i], ws[i], ds[i], tweets[i].sentiment))
    }

    /** The `['year','week','sentiment']` grouping columns (line 86). */
    function WeekKeys(): (ks: seq<WeekBucket>)
      reads this
      requires Valid() && (stage == Split || stage == Folded)
      ensures ks == WeekBucketsOf(cal, tweets)
    {
      var ys, ws := year, week;
      seq(|tweets|, i requires 0 <= i < |tweets| => WeekBucket(ys[i], ws[i], tweets[i].sentiment))
    }

    /** The `['year','month','sentiment']` grouping columns (line 91). */
    function MonthKeys(): (ks: seq<MonthBucket>)
      reads this
      requires Valid() && (stage == Split || stage == Folded)
      ensures ks == MonthBucketsOf(cal, tweets)
    {
      var ys, ms := year, month;
      seq(|tweets|, i requires 0 <= i < |tweets| => MonthBucket(ys[i], ms[i], tweets[i].sentiment))
    }
  }

  // ---------------------------------------------------------------------
  // What the lookup holds, depending on when it is taken.

  /**
   * Taken before the fold, the lookup holds only weekday rows, each with the
   * weekday of its own date; so its only weekday-0 rows are Mondays, and
   * every row comes from a tweet.
   */
  lemma WeekdayKeyAnchoredOnMonday(cal: Calendar, tweets: seq<Tweet>)
    ensures forall e :: e in WeekdayKeyOf(RawDateKeys(cal, tweets)) ==>
      && !IsWeekend(e.weekday)
      && e.weekday == Weekday(e.date)
      && (e.weekday == FOLDED_BUCKET ==> Weekday(e.date) == MONDAY)
      && exists i :: 0 <= i < |tweets| && TweetDate(tweets[i]) == e.date && TweetParts(cal, tweets[i]).weekday == e.weekday
  {
    var rows := RawDateKeys(cal, tweets);
    forall e | e in WeekdayKeyOf(rows)
      ensures e.weekday == Weekday(e.date)
      ensures exists i :: 0 <= i < |tweets| && TweetDate(tweets[i]) == e.date && TweetParts(cal, tweets[i]).weekday == e.weekday
    {
      var i :| 0 <= i < |rows| && rows[i] == e;
    }
  }

  /**
   * Two tweets sent on the same weekday (Monday to Friday) of the same
   * calendar year and ISO week were sent on the same date. This holds for
   * most sets of tweets but not all: a tweet of Monday 2024-01-01 and one of
   * Monday 2024-12-30 are both in calendar year 2024 and ISO week 1.
   */
  ghost predicate TweetDatesIdentified(cal: Calendar, tweets: seq<Tweet>)
  {
    forall i, j :: 0 <= i < |tweets| && 0 <= j < |tweets| ==>
      var di, dj := TweetDate(tweets[i]), TweetDate(tweets[j]);
      (Weekday(di) == Weekday(dj) && !IsWeekend(Weekday(di)) &&
       cal(di).year == cal(dj).year && cal(di).isoWeek == cal(dj).isoWeek) ==> di == dj
  }

  /**
   * The lookup taken before the fold has one date per key exactly when the
   * tweets' weekday dates are identified by their year, week and weekday.
   */
  lemma WeekdayKeyUnique(cal: Calendar, tweets: seq<Tweet>)
    ensures UniqueDayKeys(WeekdayKeyOf(RawDateKeys(cal, tweets))) <==> TweetDatesIdentified(cal, tweets)
  {
    var rows := RawDateKeys(cal, tweets);
    var key := WeekdayKeyOf(rows);
    if TweetDatesIdentified(cal, tweets) {
      forall a, b | 0 <= a < |key| && 0 <= b < |key| && SameDay(key[a], key[b])
        ensures key[a].date == key[b].date
      {
        assert key[a] in key && key[b] in key;
        var i :| 0 <= i < |rows| && rows[i] == key[a];
        var j :| 0 <= j < |rows| && rows[j] == key[b];
        var di, dj := TweetDate(tweets[i]), TweetDate(tweets[j]);
        assert Weekday(di) == Weekday(dj) && !IsWeekend(Weekday(di));
      }
    }
    if UniqueDayKeys(key) {
      forall i, j | 0 <= i < |tweets| && 0 <= j < |tweets|
        ensures var di, dj := TweetDate(tweets[i]), TweetDate(tweets[j]);
          (Weekday(di) == Weekday(dj) && !IsWeekend(Weekday(di)) &&
           cal(di).year == cal(dj).year && cal(di).isoWeek == cal(dj).isoWeek) ==> di == dj
      {
        var di, dj := TweetDate(tweets[i]), TweetDate(tweets[j]);
        if Weekday(di) == Weekday(dj) && !IsWeekend(Weekday(di)) &&
           cal(di).year == cal(dj).year && cal(di).isoWeek == cal(dj).isoWeek
        {
          assert rows[i] in key && rows[j] in key;
          var a :| 0 <= a < |key| && key[a] == rows[i];
          var b :| 0 <= b < |key| && key[b] == rows[j];
          assert SameDay(key[a], key[b]);
        }
      }
    }
  }

  /**
   * Taken after the fold, the lookup would break: a Saturday or Sunday tweet
   * and a Monday tweet of the same (year, week) would give bucket 0 two
   * different dates.
   */
  lemma WeekdayKeyAfterFoldIsAmbiguous(cal: Calendar, tweets: seq<Tweet>, i: int, j: int)
    requires 0 <= i < |tweets| && 0 <= j < |tweets|
    requires IsWeekend(TweetParts(cal, tweets[i]).weekday) && TweetParts(cal, tweets[j]).weekday == MONDAY
    requires TweetParts(cal, tweets[i]).year == TweetParts(cal, tweets[j]).year
    requires TweetParts(cal, tweets[i]).week == TweetParts(cal, tweets[j]).week
    ensures !UniqueDayKeys(WeekdayKeyOf(FoldedDateKeys(cal, tweets)))
    ensures forall e :: e in WeekdayKeyOf(RawDateKeys(cal, tweets)) ==> e.date != TweetDate(tweets[i])
  {
    var rows := FoldedDateKeys(cal, tweets);
    var key := WeekdayKeyOf(rows);
    assert rows[i] in key && rows[j] in key;
    var a :| 0 <= a < |key| && key[a] == rows[i];
    var b :| 0 <= b < |key| && key[b] == rows[j];
    assert SameDay(key[a], key[b]) && key[a].date != key[b].date;
    WeekdayKeyAnchoredOnMonday(cal, tweets);
  }

  /**
   * The Saturday and Sunday tweets of a weekend fall into the daily bucket
   * of the Monday after it, as long as the weekend does not straddle the
   * turn of an ISO or calendar year.
   */
  lemma WeekendTweetsShareMondayBucket(cal: Calendar, tweets: seq<Tweet>, i: int, j: int)
    requires IsoWeeksRunMondayToSunday(cal)
    requires 0 <= i < |tweets| && 0 <= j < |tweets|
    requires Weekday(TweetDate(tweets[j])) == MONDAY
    requires TweetDate(tweets[i]) == TweetDate(tweets[j]) - 1 || TweetDate(tweets[i]) == TweetDate(tweets[j]) - 2
    requires cal(TweetDate(tweets[j])).isoWeek == cal(TweetDate(tweets[j]) - 1).isoWeek + 1
    requires cal(TweetDate(tweets[j]) - 2).year == cal(TweetDate(tweets[j])).year
    requires cal(TweetDate(tweets[j]) - 1).year == cal(TweetDate(tweets[j])).year
    requires tweets[i].sentiment == tweets[j].sentiment
    ensures DayBucketsOf(cal, tweets)[i] == DayBucketsOf(cal, tweets)[j]
    ensures DayBucketsOf(cal, tweets)[j].weekday == FOLDED_BUCKET
  {
    var mon := AdjustedTime(tweets[j].datetime);
    var m := TweetDate(tweets[j]);
    var sat := (m - 2) * SECONDS_PER_DAY;
    var sun := (m - 1) * SECONDS_PER_DAY;
    DateOfSplit(sat, m - 2, 0);
    DateOfSplit(sun, m - 1, 0);
    WeekendJoinsFollowingMonday(cal, sat, sun, mon);
  }
}
