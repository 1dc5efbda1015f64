/**
 * The script's top level, in its own order: derive the calendar columns,
 * take the date lookup, fold the weekday, aggregate by day, correct the
 * folded buckets, re-attach the dates, aggregate by week and month, pivot
 * each table wide and add the comparison columns.
 */
module Pipeline {
  import opened Util
  import opened Calendar
  import opened Folding
  import opened Grouping
  import opened Buckets
  import opened Frame
  import opened Pivot
  import opened Comparison

  // ---------------------------------------------------------------------
  // The tables as functions of the input.

  /** `weekday_key`, taken after the split and before the fold. */
  function WeekdayKeySpec(cal: Calendar, tweets: seq<Tweet>): seq<DateKey>
  {
    WeekdayKeyOf(RawDateKeys(cal, tweets))
  }

  /** `daily_data` before the pivot: the corrected daily buckets with their dates attached. */
  function DailyRows(cal: Calendar, tweets: seq<Tweet>): seq<DatedRow>
    requires UniqueDayKeys(WeekdayKeySpec(cal, tweets))
  {
    AttachDates(FoldCorrected(Aggregate(DayBucketsOf(cal, tweets), ScoreColumn(tweets))), WeekdayKeySpec(cal, tweets))
  }

  /** `data_week` before the pivot. */
  function WeeklyRows(cal: Calendar, tweets: seq<Tweet>): seq<AggRow<WeekBucket>>
  {
    Aggregate(WeekBucketsOf(cal, tweets), ScoreColumn(tweets))
  }

  /** `data_month` before the pivot. */
  function MonthlyRows(cal: Calendar, tweets: seq<Tweet>): seq<AggRow<MonthBucket>>
  {
    Aggregate(MonthBucketsOf(cal, tweets), ScoreColumn(tweets))
  }

  /** The daily table as the pivot reads it: keyed by `stock_date` alone (the `date` column renamed at line 83). */
  function DailyLong(rows: seq<DatedRow>): (long: seq<LongRow<Option<Day>>>)
    ensures |long| == |rows|
    ensures forall i :: 0 <= i < |rows| ==>
      long[i] == LongRow(rows[i].stockDate, rows[i].key.sentiment, Metrics(rows[i].mean, rows[i].sum, rows[i].num))
  {
    seq(|rows|, i requires 0 <= i < |rows| =>
      LongRow(rows[i].stockDate, rows[i].key.sentiment, Metrics(rows[i].mean, rows[i].sum, rows[i].num)))
  }

  /** The weekly table as the pivot reads it: keyed by `week` alone, the year dropped. */
  function WeeklyLong(rows: seq<AggRow<WeekBucket>>): (long: seq<LongRow<int>>)
    ensures |long| == |rows|
    ensures forall i :: 0 <= i < |rows| ==>
      long[i] == LongRow(rows[i].key.week, rows[i].key.sentiment, Metrics(rows[i].mean, rows[i].sum, rows[i].num))
  {
    seq(|rows|, i requires 0 <= i < |rows| =>
      LongRow(rows[i].key.week, rows[i].key.sentiment, Metrics(rows[i].mean, rows[i].sum, rows[i].num)))
  }

  /** The monthly table as the pivot reads it: keyed by `month` alone, the year dropped. */
  function MonthlyLong(rows: seq<AggRow<MonthBucket>>): (long: seq<LongRow<int>>)
    ensures |long| == |rows|
    ensures forall i :: 0 <= i < |rows| ==>
      long[i] == LongRow(rows[i].key.month, rows[i].key.sentiment, Metrics(rows[i].mean, rows[i].sum, rows[i].num))
  {
    seq(|rows|, i requires 0 <= i < |rows| =>
      LongRow(rows[i].key.month, rows[i].key.sentiment, Metrics(rows[i].mean, rows[i].sum, rows[i].num)))
  }

  /**
   * The joins cannot multiply rows: the lookup has one date per (year,
   * week, weekday), and no join key carries two rows of one label in any of
   * the three tables. By `WeekdayKeyUnique`, the first conjunct holds exactly
   * when the tweets' weekday dates are told apart by year, week and weekday.
   */
  predicate JoinKeysUnique(cal: Calendar, tweets: seq<Tweet>)
  {
    && UniqueDayKeys(WeekdayKeySpec(cal, tweets))
    && UniquePerLabel(DailyLong(DailyRows(cal, tweets)))
    && UniquePerLabel(WeeklyLong(WeeklyRows(cal, tweets)))
    && UniquePerLabel(MonthlyLong(MonthlyRows(cal, tweets)))
  }

  // ---------------------------------------------------------------------
  // The script, step by step.

  /**
   * Runs the pipeline on the parsed tweets and the calendar. The three
   * results are the pivoted daily, weekly and monthly tables with their
   * comparison columns.
   */
  method RunPipeline(tweets: seq<Tweet>, cal: Calendar)
    returns (daily: WideTable<Option<Day>>, weekly: WideTable<int>, monthly: WideTable<int>)
    requires JoinKeysUnique(cal, tweets)
    ensures daily.rows == CreatePnnColumns(DailyLong(DailyRows(cal, tweets))) && daily.HasComparisonMetrics()
    ensures weekly.rows == CreatePnnColumns(WeeklyLong(WeeklyRows(cal, tweets))) && weekly.HasComparisonMetrics()
    ensures monthly.rows == CreatePnnColumns(MonthlyLong(MonthlyRows(cal, tweets))) && monthly.HasComparisonMetrics()
  {
    var data, weekdayKey := PrepareFrame(tweets, cal);
    var dailyData := DailyData(data, weekdayKey);
    var dataWeek := Aggregate(data.WeekKeys(), ScoreColumn(tweets));
    var dataMonth := Aggregate(data.MonthKeys(), ScoreColumn(tweets));
    daily := PivotAndCompare(DailyLong(dailyData));
    weekly := PivotAndCompare(WeeklyLong(dataWeek));
    monthly := PivotAndCompare(MonthlyLong(dataMonth));
  }

  /**
   * Lines 48-62: adds the adjusted time and the date parts to the table,
   * reads the lookup, and only then folds the weekday column.
   */
  method PrepareFrame(tweets: seq<Tweet>, cal: Calendar) returns (data: TweetFrame, weekdayKey: seq<DateKey>)
    ensures fresh(data) && data.Valid() && data.stage == Folded
    ensures data.tweets == tweets && data.cal == cal
    ensures weekdayKey == WeekdayKeySpec(cal, tweets)
  {
    data := new TweetFrame(tweets, cal);
    data.AddAdjustedDatetime();
    data.AddDateParts();
    weekdayKey := data.WeekdayKey();
    data.FoldWeekdays();
  }

  /** Lines 111-135 for one table: pivots it wide and adds the comparison columns. */
  method PivotAndCompare<K(==)>(long: seq<LongRow<K>>) returns (wide: WideTable<K>)
    requires UniquePerLabel(long)
    ensures fresh(wide) && wide.rows == CreatePnnColumns(long) && wide.HasComparisonMetrics()
  {
    wide := new WideTable(CreatePnnColumns(long));
    wide.AddComparisonMetrics();
  }

  /**
   * Lines 67-77 on the folded table: aggregate by day, correct the folded
   * buckets in place and left-merge the lookup taken before the fold.
   */
  method DailyData(data: TweetFrame, weekdayKey: seq<DateKey>) returns (dailyData: seq<DatedRow>)
    requires data.Valid() && data.stage == Folded
    requires weekdayKey == WeekdayKeySpec(data.cal, data.tweets) && UniqueDayKeys(weekdayKey)
    ensures dailyData == DailyRows(data.cal, data.tweets)
  {
    var dayRows := Aggregate(data.DayKeys(), ScoreColumn(data.tweets));
    var a := new AggRow<DayBucket>[|dayRows|](i requires 0 <= i < |dayRows| => dayRows[i]);
    assert a[..] == dayRows;
    CorrectFoldedBuckets(a);
    dailyData := AttachDates(a[..], weekdayKey);
  }

  // ---------------------------------------------------------------------
  // What the daily table's dates mean.

  /**
   * A daily row that received a `stock_date` received the date of some
   * tweet sent on a weekday of that same weekday number; in particular the
   * folded bucket is dated by a Monday, never by the Saturday or Sunday it
   * also holds.
   */
  lemma DailyDatesComeFromWeekdayTweets(cal: Calendar, tweets: seq<Tweet>)
    requires UniqueDayKeys(WeekdayKeySpec(cal, tweets))
    ensures forall i, d :: 0 <= i < |DailyRows(cal, tweets)| && DailyRows(cal, tweets)[i].stockDate == Some(d) ==>
      && Weekday(d) == DailyRows(cal, tweets)[i].key.weekday
      && !IsWeekend(Weekday(d))
      && (DailyRows(cal, tweets)[i].key.weekday == FOLDED_BUCKET ==> Weekday(d) == MONDAY)
      && exists j :: 0 <= j < |tweets| && TweetDate(tweets[j]) == d
  {
    var key := WeekdayKeySpec(cal, tweets);
    var rows := DailyRows(cal, tweets);
    WeekdayKeyAnchoredOnMonday(cal, tweets);
    forall i, d | 0 <= i < |rows| && rows[i].stockDate == Some(d)
      ensures Weekday(d) == rows[i].key.weekday && !IsWeekend(Weekday(d))
      ensures exists j :: 0 <= j < |tweets| && TweetDate(tweets[j]) == d
    {
      assert DateKey(rows[i].key.year, rows[i].key.week, rows[i].key.weekday, d) in key;
    }
  }

  /**
   * Every tweet is counted once in each of the three long tables before the
   * correction: the `NumTweets` columns of the daily, weekly and monthly
   * aggregates each add up to the number of tweets.
   */
  lemma EveryTweetCountedOnce(cal: Calendar, tweets: seq<Tweet>)
    ensures TotalNum(Aggregate(DayBucketsOf(cal, tweets), ScoreColumn(tweets))) == |tweets| as real
    ensures TotalNum(WeeklyRows(cal, tweets)) == |tweets| as real
    ensures TotalNum(MonthlyRows(cal, tweets)) == |tweets| as real
  {
    AggregateCorrect(DayBucketsOf(cal, tweets), ScoreColumn(tweets));
    AggregateCorrect(WeekBucketsOf(cal, tweets), ScoreColumn(tweets));
    AggregateCorrect(MonthBucketsOf(cal, tweets), ScoreColumn(tweets));
  }

  // ---------------------------------------------------------------------
  // What the counts and shares of the three tables are.

  /**
   * Every count in the wide tables is positive: at least one tweet in the
   * weekly and monthly tables, and at least a third of a tweet in the daily
   * table, where the folded bucket's count is divided by three.
   */
  lemma PipelineCountsPositive(cal: Calendar, tweets: seq<Tweet>)
    requires JoinKeysUnique(cal, tweets)
    ensures var wide := CreatePnnColumns(DailyLong(DailyRows(cal, tweets)));
      forall k, l :: k in wide && Column(wide[k], l).Some? ==> Column(wide[k], l).value.num >= 1.0 / 3.0
    ensures var wide := CreatePnnColumns(WeeklyLong(WeeklyRows(cal, tweets)));
      forall k, l :: k in wide && Column(wide[k], l).Some? ==> Column(wide[k], l).value.num >= 1.0
    ensures var wide := CreatePnnColumns(MonthlyLong(MonthlyRows(cal, tweets)));
      forall k, l :: k in wide && Column(wide[k], l).Some? ==> Column(wide[k], l).value.num >= 1.0
  {
    var dayRows := Aggregate(DayBucketsOf(cal, tweets), ScoreColumn(tweets));
    var corrected := FoldCorrected(dayRows);
    forall i | 0 <= i < |corrected| ensures corrected[i].num >= 1.0 / 3.0 {
      if dayRows[i].key.weekday == FOLDED_BUCKET {
        assert corrected[i].num * 3.0 == dayRows[i].num;
      }
    }
    var daily := DailyLong(DailyRows(cal, tweets));
    assert forall i :: 0 <= i < |daily| ==> daily[i].metrics.num == corrected[i].num;
    CountsAtLeast(daily, 1.0 / 3.0);
    CountsAtLeast(WeeklyLong(WeeklyRows(cal, tweets)), 1.0);
    CountsAtLeast(MonthlyLong(MonthlyRows(cal, tweets)), 1.0);
  }

  /**
   * In each of the three wide tables, a row that has all three counts has
   * all three shares, each between 0 and 1, adding up to 1.
   */
  lemma PipelineSharesAreProportions(cal: Calendar, tweets: seq<Tweet>)
    requires JoinKeysUnique(cal, tweets)
    ensures var wide := CreatePnnColumns(DailyLong(DailyRows(cal, tweets)));
      forall k :: k in wide && AllCounted(wide[k]) ==> SharesAreProportions(wide[k])
    ensures var wide := CreatePnnColumns(WeeklyLong(WeeklyRows(cal, tweets)));
      forall k :: k in wide && AllCounted(wide[k]) ==> SharesAreProportions(wide[k])
    ensures var wide := CreatePnnColumns(MonthlyLong(MonthlyRows(cal, tweets)));
      forall k :: k in wide && AllCounted(wide[k]) ==> SharesAreProportions(wide[k])
  {
    PipelineCountsPositive(cal, tweets);
    ProportionsWhereCounted(CreatePnnColumns(DailyLong(DailyRows(cal, tweets))), 1.0 / 3.0);
    ProportionsWhereCounted(CreatePnnColumns(WeeklyLong(WeeklyRows(cal, tweets))), 1.0);
    ProportionsWhereCounted(CreatePnnColumns(MonthlyLong(MonthlyRows(cal, tweets))), 1.0);
  }
}
