/**
 * The daily, weekly and monthly bucket keys, the correction that divides
 * the folded Saturday/Sunday/Monday buckets' sum and count by three, and
 * the left merge that re-attaches a date to every daily bucket.
 */
module Buckets {
  import opened Util
  import opened Calendar
  import opened Folding
  import opened Grouping

  /** Daily grouping key: (year, week, folded weekday, sentiment). */
  datatype DayBucket = DayBucket(year: int, week: int, weekday: int, sentiment: string)

  /** Weekly grouping key: (year, week, sentiment). */
  datatype WeekBucket = WeekBucket(year: int, week: int, sentiment: string)

  /** Monthly grouping key: (year, month, sentiment). */
  datatype MonthBucket = MonthBucket(year: int, month: int, sentiment: string)

  /** The number of calendar days a folded bucket spans. */
  const FOLDED_DAYS: real := 3.0

  /** One daily row after the correction of both columns. */
  function CorrectedRow(r: AggRow<DayBucket>): AggRow<DayBucket>
  {
    if r.key.weekday == FOLDED_BUCKET then r.(sum := r.sum / FOLDED_DAYS, num := r.num / FOLDED_DAYS) else r
  }

  /**
   * The daily table after the correction: rows of the folded bucket have
   * their sum and count divided by three, every other row is unchanged, and
   * no mean is touched.
   */
  function FoldCorrected(rows: seq<AggRow<DayBucket>>): (out: seq<AggRow<DayBucket>>)
    ensures |out| == |rows|
    ensures forall i :: 0 <= i < |rows| ==> out[i].key == rows[i].key && out[i].mean == rows[i].mean
    ensures forall i :: 0 <= i < |rows| && rows[i].key.weekday == FOLDED_BUCKET ==>
      out[i].sum * FOLDED_DAYS == rows[i].sum && out[i].num * FOLDED_DAYS == rows[i].num
    ensures forall i :: 0 <= i < |rows| && rows[i].key.weekday != FOLDED_BUCKET ==> out[i] == rows[i]
  {
    seq(|rows|, i requires 0 <= i < |rows| => CorrectedRow(rows[i]))
  }

  /** Dividing a sum and a non-zero count by the same factor keeps their quotient. */
  lemma QuotientOfThirds(sum: real, num: real)
    requires num != 0.0
    ensures num / FOLDED_DAYS != 0.0
    ensures (sum / FOLDED_DAYS) / (num / FOLDED_DAYS) == sum / num
  {
    var q := sum / num;
    assert sum == q * num;
    assert sum / FOLDED_DAYS == q * (num / FOLDED_DAYS);
  }

  /**
   * The correction keeps every row's mean consistent with its columns:
   * where mean = sum / count held before, the corrected sum divided by the
   * corrected count is still the unchanged mean.
   */
  lemma CorrectionKeepsMean(rows: seq<AggRow<DayBucket>>)
    requires forall i :: 0 <= i < |rows| ==> rows[i].num != 0.0 && rows[i].mean == rows[i].sum / rows[i].num
    ensures forall i :: 0 <= i < |rows| ==>
      var c := FoldCorrected(rows)[i];
      c.num != 0.0 && c.mean == rows[i].mean && c.mean == c.sum / c.num
  {
    forall i | 0 <= i < |rows|
      ensures var c := FoldCorrected(rows)[i]; c.num != 0.0 && c.mean == c.sum / c.num
    {
      QuotientOfThirds(rows[i].sum, rows[i].num);
    }
  }

  /**
   * Lines 73 and 74 in place: first the `SumSentScore` column, then the
   * `NumTweets` column of every folded row is divided by three.
   */
  method CorrectFoldedBuckets(a: array<AggRow<DayBucket>>)
    modifies a
    ensures a[..] == FoldCorrected(old(a[..]))
  {
    var i := 0;
    while i < a.Length
      invariant 0 <= i <= a.Length
      invariant forall j :: 0 <= j < i ==>
        a[j] == if old(a[j]).key.weekday == FOLDED_BUCKET then old(a[j]).(sum := old(a[j]).sum / FOLDED_DAYS) else old(a[j])
      invariant forall j :: i <= j < a.Length ==> a[j] == old(a[j])
    {
      if a[i].key.weekday == FOLDED_BUCKET {
        a[i] := a[i].(sum := a[i].sum / FOLDED_DAYS);
      }
      i := i + 1;
    }
    i := 0;
    while i < a.Length
      invariant 0 <= i <= a.Length
      invariant forall j :: 0 <= j < i ==> a[j] == CorrectedRow(old(a[j]))
      invariant forall j :: i <= j < a.Length ==>
        a[j] == if old(a[j]).key.weekday == FOLDED_BUCKET then old(a[j]).(sum := old(a[j]).sum / FOLDED_DAYS) else old(a[j])
    {
      if a[i].key.weekday == FOLDED_BUCKET {
        a[i] := a[i].(num := a[i].num / FOLDED_DAYS);
      }
      i := i + 1;
    }
  }

  /** One row of `daily_data`: the re-attached `stock_date` (missing when the lookup has none), the key and the metrics. */
  datatype DatedRow = DatedRow(stockDate: Option<Day>, key: DayBucket, mean: real, sum: real, num: real)

  /**
   * `pd.merge(data_day, weekday_key, how='left', on=['year','week','weekday'])`:
   * every daily row, in order, with the date the lookup holds for its
   * (year, week, weekday), or a missing date when it holds none.
   */
  function AttachDates(rows: seq<AggRow<DayBucket>>, key: seq<DateKey>): (dated: seq<DatedRow>)
    requires UniqueDayKeys(key)
    ensures |dated| == |rows|
    ensures forall i :: 0 <= i < |rows| ==>
      && dated[i].key == rows[i].key
      && dated[i].mean == rows[i].mean && dated[i].sum == rows[i].sum && dated[i].num == rows[i].num
    ensures forall i, d :: 0 <= i < |rows| ==>
      (dated[i].stockDate == Some(d) <==> DateKey(rows[i].key.year, rows[i].key.week, rows[i].key.weekday, d) in key)
  {
    var dated := seq(|rows|, i requires 0 <= i < |rows| =>
      var k := rows[i].key;
      DatedRow(LookupDate(key, k.year, k.week, k.weekday), k, rows[i].mean, rows[i].sum, rows[i].num));
    assert forall i, d :: 0 <= i < |rows| ==>
      (dated[i].stockDate == Some(d) <==> DateKey(rows[i].key.year, rows[i].key.week, rows[i].key.weekday, d) in key) by {
      forall i, d | 0 <= i < |rows|
        ensures dated[i].stockDate == Some(d) <==> DateKey(rows[i].key.year, rows[i].key.week, rows[i].key.weekday, d) in key
      {
        LookupDateExact(key, rows[i].key.year, rows[i].key.week, rows[i].key.weekday, d);
      }
    }
    dated
  }

  /**
   * A weekend worth of positive tweets (0.2 on Saturday, 0.4 on Sunday, 0.6
   * on Monday) folded into one bucket gives one row with count 1, sum 0.4
   * and mean 0.4 once corrected.
   */
  lemma FoldedWeekendExample(k: DayBucket)
    requires k.weekday == FOLDED_BUCKET
    ensures FoldCorrected(Aggregate([k, k, k], [0.2, 0.4, 0.6])) == [AggRow(k, 0.4, 0.4, 1.0)]
  {
    assert [k, k, k][..2] == [k, k] && [k, k][..1] == [k] && [k][..0] == [];
    assert [0.2, 0.4, 0.6][..2] == [0.2, 0.4] && [0.2, 0.4][..1] == [0.2] && [0.2][..0] == [];
    assert GroupBy([k], [0.2]) == [Group(k, 0.2, 1)];
    assert GroupBy([k, k], [0.2, 0.4]) == [Group(k, 0.6, 2)];
    assert GroupBy([k, k, k], [0.2, 0.4, 0.6]) == [Group(k, 1.2, 3)];
  }
}
