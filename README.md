# Tweet sentiment aggregation, modelled in Dafny

This project models `tweet_aggregation.py`, a pandas script. The script reads
labelled tweets and writes three sentiment tables: one per day, one per week
and one per month. Each row of a table holds, for every sentiment label, the
mean sentiment score, the sum of the scores and the number of tweets. It also
holds each label's share of the tweets and the label with the highest mean.

The script works in these steps, and the model follows them in the same order:

1. **Calendar alignment.** Every tweet's UTC time is moved back eight hours,
   so that a tweet counts towards the stock close it could still affect.
   `date_parts` splits the moved time into year, month, ISO week and weekday.
   It adds one to the week of a Saturday or Sunday, so that a weekend shares
   the week of the Monday after it (`Calendar`).
2. **Weekend folding.** A lookup of dates is taken, keyed by (year, week,
   weekday) and built from the non-weekend rows. Only then is the weekday
   column overwritten by `sat_sun_mon_combine`. That function puts Monday,
   Saturday and Sunday into bucket 0 (`Folding`, `Frame`).
3. **Bucket aggregation.**
   - The tweets are grouped by (year, week, weekday, sentiment), by (year,
     week, sentiment) and by (year, month, sentiment). Each group gets its
     mean, sum and count (`Grouping`).
   - The daily rows of bucket 0 have their sum and count divided by three.
     The lookup then gives each daily row its `stock_date` through a left
     merge (`Buckets`).
4. **Pivot.** `create_pnn_columns` turns each long table wide. There is one
   row per time period, with a triple of columns for each of the positive,
   negative and neutral labels (`Pivot`).
5. **Comparison metrics.** `sentiment_comparison_metrics` adds the three
   percentages and `most_extreme_sentiment` to each wide table (`Comparison`).
6. **Order of the steps.** `Pipeline` runs the steps in the script's order.

Form of the model:
- The tweet table is a class. Its columns are sequence fields, rewritten step
  by step. A `stage` field records which derived columns exist, because the
  lookup must be read between the split and the fold.
- The /3 correction works in place on an array.
- The groupings, the merge and the pivot are functions.
- A wide table is a class, to which the comparison method adds its four
  columns.
- Scores are exact `real`s.
- A missing pandas value (NaN) is `None`.

Three consequences of the code:
- The daily wide table is keyed by `stock_date` alone (line 111).
- The weekly table is keyed by `week` alone and the monthly table by `month`
  alone (lines 112-113). Rows of different years that share a week or month
  number are therefore joined.
- A percentage is missing whenever any of the three counts is missing
  (lines 126-128). A missing count is not treated as zero.

## Model

| member | source | states |
|---|---|---|
| Calendar.ShiftedDate | tweet_aggregation.py:48-51 | The adjusted time is exactly eight hours before the tweet. Its date is the previous date exactly when the tweet was sent before 08:00 UTC, and the same date otherwise. |
| Calendar.TimeOfDay | tweet_aggregation.py:51 | The time of day lies in [0, 86400), and the date times 86400 plus the time of day gives back the instant. |
| Calendar.Weekday | tweet_aggregation.py:20 | `weekday()` lies in 0..6, with Monday 0. |
| Calendar.DateParts | tweet_aggregation.py:19-30 | Weekday, year and month are those of the adjusted date. The week is the ISO week plus one exactly when the weekday is 5 or 6, and the ISO week exactly when it is not. |
| Calendar.WeekendJoinsFollowingMonday | tweet_aggregation.py:21-23 | Inside one ISO year and one calendar year, the Saturday and Sunday before a Monday get that Monday's year and week. |
| Calendar.WeekendBeforeFirstIsoWeekStaysApart | tweet_aggregation.py:21-23 | There is no wrap-around at year end: a Sunday before a Monday of ISO week 1 gets week 53 or more, not week 1. |
| Folding.SatSunMonCombine | tweet_aggregation.py:31-35 | The result lies in 0..4. It equals the argument exactly when the argument is in 0..4, and is 0 otherwise. |
| Folding.SatSunMonCombineIdempotent | tweet_aggregation.py:31-35 | Folding twice is the same as folding once. |
| Folding.SatSunMonShareBucket | tweet_aggregation.py:31-35 | For a weekday 0..6, the result is bucket 0 exactly for Monday, Saturday and Sunday. Any other day keeps its own number. |
| Folding.DropDuplicates | tweet_aggregation.py:60 | The result has no repeated row and the same rows as the input, and is no longer than the input. |
| Folding.NonWeekendRows | tweet_aggregation.py:59 | A row is kept exactly when its weekday is neither 5 nor 6. |
| Folding.WeekdayKeyOf | tweet_aggregation.py:59-60 | The lookup has no duplicates. It holds exactly the non-weekend rows of the input. |
| Folding.LookupDate | tweet_aggregation.py:77 | A date that is found belongs to a lookup row with that (year, week, weekday). When no date is found, no row of the lookup has that (year, week, weekday). |
| Folding.LookupDateExact | tweet_aggregation.py:77 | When the lookup has one date per (year, week, weekday), the lookup returns date d exactly when the row (year, week, weekday, d) is in it. |
| Grouping.Aggregate | tweet_aggregation.py:67-70 | Every row has a count of at least 1, and mean times count equals sum. |
| Grouping.AddScoreFresh | tweet_aggregation.py:67-70 | A record whose key no group has opens a new group of size 1 at the end, and leaves the others unchanged. |
| Grouping.AddScoreExisting | tweet_aggregation.py:67-70 | A record whose key only the group at index m has grows that group's sum by its score and its size by one. Every other group is unchanged. |
| Grouping.AddScoreAt | tweet_aggregation.py:67-70 | Adding a record to groups with distinct keys grows exactly the group of its key by one record and its score. If there is no such group, it opens a new group at the end. |
| Grouping.AddScoreKeys | tweet_aggregation.py:67-70 | Adding a record keeps the group keys distinct, and the new key set is the old one plus the record's key. |
| Grouping.AddScoreTotal | tweet_aggregation.py:70 | Adding a record raises the total group size by one. |
| Grouping.GroupByCorrect | tweet_aggregation.py:67-70 | The group keys are distinct and are exactly the keys of the records. Each group's size is the number of records with its key, and its sum is their score sum. The sizes add up to the number of records. |
| Grouping.GroupByStep | tweet_aggregation.py:67-70 | Adding one record to groups that are correct for the records before it gives sizes and sums that are correct for all the records. |
| Grouping.SumWhereAbsent | tweet_aggregation.py:69 | A key that no record carries has a score sum of zero. |
| Grouping.TotalNumOfSummaries | tweet_aggregation.py:70 | The `NumTweets` column adds up to the total group size. |
| Grouping.AggregateCorrect | tweet_aggregation.py:67-70 | There is one row per key present and no other row. `NumTweets` is the key's record count, `SumSentScore` the sum of its scores and `MeanSentScore` = Sum/Num. The counts add up to the number of records. |
| Buckets.FoldCorrected | tweet_aggregation.py:73-74 | Length, keys and means are unchanged. A weekday-0 row has its sum and count divided by three, and every other row is unchanged. |
| Buckets.QuotientOfThirds | tweet_aggregation.py:73-74 | Dividing a sum and a non-zero count by three leaves their quotient unchanged. |
| Buckets.CorrectionKeepsMean | tweet_aggregation.py:73-74 | Where mean = sum/count held before the correction, it still holds with the corrected sum and count and the unchanged mean. |
| Buckets.CorrectFoldedBuckets | tweet_aggregation.py:73-74 | The two in-place column passes leave the array equal to `FoldCorrected` of its old contents. |
| Buckets.AttachDates | tweet_aggregation.py:77 | The left merge keeps every daily row in order, with its key and metrics. A row's `stock_date` is d exactly when the lookup holds (year, week, weekday, d). |
| Buckets.FoldedWeekendExample | tweet_aggregation.py:62-74 | Scores 0.2, 0.4 and 0.6 in one folded bucket give one row with mean 0.4, sum 0.4 and count 1 after the correction. |
| Frame.AdjustedColumn | tweet_aggregation.py:49 | `datetime_adj` is, row by row, the tweet's time less eight hours. |
| Frame.DateColumn | tweet_aggregation.py:51 | `date` is, row by row, the date of `datetime_adj`. |
| Frame.TweetFrame.constructor | tweet_aggregation.py:38-39 | The table holds the input records and no derived column. |
| Frame.TweetFrame.AddAdjustedDatetime | tweet_aggregation.py:48-51 | Adds `datetime_adj` and `date`, each equal to its column function of the input. |
| Frame.TweetFrame.AddDateParts | tweet_aggregation.py:56-57 | Adds `year`, `month`, `week` and `weekday` from `date_parts` of each row and keeps the earlier columns. |
| Frame.TweetFrame.FoldWeekdays | tweet_aggregation.py:62 | Overwrites each `weekday` with `sat_sun_mon_combine` of its old value. No other column changes. |
| Frame.TweetFrame.WeekdayKey | tweet_aggregation.py:59-60 | Read before the fold, the lookup is built from the raw weekdays. Read after it, it is built from the folded ones. |
| Frame.TweetFrame.DayKeys | tweet_aggregation.py:67 | After the fold, the daily grouping columns are (year, week, folded weekday, sentiment) of each tweet. |
| Frame.TweetFrame.WeekKeys | tweet_aggregation.py:86 | The weekly grouping columns are (year, week, sentiment) of each tweet. |
| Frame.TweetFrame.MonthKeys | tweet_aggregation.py:91 | The monthly grouping columns are (year, month, sentiment) of each tweet. |
| Frame.WeekdayKeyAnchoredOnMonday | tweet_aggregation.py:59-60 | Every lookup row comes from a tweet and is not a weekend. Its weekday is its date's own weekday, so every weekday-0 row is dated on a Monday. |
| Frame.WeekdayKeyUnique | tweet_aggregation.py:59-60 | The lookup has one date per key exactly when any two of the tweets sent on the same weekday (Monday to Friday) of the same calendar year and ISO week were sent on the same date. |
| Frame.WeekdayKeyAfterFoldIsAmbiguous | tweet_aggregation.py:59-62 | Suppose the lookup were taken after the fold, and a weekend tweet and a Monday tweet share a (year, week). Then bucket 0 would get two dates. The lookup taken before the fold never holds the weekend tweet's date. |
| Frame.WeekendTweetsShareMondayBucket | tweet_aggregation.py:19-35 | Away from year ends, a Saturday or Sunday tweet has the same daily bucket as a Monday tweet of the following Monday with the same sentiment, namely bucket 0. |
| Pivot.KeysWith | tweet_aggregation.py:98 | Every period with a row of the label is among the label's keys. |
| Pivot.Project | tweet_aggregation.py:98-105 | A label's projection has exactly the periods with a row of that label. It maps each to that row's metrics, unchanged. |
| Pivot.KeysWithStep | tweet_aggregation.py:98 | A label's keys grow by the last row's key exactly when that row has the label. |
| Pivot.ProjectStep | tweet_aggregation.py:98-105 | Adding the last row to the projection of the other rows gives the projection of all the rows. |
| Pivot.OuterJoin | tweet_aggregation.py:106-107 | The outer join has the union of the three projections' periods. Each row takes each label's triple from that label's projection. |
| Pivot.JoinedColumns | tweet_aggregation.py:106-107 | In the joined table a label's triple is missing exactly when the period has no row of that label. Otherwise it is that row's metrics. |
| Pivot.CreatePnnColumns | tweet_aggregation.py:97-108 | The wide table's key set is the union of the labelled keys. A label absent from a period leaves its triple missing, and a present label's metrics appear unchanged. |
| Pivot.WideRowsAreNonEmpty | tweet_aggregation.py:106-107 | Every wide row has at least one label's triple. |
| Pivot.CountsAtLeast | tweet_aggregation.py:97-108 | A lower bound on the counts of the long table's rows bounds every count in the wide table. |
| Comparison.Share | tweet_aggregation.py:126-128 | A share is present exactly when all three counts are present and their sum is non-zero. Then the share times the sum is the label's count. |
| Comparison.MissingLabelHasNoShares | tweet_aggregation.py:126-128 | A row missing any one label's triple has all three shares missing. |
| Comparison.ShareBounded | tweet_aggregation.py:126-128 | With non-negative counts and a positive sum, a share lies in [0, 1]. |
| Comparison.SharesSumToOne | tweet_aggregation.py:126-128 | With non-negative counts and a positive sum, the three shares are present, each lies in [0, 1], and they add up to 1. |
| Comparison.ProportionsWhereCounted | tweet_aggregation.py:126-128 | In a wide table whose present counts are all at least some positive bound, every row with all three counts has three shares in [0, 1] that add up to 1. |
| Comparison.MostExtreme | tweet_aggregation.py:130 | `idxmax` names a label exactly when some mean is present. The named label's mean is present and at least every present mean, and strictly above the present means of the columns before it, so ties go to pos, then neg, then neu. |
| Comparison.MostExtremeUnique | tweet_aggregation.py:130 | Any label meeting that description is the one `MostExtreme` names. |
| Comparison.WideTable.constructor | tweet_aggregation.py:111-113 | A wide table holds the pivot's rows and no comparison column yet. |
| Comparison.WideTable.AddComparisonMetrics | tweet_aggregation.py:124-131 | Adds `percent_pos`, `percent_neg`, `percent_neu` and `most_extreme_sentiment`, each row's cell being `Share` or `MostExtreme` of that row. |
| Pipeline.DailyLong | tweet_aggregation.py:80-83 | The daily table is keyed by `stock_date` alone, row for row, with the sentiment and the three metrics. |
| Pipeline.WeeklyLong | tweet_aggregation.py:112 | The weekly table is keyed by `week` alone, the year dropped. |
| Pipeline.MonthlyLong | tweet_aggregation.py:113 | The monthly table is keyed by `month` alone, the year dropped. |
| Pipeline.DailyData | tweet_aggregation.py:67-77 | Grouping the folded table by day, correcting it in place and merging in the lookup gives the daily rows of the input. |
| Pipeline.PrepareFrame | tweet_aggregation.py:48-62 | After the calendar columns are added, the lookup is read and then the weekday is folded. The lookup is the one built from the raw weekdays. |
| Pipeline.PivotAndCompare | tweet_aggregation.py:111-135 | A fresh wide table holds the pivot of the given long table, with its comparison columns. |
| Pipeline.RunPipeline | tweet_aggregation.py:48-135 | Run in the script's order, the steps give the pivot of the daily, weekly and monthly tables, each with its comparison columns. |
| Pipeline.DailyDatesComeFromWeekdayTweets | tweet_aggregation.py:59-77 | A `stock_date` attached to a daily row is some tweet's date. Its weekday is the row's weekday and is not a weekend day, so bucket 0 is dated by a Monday. |
| Pipeline.EveryTweetCountedOnce | tweet_aggregation.py:67-94 | The daily, weekly and monthly counts each add up to the number of tweets. |
| Pipeline.PipelineCountsPositive | tweet_aggregation.py:67-113 | Every count in the weekly and monthly wide tables is at least 1. Every count in the daily wide table is at least 1/3, since the folded bucket's count is divided by three. |
| Pipeline.PipelineSharesAreProportions | tweet_aggregation.py:67-128 | In each of the three wide tables, a row with all three counts has all three shares, each in [0, 1], adding up to 1. |

## Left out

- `print_full` and `print_wide` (lines 5-17) only set display options and print.
- Reading the CSV file (lines 38-39) and writing the three CSV files (lines 138-140) are file I/O. The model takes the parsed tweets as input and returns the three tables.
- Timestamp parsing with `strptime` (line 49) is left out. A tweet carries its instant as whole seconds since the epoch.
- The calendar library is a parameter, not a definition:
  - Year, month and ISO week number come from a caller-supplied `Calendar` function from dates to fields.
  - The Gregorian and ISO 8601 rules are not re-derived.
  - Only the weekday is computed, from the day number.
- Floating-point rounding is left out: scores are exact reals. NaN arithmetic is modelled only through missing (`None`) cells.
- Row order is left out:
  - pandas sorts `groupby` output by key, and the model keeps groups in order of first occurrence.
  - A wide table is a map, so the order of its rows and columns is not modelled.
- Pipeline.RunPipeline: pandas merges with duplicate keys are not modelled. Such a merge produces a cross product, and the model requires instead that the join keys be unique (`JoinKeysUnique`). The daily left merge duplicates rows when the lookup holds two dates for one (year, week, weekday). That happens at ISO year boundaries: 2024-12-30 and 2024-01-01 are both Mondays of ISO week 1 in calendar year 2024 (`Frame.WeekdayKeyUnique` states exactly when it cannot happen). The weekly and monthly pivots join on `week` or `month` alone, so data spanning more than one year can repeat a key per label. Daily rows that received no `stock_date` all share the missing key.
- Comparison.Share: when all counts are present and their sum is zero, pandas gives NaN or an infinity depending on the sign of the count. The model gives a missing share in both cases. Every count the pipeline produces is positive (`Pipeline.PipelineCountsPositive`), so this case does not arise there.
- Comparison.MostExtreme: when all three means are missing, the model gives a missing label. Depending on the pandas version, `idxmax` then gives NaN or raises an error.
- The emotion columns (line 38, and the closing note at line 145) are never used by the computation.
