/**
 * Bucket aggregation: `groupby(keys, as_index=False).agg(MeanSentScore=mean,
 * SumSentScore=sum, NumTweets=size)` over the sentiment scores, for any
 * bucket key (day, week or month together with the sentiment label).
 *
 * Records are folded in one at a time; a group is opened when its key is
 * first seen, so the groups come out in order of first occurrence.
 */
module Grouping {
  import opened Util

  /** A group's record count; a group is only ever opened by a record. */
  type Size = n: int | n >= 1 witness 1

  /** Running state of one group: its key, the sum of its scores and how many records it holds. */
  datatype Group<K> = Group(key: K, sum: real, size: Size)

  /** One output row: the key and the `MeanSentScore`, `SumSentScore` and `NumTweets` columns. */
  datatype AggRow<K> = AggRow(key: K, mean: real, sum: real, num: real)

  /** The keys of the groups, in order. */
  function Keys<K>(gs: seq<Group<K>>): (ks: seq<K>)
    ensures |ks| == |gs|
    ensures forall i :: 0 <= i < |gs| ==> ks[i] == gs[i].key
  {
    seq(|gs|, i requires 0 <= i < |gs| => gs[i].key)
  }

  /** The keys of the output rows, in order. */
  function RowKeys<K>(rows: seq<AggRow<K>>): (ks: seq<K>)
    ensures |ks| == |rows|
    ensures forall i :: 0 <= i < |rows| ==> ks[i] == rows[i].key
  {
    seq(|rows|, i requires 0 <= i < |rows| => rows[i].key)
  }

  /** Adds one record with key `k` and score `x`: its group grows by one, or a new group is opened at the end. */
  function AddScore<K(==)>(gs: seq<Group<K>>, k: K, x: real): seq<Group<K>>
  {
    if gs == [] then [Group(k, x, 1)]
    else if gs[0].key == k then [Group(k, gs[0].sum + x, gs[0].size + 1)] + gs[1..]
    else [gs[0]] + AddScore(gs[1..], k, x)
  }

  /** The groups of the records, whose keys are `keys` and whose scores are `scores`. */
  function GroupBy<K(==)>(keys: seq<K>, scores: seq<real>): seq<Group<K>>
    requires |keys| == |scores|
  {
    if keys == [] then []
    else
      var n := |keys| - 1;
      AddScore(GroupBy(keys[..n], scores[..n]), keys[n], scores[n])
  }

  /** The population mean, the sum and the count of one group. */
  function Summary<K>(g: Group<K>): AggRow<K>
  {
    AggRow(g.key, g.sum / g.size as real, g.sum, g.size as real)
  }

  /** One summary row per group, in the groups' order. */
  function Summaries<K>(gs: seq<Group<K>>): (rows: seq<AggRow<K>>)
    ensures |rows| == |gs|
    ensures forall i :: 0 <= i < |gs| ==> rows[i] == Summary(gs[i])
  {
    if gs == [] then [] else [Summary(gs[0])] + Summaries(gs[1..])
  }

  /** The aggregate table: one row per key present, with the mean, sum and count of its scores. */
  function Aggregate<K(==)>(keys: seq<K>, scores: seq<real>): (rows: seq<AggRow<K>>)
    requires |keys| == |scores|
    ensures forall i :: 0 <= i < |rows| ==> rows[i].num >= 1.0 && rows[i].mean * rows[i].num == rows[i].sum
  {
    Summaries(GroupBy(keys, scores))
  }

  // ---------------------------------------------------------------------
  // Reference definitions: what a group should hold, computed per key.

  /** The sum of the scores of the records whose key is `k`. */
  function SumWhere<K(==)>(keys: seq<K>, scores: seq<real>, k: K): real
    requires |keys| == |scores|
  {
    if keys == [] then 0.0
    else
      var n := |keys| - 1;
      SumWhere(keys[..n], scores[..n], k) + (if keys[n] == k then scores[n] else 0.0)
  }

  /** The number of records held by all groups together. */
  function TotalSize<K>(gs: seq<Group<K>>): nat
  {
    if gs == [] then 0 else gs[0].size + TotalSize(gs[1..])
  }

  /** The sum of the `NumTweets` column. */
  function TotalNum<K>(rows: seq<AggRow<K>>): real
  {
    if rows == [] then 0.0 else rows[0].num + TotalNum(rows[1..])
  }

  // ---------------------------------------------------------------------
  // Proofs.

  /** A key that no record carries has a score sum of zero. */
  lemma {:induction false} SumWhereAbsent<K>(keys: seq<K>, scores: seq<real>, k: K)
    requires |keys| == |scores| && k !in keys
    ensures SumWhere(keys, scores, k) == 0.0
  {
    if keys != [] {
      var n := |keys| - 1;
      assert keys[..n] <= keys;
      SumWhereAbsent(keys[..n], scores[..n], k);
    }
  }

  /** A record whose key no group has opens a new group at the end and changes nothing else. */
  lemma {:induction false} AddScoreFresh<K>(gs: seq<Group<K>>, k: K, x: real)
    requires k !in Keys(gs)
    ensures AddScore(gs, k, x) == gs + [Group(k, x, 1)]
  {
    if gs != [] {
      assert Keys(gs) == [gs[0].key] + Keys(gs[1..]);
      AddScoreFresh(gs[1..], k, x);
      assert gs == [gs[0]] + gs[1..];
    }
  }

  /** A record whose key the group at index `m` has, and no other group, grows that group only. */
  lemma {:induction false} AddScoreExisting<K>(gs: seq<Group<K>>, k: K, x: real, m: nat)
    requires m < |gs| && gs[m].key == k
    requires forall i :: 0 <= i < |gs| && i != m ==> gs[i].key != k
    ensures AddScore(gs, k, x) == gs[m := Group(k, gs[m].sum + x, gs[m].size + 1)]
  {
    if m > 0 {
      var tail := gs[1..];
      forall i | 0 <= i < |tail| && i != m - 1 ensures tail[i].key != k {
        assert tail[i] == gs[i + 1];
      }
      AddScoreExisting(tail, k, x, m - 1);
    }
  }

  /**
   * Adding a record to groups with distinct keys grows exactly the group of
   * its key, or opens one at the end.
   */
  lemma AddScoreAt<K>(gs: seq<Group<K>>, k: K, x: real)
    requires Distinct(Keys(gs))
    ensures |AddScore(gs, k, x)| == if k in Keys(gs) then |gs| else |gs| + 1
    ensures k !in Keys(gs) ==> AddScore(gs, k, x)[|gs|] == Group(k, x, 1)
    ensures forall i :: 0 <= i < |gs| ==>
      AddScore(gs, k, x)[i] == if gs[i].key == k then Group(k, gs[i].sum + x, gs[i].size + 1) else gs[i]
  {
    var ks := Keys(gs);
    if k in ks {
      var m :| 0 <= m < |ks| && ks[m] == k;
      forall i | 0 <= i < |gs| && i != m ensures gs[i].key != k {
        assert ks[i] != ks[m];
      }
      AddScoreExisting(gs, k, x, m);
    } else {
      AddScoreFresh(gs, k, x);
    }
  }

  /** Adding a record keeps the keys distinct and adds its key to them. */
  lemma AddScoreKeys<K>(gs: seq<Group<K>>, k: K, x: real)
    requires Distinct(Keys(gs))
    ensures Distinct(Keys(AddScore(gs, k, x)))
    ensures forall k' :: k' in Keys(AddScore(gs, k, x)) <==> k' in Keys(gs) || k' == k
  {
    AddScoreAt(gs, k, x);
    var r := AddScore(gs, k, x);
    assert forall i :: 0 <= i < |gs| ==> Keys(r)[i] == Keys(gs)[i];
    if k !in Keys(gs) {
      assert Keys(r) == Keys(gs) + [k];
    } else {
      assert Keys(r) == Keys(gs);
    }
  }

  /** Adding a record adds one to the total size. */
  lemma {:induction false} AddScoreTotal<K>(gs: seq<Group<K>>, k: K, x: real)
    ensures TotalSize(AddScore(gs, k, x)) == TotalSize(gs) + 1
  {
    if gs != [] {
      if gs[0].key == k {
        assert AddScore(gs, k, x)[1..] == gs[1..];
      } else {
        AddScoreTotal(gs[1..], k, x);
        assert AddScore(gs, k, x)[1..] == AddScore(gs[1..], k, x);
      }
    }
  }

  /**
   * One record added to groups that are correct for the records before it
   * gives groups that are correct for all of them.
   */
  lemma GroupByStep<K>(keys: seq<K>, scores: seq<real>, prev: seq<Group<K>>)
    requires |keys| == |scores| && keys != []
    requires
      var n := |keys| - 1;
      && Distinct(Keys(prev))
      && (forall k :: k in Keys(prev) <==> k in keys[..n])
      && (forall i :: 0 <= i < |prev| ==>
            prev[i].size == multiset(keys[..n])[prev[i].key] && prev[i].sum == SumWhere(keys[..n], scores[..n], prev[i].key))
    ensures
      var gs := AddScore(prev, keys[|keys| - 1], scores[|keys| - 1]);
      forall i :: 0 <= i < |gs| ==>
        gs[i].size == multiset(keys)[gs[i].key] && gs[i].sum == SumWhere(keys, scores, gs[i].key)
  {
    var n := |keys| - 1;
    var prefix, last, x := keys[..n], keys[n], scores[n];
    assert keys == prefix + [last];
    assert multiset(keys) == multiset(prefix) + multiset{last};
    AddScoreAt(prev, last, x);
    var gs := AddScore(prev, last, x);
    forall i | 0 <= i < |gs|
      ensures gs[i].size == multiset(keys)[gs[i].key] && gs[i].sum == SumWhere(keys, scores, gs[i].key)
    {
      if i == |prev| {
        assert last !in prefix;
        SumWhereAbsent(prefix, scores[..n], last);
      } else {
        assert Keys(prev)[i] == prev[i].key;
      }
    }
  }

  /**
   * The groups have distinct keys, exactly the keys of the records; each
   * holds the number of records with its key and the sum of their scores;
   * together they hold every record once.
   */
  lemma {:induction false} GroupByCorrect<K>(keys: seq<K>, scores: seq<real>)
    requires |keys| == |scores|
    ensures Distinct(Keys(GroupBy(keys, scores)))
    ensures forall k :: k in Keys(GroupBy(keys, scores)) <==> k in keys
    ensures forall i :: 0 <= i < |GroupBy(keys, scores)| ==>
      var g := GroupBy(keys, scores)[i];
      g.size == multiset(keys)[g.key] && g.sum == SumWhere(keys, scores, g.key)
    ensures TotalSize(GroupBy(keys, scores)) == |keys|
  {
    if keys != [] {
      var n := |keys| - 1;
      GroupByCorrect(keys[..n], scores[..n]);
      var prev := GroupBy(keys[..n], scores[..n]);
      assert keys == keys[..n] + [keys[n]];
      AddScoreKeys(prev, keys[n], scores[n]);
      AddScoreTotal(prev, keys[n], scores[n]);
      GroupByStep(keys, scores, prev);
    }
  }

  /** The total of the count column is the total size of the groups. */
  lemma {:induction false} TotalNumOfSummaries<K>(gs: seq<Group<K>>)
    ensures TotalNum(Summaries(gs)) == TotalSize(gs) as real
  {
    if gs != [] {
      TotalNumOfSummaries(gs[1..]);
    }
  }

  /**
   * The aggregate table has exactly one row per key present in the input
   * and no other rows; in each row `NumTweets` is the number of records with
   * that key, `SumSentScore` the sum of their scores and `MeanSentScore` the
   * sum divided by the count; the counts add up to the number of records.
   */
  lemma AggregateCorrect<K>(keys: seq<K>, scores: seq<real>)
    requires |keys| == |scores|
    ensures Distinct(RowKeys(Aggregate(keys, scores)))
    ensures forall k :: k in RowKeys(Aggregate(keys, scores)) <==> k in keys
    ensures forall i :: 0 <= i < |Aggregate(keys, scores)| ==>
      var r := Aggregate(keys, scores)[i];
      && r.num == multiset(keys)[r.key] as real
      && r.sum == SumWhere(keys, scores, r.key)
      && r.mean == r.sum / r.num
    ensures TotalNum(Aggregate(keys, scores)) == |keys| as real
  {
    var gs := GroupBy(keys, scores);
    GroupByCorrect(keys, scores);
    TotalNumOfSummaries(gs);
    assert RowKeys(Aggregate(keys, scores)) == Keys(gs);
  }
}
