/**
 * `sentiment_comparison_metrics`: the share of each label in a period's
 * tweet count and the label with the highest mean sentiment score, added
 * as new columns to a wide table.
 */
module Comparison {
  import opened Util
  import opened Pivot

  /** The `numTweets` cell of a label's triple, missing when the triple is. */
  function CountOf(w: WideRow, l: Label): (c: Option<real>)
    ensures c.Some? <==> Column(w, l).Some?
    ensures c.Some? ==> c.value == Column(w, l).value.num
  {
    match Column(w, l)
    case None => None
    case Some(m) => Some(m.num)
  }

  /** The `meanSS` cell of a label's triple, missing when the triple is. */
  function MeanOf(w: WideRow, l: Label): (m: Option<real>)
    ensures m.Some? <==> Column(w, l).Some?
    ensures m.Some? ==> m.value == Column(w, l).value.mean
  {
    match Column(w, l)
    case None => None
    case Some(t) => Some(t.mean)
  }

  /** All three counts are present. */
  predicate AllCounted(w: WideRow)
  {
    w.pos.Some? && w.neg.Some? && w.neu.Some?
  }

  /** The sum of the three counts of a row whose counts are all present. */
  function Total(w: WideRow): real
    requires AllCounted(w)
  {
    w.pos.value.num + w.neg.value.num + w.neu.value.num
  }

  /**
   * `percent_pos`, `percent_neg`, `percent_neu`: the label's count divided
   * by the sum of the three counts. A missing count makes the sum missing,
   * so every share of that row is missing; a zero sum gives no share.
   */
  function Share(w: WideRow, l: Label): (s: Option<real>)
    ensures s.Some? <==> AllCounted(w) && Total(w) != 0.0
    ensures s.Some? ==> s.value * Total(w) == Column(w, l).value.num
  {
    if AllCounted(w) && Total(w) != 0.0 then Some(CountOf(w, l).value / Total(w)) else None
  }

  /** A row that lacks one label's triple has no shares at all. */
  lemma MissingLabelHasNoShares(w: WideRow, missing: Label, l: Label)
    requires Column(w, missing).None?
    ensures Share(w, l).None?
  {
    match missing {
      case Pos =>
      case Neg =>
      case Neu =>
    }
  }

  /** Scaling by a positive total keeps order with 0 and with 1. */
  lemma ScaledByPositive(x: real, t: real)
    requires t > 0.0
    ensures x < 0.0 ==> x * t < 0.0
    ensures x > 1.0 ==> x * t > t
    ensures x * t == t ==> x == 1.0
  {
    if x < 0.0 {
      assert (0.0 - x) * t > 0.0;
    }
    if x > 1.0 {
      assert (x - 1.0) * t > 0.0;
    }
  }

  /** With non-negative counts and a positive total, each share is between 0 and 1 and the three add up to 1. */
  lemma SharesSumToOne(w: WideRow)
    requires AllCounted(w) && Total(w) > 0.0
    requires w.pos.value.num >= 0.0 && w.neg.value.num >= 0.0 && w.neu.value.num >= 0.0
    ensures Share(w, Pos).Some? && Share(w, Neg).Some? && Share(w, Neu).Some?
    ensures forall l :: 0.0 <= Share(w, l).value <= 1.0
    ensures Share(w, Pos).value + Share(w, Neg).value + Share(w, Neu).value == 1.0
  {
    var t := Total(w);
    var p, n, u := Share(w, Pos).value, Share(w, Neg).value, Share(w, Neu).value;
    assert p * t == w.pos.value.num && n * t == w.neg.value.num && u * t == w.neu.value.num;
    assert (p + n + u) * t == p * t + n * t + u * t;
    ScaledByPositive(p + n + u, t);
    forall l ensures 0.0 <= Share(w, l).value <= 1.0 {
      ShareBounded(w, l);
    }
  }

  /** One label's share of a positive total of non-negative counts lies between 0 and 1. */
  lemma ShareBounded(w: WideRow, l: Label)
    requires AllCounted(w) && Total(w) > 0.0
    requires w.pos.value.num >= 0.0 && w.neg.value.num >= 0.0 && w.neu.value.num >= 0.0
    ensures Share(w, l).Some? && 0.0 <= Share(w, l).value <= 1.0
  {
    var s, t, c := Share(w, l).value, Total(w), Column(w, l).value.num;
    assert 0.0 <= c <= t by {
      match l {
        case Pos => assert c == w.pos.value.num;
        case Neg => assert c == w.neg.value.num;
        case Neu => assert c == w.neu.value.num;
      }
    }
    assert s * t == c;
    ScaledByPositive(s, t);
  }

  /** The three shares are present, each lies between 0 and 1, and they add up to 1. */
  predicate SharesAreProportions(w: WideRow)
  {
    && Share(w, Pos).Some? && Share(w, Neg).Some? && Share(w, Neu).Some?
    && 0.0 <= Share(w, Pos).value <= 1.0 && 0.0 <= Share(w, Neg).value <= 1.0 && 0.0 <= Share(w, Neu).value <= 1.0
    && Share(w, Pos).value + Share(w, Neg).value + Share(w, Neu).value == 1.0
  }

  /**
   * In a wide table whose present counts are all at least some positive
   * bound, every row that has all three counts has shares that are
   * proportions.
   */
  lemma ProportionsWhereCounted<K>(wide: map<K, WideRow>, c: real)
    requires c > 0.0
    requires forall k, l :: k in wide && Column(wide[k], l).Some? ==> Column(wide[k], l).value.num >= c
    ensures forall k :: k in wide && AllCounted(wide[k]) ==> SharesAreProportions(wide[k])
  {
    forall k | k in wide && AllCounted(wide[k]) ensures SharesAreProportions(wide[k]) {
      var w := wide[k];
      assert Column(w, Pos).Some? && Column(w, Neg).Some? && Column(w, Neu).Some?;
      SharesSumToOne(w);
    }
  }

  /** The column order of `pos.meanSS`, `neg.meanSS`, `neu.meanSS`, which decides ties. */
  function Rank(l: Label): nat
  {
    match l
    case Pos => 0
    case Neg => 1
    case Neu => 2
  }

  /** The label with the higher present mean of the best so far and `l`; the earlier one keeps a tie. */
  function Better(w: WideRow, best: Option<Label>, l: Label): Option<Label>
  {
    if MeanOf(w, l).None? then best
    else if best.None? || MeanOf(w, best.value).None? then Some(l)
    else if MeanOf(w, l).value > MeanOf(w, best.value).value then Some(l)
    else best
  }

  /**
   * `most_extreme_sentiment`: `idxmax` over the three mean columns, skipping
   * missing means. It names a label exactly when some mean is present; the
   * label it names has a present mean at least every other present mean,
   * and strictly above the present means of the columns before it.
   */
  function MostExtreme(w: WideRow): (r: Option<Label>)
    ensures r.None? <==> forall l :: MeanOf(w, l).None?
    ensures r.Some? ==> MeanOf(w, r.value).Some?
    ensures r.Some? ==> forall l :: MeanOf(w, l).Some? ==> MeanOf(w, l).value <= MeanOf(w, r.value).value
    ensures r.Some? ==> forall l :: Rank(l) < Rank(r.value) && MeanOf(w, l).Some? ==>
      MeanOf(w, l).value < MeanOf(w, r.value).value
  {
    Better(w, Better(w, Better(w, None, Pos), Neg), Neu)
  }

  /** The label `MostExtreme` names is the only one that meets its contract. */
  lemma MostExtremeUnique(w: WideRow, l: Label)
    requires MeanOf(w, l).Some?
    requires forall l' :: MeanOf(w, l').Some? ==> MeanOf(w, l').value <= MeanOf(w, l).value
    requires forall l' :: Rank(l') < Rank(l) && MeanOf(w, l').Some? ==> MeanOf(w, l').value < MeanOf(w, l).value
    ensures MostExtreme(w) == Some(l)
  {
  }

  /**
   * A wide table and the comparison columns computed on it. Each column is
   * a map from the join key to the cell, missing cells held as `None`.
   */
  class WideTable<K(==)> {
    const rows: map<K, WideRow>
    var percentPos: map<K, Option<real>>
    var percentNeg: map<K, Option<real>>
    var percentNeu: map<K, Option<real>>
    var mostExtremeSentiment: map<K, Option<Label>>

    /** The comparison columns hold, row by row, the shares and the most extreme label of `rows`. */
    ghost predicate HasComparisonMetrics()
      reads this
    {
      && percentPos.Keys == rows.Keys && percentNeg.Keys == rows.Keys && percentNeu.Keys == rows.Keys
      && mostExtremeSentiment.Keys == rows.Keys
      && (forall k :: k in rows ==> percentPos[k] == Share(rows[k], Pos))
      && (forall k :: k in rows ==> percentNeg[k] == Share(rows[k], Neg))
      && (forall k :: k in rows ==> percentNeu[k] == Share(rows[k], Neu))
      && (forall k :: k in rows ==> mostExtremeSentiment[k] == MostExtreme(rows[k]))
    }

    /** A table with the pivot's columns and none of the comparison columns yet. */
    constructor(rows: map<K, WideRow>)
      ensures this.rows == rows
      ensures percentPos == map[] && percentNeg == map[] && percentNeu == map[] && mostExtremeSentiment == map[]
    {
      this.rows := rows;
      percentPos, percentNeg, percentNeu := map[], map[], map[];
      mostExtremeSentiment := map[];
    }

    /** `sentiment_comparison_metrics`: adds the three share columns and the most extreme label to every row. */
    method AddComparisonMetrics()
      modifies this
      ensures HasComparisonMetrics()
    {
      var rs := rows;
      percentPos := map k | k in rs :: Share(rs[k], Pos);
      percentNeg := map k | k in rs :: Share(rs[k], Neg);
      percentNeu := map k | k in rs :: Share(rs[k], Neu);
      mostExtremeSentiment := map k | k in rs :: MostExtreme(rs[k]);
    }
  }
}
