/**
 * `create_pnn_columns`: the long table (one row per time period and
 * sentiment) turned wide, with one row per time period and a triple of
 * columns for each of the positive, negative and neutral labels.
 */
module Pivot {
  import opened Util

  /** The three sentiment labels the pivot projects. */
  datatype Label = Pos | Neg | Neu

  /** The value of the `sentiment` column that selects a label's rows. */
  function LabelName(l: Label): string
  {
    match l
    case Pos => "positive"
    case Neg => "negative"
    case Neu => "neutral"
  }

  /** The `MeanSentScore`, `SumSentScore` and `NumTweets` of one row. */
  datatype Metrics = Metrics(mean: real, sum: real, num: real)

  /** One row of the long table, keyed by the time-period column that the pivot joins on. */
  datatype LongRow<K> = LongRow(key: K, sentiment: string, metrics: Metrics)

  /** One row of the wide table: the `pos.*`, `neg.*` and `neu.*` triples, each missing when that label had no row. */
  datatype WideRow = WideRow(pos: Option<Metrics>, neg: Option<Metrics>, neu: Option<Metrics>)

  /** The triple a wide row holds for a label. */
  function Column(w: WideRow, l: Label): Option<Metrics>
  {
    match l
    case Pos => w.pos
    case Neg => w.neg
    case Neu => w.neu
  }

  /** The row carries label `l` in its `sentiment` column. */
  predicate Labelled<K>(r: LongRow<K>, l: Label)
  {
    r.sentiment == LabelName(l)
  }

  /** The time periods that have a row with label `l`. */
  function KeysWith<K>(rows: seq<LongRow<K>>, l: Label): (ks: set<K>)
    ensures forall i :: 0 <= i < |rows| && Labelled(rows[i], l) ==> rows[i].key in ks
  {
    set i | 0 <= i < |rows| && Labelled(rows[i], l) :: rows[i].key
  }

  /** No time period has two rows with label `l`: the condition under which merging on it cannot multiply rows. */
  predicate UniqueFor<K(==)>(rows: seq<LongRow<K>>, l: Label)
  {
    forall i, j :: 0 <= i < j < |rows| && Labelled(rows[i], l) && Labelled(rows[j], l) ==>
      rows[i].key != rows[j].key
  }

  predicate UniquePerLabel<K(==)>(rows: seq<LongRow<K>>)
  {
    UniqueFor(rows, Pos) && UniqueFor(rows, Neg) && UniqueFor(rows, Neu)
  }

  /**
   * `data[data['sentiment'] == label][[time_period_col, ...]]` with its
   * columns renamed: the metrics of the label's rows, by time period.
   */
  function Project<K(==)>(rows: seq<LongRow<K>>, l: Label): (p: map<K, Metrics>)
    requires UniqueFor(rows, l)
    ensures p.Keys == KeysWith(rows, l)
    ensures forall i :: 0 <= i < |rows| && Labelled(rows[i], l) ==>
      rows[i].key in p && p[rows[i].key] == rows[i].metrics
  {
    if rows == [] then map[]
    else
      var n := |rows| - 1;
      var front := rows[..n];
      assert UniqueFor(front, l) by {
        forall i, j | 0 <= i < j < |front| && Labelled(front[i], l) && Labelled(front[j], l)
          ensures front[i].key != front[j].key
        {
          assert front[i] == rows[i] && front[j] == rows[j];
        }
      }
      var p := Project(front, l);
      ProjectStep(rows, l, p);
      if Labelled(rows[n], l) then p[rows[n].key := rows[n].metrics] else p
  }

  /** The step of `Project` that adds the last row to the projection of the others. */
  lemma ProjectStep<K>(rows: seq<LongRow<K>>, l: Label, p: map<K, Metrics>)
    requires rows != [] && UniqueFor(rows, l)
    requires p.Keys == KeysWith(rows[..|rows| - 1], l)
    requires forall i :: 0 <= i < |rows| - 1 && Labelled(rows[i], l) ==>
      rows[i].key in p && p[rows[i].key] == rows[i].metrics
    ensures
      var n := |rows| - 1;
      var q := if Labelled(rows[n], l) then p[rows[n].key := rows[n].metrics] else p;
      && q.Keys == KeysWith(rows, l)
      && forall i :: 0 <= i < |rows| && Labelled(rows[i], l) ==>
        rows[i].key in q && q[rows[i].key] == rows[i].metrics
  {
    var n := |rows| - 1;
    KeysWithStep(rows, l);
    forall i | 0 <= i < n && Labelled(rows[i], l) && Labelled(rows[n], l)
      ensures rows[i].key != rows[n].key
    {
    }
  }

  /** The keys of a label grow by the last row's key when that row has the label. */
  lemma KeysWithStep<K>(rows: seq<LongRow<K>>, l: Label)
    requires rows != []
    ensures
      var n := |rows| - 1;
      KeysWith(rows, l) == KeysWith(rows[..n], l) + (if Labelled(rows[n], l) then {rows[n].key} else {})
  {
    var n := |rows| - 1;
    var front := rows[..n];
    forall k | k in KeysWith(rows, l) ensures k in KeysWith(front, l) || (Labelled(rows[n], l) && k == rows[n].key) {
      var i :| 0 <= i < |rows| && Labelled(rows[i], l) && rows[i].key == k;
      if i < n {
        assert front[i] == rows[i];
      }
    }
    forall k | k in KeysWith(front, l) ensures k in KeysWith(rows, l) {
      var i :| 0 <= i < |front| && Labelled(front[i], l) && front[i].key == k;
      assert rows[i] == front[i];
    }
  }

  /** Every time period that has a row with one of the three labels. */
  function LabelledKeys<K>(rows: seq<LongRow<K>>): set<K>
  {
    KeysWith(rows, Pos) + KeysWith(rows, Neg) + KeysWith(rows, Neu)
  }

  /** The wide row of time period `k`: each label's triple from its projection, or missing. */
  function Widen<K>(pos: map<K, Metrics>, neg: map<K, Metrics>, neu: map<K, Metrics>, k: K): (w: WideRow)
    ensures Column(w, Pos) == Get(pos, k) && Column(w, Neg) == Get(neg, k) && Column(w, Neu) == Get(neu, k)
  {
    WideRow(Get(pos, k), Get(neg, k), Get(neu, k))
  }

  /** The outer join of the three projections on the time period. */
  function OuterJoin<K>(pos: map<K, Metrics>, neg: map<K, Metrics>, neu: map<K, Metrics>): (wide: map<K, WideRow>)
    ensures wide.Keys == pos.Keys + neg.Keys + neu.Keys
    ensures forall k :: k in wide ==> wide[k] == Widen(pos, neg, neu, k)
  {
    map k | k in pos.Keys + neg.Keys + neu.Keys :: Widen(pos, neg, neu, k)
  }

  /** How each label's triple of the joined table reflects the long table. */
  lemma JoinedColumns<K>(rows: seq<LongRow<K>>, pos: map<K, Metrics>, neg: map<K, Metrics>, neu: map<K, Metrics>)
    requires UniquePerLabel(rows)
    requires pos == Project(rows, Pos) && neg == Project(rows, Neg) && neu == Project(rows, Neu)
    ensures forall k, l :: k in OuterJoin(pos, neg, neu) ==>
      (Column(OuterJoin(pos, neg, neu)[k], l).None? <==> k !in KeysWith(rows, l))
    ensures forall i, l :: 0 <= i < |rows| && Labelled(rows[i], l) ==>
      rows[i].key in OuterJoin(pos, neg, neu) && Column(OuterJoin(pos, neg, neu)[rows[i].key], l) == Some(rows[i].metrics)
  {
    var wide := OuterJoin(pos, neg, neu);
    forall k, l | k in wide ensures Column(wide[k], l).None? <==> k !in KeysWith(rows, l) {
      match l {
        case Pos =>
        case Neg =>
        case Neu =>
      }
    }
    forall i, l | 0 <= i < |rows| && Labelled(rows[i], l)
      ensures rows[i].key in wide && Column(wide[rows[i].key], l) == Some(rows[i].metrics)
    {
      match l {
        case Pos =>
        case Neg =>
        case Neu =>
      }
    }
  }

  /**
   * `create_pnn_columns`: the three projections outer-joined on the time
   * period. The wide table has a row for exactly the periods present in
   * some projection; a label absent from a period leaves its triple
   * missing, and a label present carries its row's metrics unchanged.
   */
  function CreatePnnColumns<K(==)>(rows: seq<LongRow<K>>): (wide: map<K, WideRow>)
    requires UniquePerLabel(rows)
    ensures wide.Keys == LabelledKeys(rows)
    ensures forall k, l :: k in wide ==> (Column(wide[k], l).None? <==> k !in KeysWith(rows, l))
    ensures forall i, l :: 0 <= i < |rows| && Labelled(rows[i], l) ==>
      rows[i].key in wide && Column(wide[rows[i].key], l) == Some(rows[i].metrics)
  {
    var pos, neg, neu := Project(rows, Pos), Project(rows, Neg), Project(rows, Neu);
    var wide := OuterJoin(pos, neg, neu);
    JoinedColumns(rows, pos, neg, neu);
    wide
  }

  /** Every wide row has at least one label's triple. */
  lemma WideRowsAreNonEmpty<K>(rows: seq<LongRow<K>>)
    requires UniquePerLabel(rows)
    ensures forall k :: k in CreatePnnColumns(rows) ==>
      var w := CreatePnnColumns(rows)[k];
      w.pos.Some? || w.neg.Some? || w.neu.Some?
  {
    var wide := CreatePnnColumns(rows);
    forall k | k in wide ensures wide[k].pos.Some? || wide[k].neg.Some? || wide[k].neu.Some? {
      assert k in LabelledKeys(rows);
      var i :| 0 <= i < |rows| && rows[i].key == k && (Labelled(rows[i], Pos) ||
                 Labelled(rows[i], Neg) || Labelled(rows[i], Neu));
      if Labelled(rows[i], Pos) {
        assert Column(wide[k], Pos).Some?;
      } else if Labelled(rows[i], Neg) {
        assert Column(wide[k], Neg).Some?;
      } else {
        assert Column(wide[k], Neu).Some?;
      }
    }
  }

  /** A lower bound on every row's count is a lower bound on every count the wide table holds. */
  lemma CountsAtLeast<K>(rows: seq<LongRow<K>>, c: real)
    requires UniquePerLabel(rows)
    requires forall i :: 0 <= i < |rows| ==> rows[i].metrics.num >= c
    ensures forall k, l :: k in CreatePnnColumns(rows) && Column(CreatePnnColumns(rows)[k], l).Some? ==>
      Column(CreatePnnColumns(rows)[k], l).value.num >= c
  {
    var wide := CreatePnnColumns(rows);
    forall k, l | k in wide && Column(wide[k], l).Some? ensures Column(wide[k], l).value.num >= c {
      assert k in KeysWith(rows, l);
      var i :| 0 <= i < |rows| && Labelled(rows[i], l) && rows[i].key == k;
    }
  }
}
