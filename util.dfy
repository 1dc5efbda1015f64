/** Shared vocabulary: a cell that may be missing, and duplicate-free sequences. */
module Util {

  /** A table cell that may be missing: pandas' NaN is `None`. */
  datatype Option<+T> = None | Some(value: T)

  /** The value stored under `k`, or a missing cell when `k` is not a key. */
  function Get<K(==), V>(m: map<K, V>, k: K): (r: Option<V>)
    ensures r.Some? <==> k in m
    ensures r.Some? ==> r.value == m[k]
  {
    if k in m then Some(m[k]) else None
  }

  /** No element occurs twice. */
  predicate Distinct<T(==)>(s: seq<T>)
  {
    forall i, j :: 0 <= i < j < |s| ==> s[i] != s[j]
  }
}
