/**
 * `java.util.LinkedHashMap` as the list of its entries in insertion order:
 * `put` of a present key replaces the value in place, `put` of a new key
 * appends, and iteration follows the list.
 */
module OrderedMaps {
  import opened Wrappers

  function Keys<K, V>(m: seq<(K, V)>): (r: seq<K>)
    ensures |r| == |m| && forall i :: 0 <= i < |m| ==> r[i] == m[i].0
  {
    seq(|m|, i requires 0 <= i < |m| => m[i].0)
  }

  /** `values()`, in iteration order. */
  function Values<K, V>(m: seq<(K, V)>): (r: seq<V>)
    ensures |r| == |m| && forall i :: 0 <= i < |m| ==> r[i] == m[i].1
  {
    seq(|m|, i requires 0 <= i < |m| => m[i].1)
  }

  /** No key occurs twice: what every `put` keeps. */
  predicate DistinctKeys<K(==), V>(m: seq<(K, V)>) {
    forall i, j :: 0 <= i < j < |m| ==> m[i].0 != m[j].0
  }

  /** The position of the first entry with key `k`, or `|m|` when there is none. */
  function Find<K(==), V>(m: seq<(K, V)>, k: K): (i: nat)
    ensures i <= |m|
    ensures i < |m| ==> m[i].0 == k
    ensures forall j :: 0 <= j < i ==> m[j].0 != k
    ensures i == |m| <==> k !in Keys(m)
  {
    if m == [] then 0
    else if m[0].0 == k then 0
    else 1 + Find(m[1..], k)
  }

  /** `get(k)`: the value stored under `k`, `None` for an absent key. */
  function Get<K(==), V>(m: seq<(K, V)>, k: K): (r: Option<V>)
    ensures r.None? <==> k !in Keys(m)
    ensures r.Some? ==> exists i :: 0 <= i < |m| && m[i] == (k, r.value)
  {
    var i := Find(m, k);
    if i < |m| then Some(m[i].1) else None
  }

  /** `put(k, v)`. */
  function Put<K(==), V>(m: seq<(K, V)>, k: K, v: V): (r: seq<(K, V)>)
    ensures k in Keys(m) ==> Keys(r) == Keys(m)
    ensures k !in Keys(m) ==> Keys(r) == Keys(m) + [k]
  {
    var i := Find(m, k);
    if i < |m| then m[i := (k, v)] else m + [(k, v)]
  }

  /** Keys stay distinct under `put`. */
  lemma PutKeepsDistinct<K, V>(m: seq<(K, V)>, k: K, v: V)
    requires DistinctKeys(m)
    ensures DistinctKeys(Put(m, k, v))
  {
  }

  /** After `put(k, v)`, `get(k)` is `v` and every other key keeps its value. */
  lemma GetPut<K, V>(m: seq<(K, V)>, k: K, v: V, k': K)
    ensures Get(Put(m, k, v), k') == if k' == k then Some(v) else Get(m, k')
  {
    var r := Put(m, k, v);
    var i, j := Find(m, k'), Find(r, k');
    if k' != k {
      assert forall n :: 0 <= n < |m| ==> (r[n].0 == k' <==> m[n].0 == k');
      if i < |m| {
        assert j <= i;
        assert j == i;
      } else {
        assert j >= |m|;
      }
    }
  }

  /** A second `put` of the same key replaces the first: the map is as if only the second happened. */
  lemma PutPut<K, V>(m: seq<(K, V)>, k: K, v1: V, v2: V)
    ensures Put(Put(m, k, v1), k, v2) == Put(m, k, v2)
  {
    var r := Put(m, k, v1);
    assert Find(r, k) == Find(m, k) || Find(m, k) == |m|;
  }
}
