/** Finite sums over the values of a map, and how they move when one entry changes. */
module Sums {

  /** The sum of `weight` over the values of `m`; the order of summation is irrelevant (SumRemove). */
  ghost function Sum<K, V>(m: map<K, V>, weight: V -> int): int
    decreases |m|
  {
    if m == map[] then 0 else
    var k :| k in m;
    assert (m - {k}).Keys == m.Keys - {k};
    weight(m[k]) + Sum(m - {k}, weight)
  }

  lemma {:induction false} SumRemove<K, V>(m: map<K, V>, k: K, weight: V -> int)
    requires k in m
    ensures Sum(m, weight) == weight(m[k]) + Sum(m - {k}, weight)
    decreases |m|
  {
    var j :| j in m && Sum(m, weight) == weight(m[j]) + Sum(m - {j}, weight);
    if j != k {
      assert (m - {j}).Keys == m.Keys - {j};
      assert (m - {k}).Keys == m.Keys - {k};
      SumRemove(m - {j}, k, weight);
      SumRemove(m - {k}, j, weight);
      assert m - {j} - {k} == m - {k} - {j};
    }
  }

  lemma SumInsert<K, V>(m: map<K, V>, k: K, v: V, weight: V -> int)
    requires k !in m
    ensures Sum(m[k := v], weight) == Sum(m, weight) + weight(v)
  {
    SumRemove(m[k := v], k, weight);
    assert m[k := v] - {k} == m;
  }

  lemma SumUpdate<K, V>(m: map<K, V>, k: K, v: V, weight: V -> int)
    requires k in m
    ensures Sum(m[k := v], weight) == Sum(m, weight) - weight(m[k]) + weight(v)
  {
    SumRemove(m, k, weight);
    SumRemove(m[k := v], k, weight);
    assert m[k := v] - {k} == m - {k};
  }

  lemma {:induction false} SumZero<K, V>(m: map<K, V>, weight: V -> int)
    requires forall k :: k in m ==> weight(m[k]) == 0
    ensures Sum(m, weight) == 0
    decreases |m|
  {
    if m != map[] {
      var k :| k in m;
      assert (m - {k}).Keys == m.Keys - {k};
      SumZero(m - {k}, weight);
      SumRemove(m, k, weight);
    }
  }

  /** One non-negative entry never exceeds a sum of non-negative entries. */
  lemma {:induction false} SumBoundsEntry<K, V>(m: map<K, V>, k: K, weight: V -> int)
    requires k in m
    requires forall j :: j in m ==> weight(m[j]) >= 0
    ensures Sum(m, weight) >= weight(m[k])
  {
    SumRemove(m, k, weight);
    SumNonNegative(m - {k}, weight);
  }

  lemma {:induction false} SumNonNegative<K, V>(m: map<K, V>, weight: V -> int)
    requires forall k :: k in m ==> weight(m[k]) >= 0
    ensures Sum(m, weight) >= 0
    decreases |m|
  {
    if m != map[] {
      var k :| k in m;
      assert (m - {k}).Keys == m.Keys - {k};
      SumNonNegative(m - {k}, weight);
      SumRemove(m, k, weight);
    }
  }

  /** Two weights that agree entry by entry, up to a third one, have sums that agree up to it. */
  lemma {:induction false} SumAdd<K, V>(m: map<K, V>, left: V -> int, right: V -> int, total: V -> int)
    requires forall k :: k in m ==> left(m[k]) + right(m[k]) == total(m[k])
    ensures Sum(m, left) + Sum(m, right) == Sum(m, total)
    decreases |m|
  {
    if m != map[] {
      var k :| k in m;
      assert (m - {k}).Keys == m.Keys - {k};
      SumAdd(m - {k}, left, right, total);
      SumRemove(m, k, left);
      SumRemove(m, k, right);
      SumRemove(m, k, total);
    }
  }
}
