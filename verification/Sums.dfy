/** Sums over the values of a finite map, and how they react to updates of the map. */
module Sums {

  ghost function Sum<K(!new), V>(m: map<K, V>, f: V -> int): int
    decreases |m|
  {
    if m == map[] then
      0
    else
      var k :| k in m;
      f(m[k]) + Sum(m - {k}, f)
  }

  /** Any key may be taken out first. */
  lemma {:induction false} SumRemove<K(!new), V>(m: map<K, V>, f: V -> int, k: K)
    requires k in m
    ensures Sum(m, f) == f(m[k]) + Sum(m - {k}, f)
    decreases |m|
  {
    var first :| first in m && Sum(m, f) == f(m[first]) + Sum(m - {first}, f);
    if first != k {
      SumRemove(m - {first}, f, k);
      SumRemove(m - {k}, f, first);
      assert m - {first} - {k} == m - {k} - {first};
    }
  }

  lemma SumInsert<K(!new), V>(m: map<K, V>, f: V -> int, k: K, v: V)
    requires k !in m
    ensures Sum(m[k := v], f) == Sum(m, f) + f(v)
  {
    SumRemove(m[k := v], f, k);
    assert m[k := v] - {k} == m;
  }

  lemma SumReplace<K(!new), V>(m: map<K, V>, f: V -> int, k: K, v: V)
    requires k in m
    ensures Sum(m[k := v], f) == Sum(m, f) - f(m[k]) + f(v)
  {
    SumRemove(m, f, k);
    SumRemove(m[k := v], f, k);
    assert m[k := v] - {k} == m - {k};
  }

  /** If every value of one map is covered by the other map's value at the same key, so is the sum. */
  lemma {:induction false} SumCovered<K(!new), V, W>(m: map<K, V>, f: V -> int, n: map<K, W>, g: W -> int)
    requires forall k :: k in m && f(m[k]) > 0 ==> k in n && f(m[k]) <= g(n[k])
    requires forall k :: k in n ==> 0 <= g(n[k])
    ensures Sum(m, f) <= Sum(n, g)
    decreases |m|
  {
    if m == map[] {
      SumNonNegative(n, g);
    } else {
      var k :| k in m;
      SumRemove(m, f, k);
      if k in n {
        SumRemove(n, g, k);
        SumCovered(m - {k}, f, n - {k}, g);
      } else {
        SumCovered(m - {k}, f, n, g);
      }
    }
  }

  lemma {:induction false} SumNonNegative<K(!new), V>(m: map<K, V>, f: V -> int)
    requires forall k :: k in m ==> 0 <= f(m[k])
    ensures 0 <= Sum(m, f)
    decreases |m|
  {
    if m != map[] {
      var k :| k in m;
      SumRemove(m, f, k);
      SumNonNegative(m - {k}, f);
    }
  }

  /** One value is never more than the whole sum of non-negative values. */
  lemma SumAtLeast<K(!new), V>(m: map<K, V>, f: V -> int, k: K)
    requires k in m
    requires forall j :: j in m ==> 0 <= f(m[j])
    ensures f(m[k]) <= Sum(m, f)
  {
    SumRemove(m, f, k);
    SumNonNegative(m - {k}, f);
  }
}
