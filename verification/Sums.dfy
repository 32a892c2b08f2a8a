/** Sums over the values of a finite map. */
module Sums {

  ghost function Sum<K, V>(m: map<K, V>, f: V -> nat): nat {
    if m == map[] then 0
    else
      var k :| k in m;
      f(m[k]) + Sum(m - {k}, f)
  }

  /** The order in which keys are taken does not matter. */
  lemma {:induction false} SumRemove<K, V>(m: map<K, V>, f: V -> nat, k: K)
    requires k in m
    ensures Sum(m, f) == f(m[k]) + Sum(m - {k}, f)
    decreases |m|
  {
    var j :| j in m && Sum(m, f) == f(m[j]) + Sum(m - {j}, f);
    if j != k {
      SumRemove(m - {j}, f, k);
      SumRemove(m - {k}, f, j);
      assert (m - {j}) - {k} == (m - {k}) - {j};
    }
  }

  lemma SumUpdate<K, V>(m: map<K, V>, f: V -> nat, k: K, v: V)
    ensures Sum(m[k := v], f) == Sum(m, f) - (if k in m then f(m[k]) else 0) + f(v)
  {
    SumRemove(m[k := v], f, k);
    assert m[k := v] - {k} == m - {k};
    if k in m {
      SumRemove(m, f, k);
    } else {
      assert m - {k} == m;
    }
  }

  lemma SizeUpdate<K, V>(m: map<K, V>, k: K, v: V)
    ensures |m[k := v]| == |m| + (if k in m then 0 else 1)
  {
    assert m[k := v].Keys == m.Keys + {k};
  }

  lemma SizeRemove<K, V>(m: map<K, V>, k: K)
    requires k in m
    ensures |m - {k}| == |m| - 1
  {
    assert (m - {k}).Keys == m.Keys - {k};
  }
}
