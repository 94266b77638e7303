/** Sums of an integer measure over the values of a finite map. */
module MapSums {

  ghost function MapSum<K(!new), V(!new)>(m: map<K, V>, f: V -> int): int
    decreases |m|
  {
    if m == map[] then 0
    else
      var k :| k in m;
      f(m[k]) + MapSum(m - {k}, f)
  }

  /** Any key can be taken out first. */
  lemma {:induction false} MapSumPick<K(!new), V(!new)>(m: map<K, V>, f: V -> int, k: K)
    requires k in m
    ensures MapSum(m, f) == f(m[k]) + MapSum(m - {k}, f)
    decreases |m|
  {
    var j :| j in m && MapSum(m, f) == f(m[j]) + MapSum(m - {j}, f);
    if j != k {
      var mj, mk := m - {j}, m - {k};
      MapSumPick(mj, f, k);
      MapSumPick(mk, f, j);
      assert mj - {k} == mk - {j};
    }
  }

  lemma MapSumUpdate<K(!new), V(!new)>(m: map<K, V>, f: V -> int, k: K, v: V)
    ensures MapSum(m[k := v], f) == MapSum(m, f) - (if k in m then f(m[k]) else 0) + f(v)
  {
    MapSumPick(m[k := v], f, k);
    assert m[k := v] - {k} == m - {k};
    if k in m {
      MapSumPick(m, f, k);
    } else {
      assert m - {k} == m;
    }
  }

  /** The sum depends only on the keys and the measure of each value. */
  lemma {:induction false} MapSumCong<K(!new), V(!new), W(!new)>(m: map<K, V>, f: V -> int, m': map<K, W>, g: W -> int)
    requires m.Keys == m'.Keys
    requires forall k :: k in m ==> f(m[k]) == g(m'[k])
    ensures MapSum(m, f) == MapSum(m', g)
    decreases |m|
  {
    if m == map[] {
      assert m' == map[];
    } else {
      var k :| k in m;
      MapSumPick(m, f, k);
      MapSumPick(m', g, k);
      MapSumCong(m - {k}, f, m' - {k}, g);
    }
  }

  lemma {:induction false} MapSumNonNegative<K(!new), V(!new)>(m: map<K, V>, f: V -> int)
    requires forall k :: k in m ==> f(m[k]) >= 0
    ensures MapSum(m, f) >= 0
    ensures forall k :: k in m ==> f(m[k]) <= MapSum(m, f)
    decreases |m|
  {
    if m != map[] {
      forall k | k in m
        ensures 0 <= f(m[k]) <= MapSum(m, f)
      {
        MapSumPick(m, f, k);
        MapSumNonNegative(m - {k}, f);
      }
      var k :| k in m;
      assert 0 <= f(m[k]) <= MapSum(m, f);
    }
  }

  /** A non-negative sum that one key already exhausts leaves nothing for the other keys. */
  lemma MapSumExhausted<K(!new), V(!new)>(m: map<K, V>, f: V -> int, k: K)
    requires k in m && f(m[k]) == MapSum(m, f)
    requires forall j :: j in m ==> f(m[j]) >= 0
    ensures forall j :: j in m && j != k ==> f(m[j]) == 0
  {
    MapSumPick(m, f, k);
    MapSumNonNegative(m - {k}, f);
    forall j | j in m && j != k
      ensures f(m[j]) == 0
    {
      assert j in m - {k} && f((m - {k})[j]) <= MapSum(m - {k}, f);
    }
  }
}
