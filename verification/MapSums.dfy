/** Sums over the values of a map. */
module MapSums {
  ghost function Total<K(!new)>(m: map<K, nat>): nat
    decreases m.Keys
  {
    if m == map[] then 0
    else
      var k :| k in m;
      m[k] + Total(m - {k})
  }

  lemma {:induction false} TotalPick<K(!new)>(m: map<K, nat>, k: K)
    requires k in m
    ensures Total(m) == m[k] + Total(m - {k})
    decreases m.Keys
  {
    var first :| first in m && Total(m) == m[first] + Total(m - {first});
    if first != k {
      TotalPick(m - {first}, k);
      TotalPick(m - {k}, first);
      assert m - {first} - {k} == m - {k} - {first};
    }
  }

  /** Setting one entry exchanges its old value, or nothing, for the new one. */
  lemma TotalSet<K(!new)>(m: map<K, nat>, k: K, v: nat)
    ensures Total(m[k := v]) == Total(m - {k}) + v
    ensures k in m ==> Total(m[k := v]) == Total(m) - m[k] + v
    ensures k !in m ==> Total(m[k := v]) == Total(m) + v
  {
    TotalPick(m[k := v], k);
    assert m[k := v] - {k} == m - {k};
    if k in m {
      TotalPick(m, k);
    } else {
      assert m - {k} == m;
    }
  }

  lemma {:induction false} TotalAtLeast<K(!new)>(small: map<K, nat>, large: map<K, nat>)
    requires small.Keys == large.Keys && forall k :: k in small ==> small[k] <= large[k]
    ensures Total(small) <= Total(large)
    decreases small.Keys
  {
    if small != map[] {
      var k :| k in small;
      TotalPick(small, k);
      TotalPick(large, k);
      TotalAtLeast(small - {k}, large - {k});
    }
  }

  /** When every value is at least one, the sum is the number of keys exactly when all are one. */
  lemma {:induction false} TotalOfOnes<K(!new)>(m: map<K, nat>)
    requires forall k :: k in m ==> m[k] >= 1
    ensures Total(m) >= |m|
    ensures Total(m) == |m| <==> forall k :: k in m ==> m[k] == 1
    decreases m.Keys
  {
    if m != map[] {
      var k :| k in m;
      TotalPick(m, k);
      TotalOfOnes(m - {k});
      assert |m - {k}| == |m| - 1 by {
        assert (m - {k}).Keys == m.Keys - {k};
        assert |(m - {k}).Keys| == |m.Keys| - 1;
      }
      assert forall j :: j in m <==> j == k || j in m - {k};
    }
  }
}
