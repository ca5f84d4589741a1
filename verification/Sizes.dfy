/** Sums of natural numbers held in a finite map, independent of any order of summation. */
module Sizes {

  ghost function Total<K(!new)>(m: map<K, nat>): nat
    decreases |m|
  {
    if m == map[] then 0
    else
      var k :| k in m;
      m[k] + Total(m - {k})
  }

  ghost function Restrict<K, V>(m: map<K, V>, ks: set<K>): map<K, V> {
    map k | k in m && k in ks :: m[k]
  }

  lemma {:induction false} TotalRemove<K(!new)>(m: map<K, nat>, k: K)
    requires k in m
    ensures Total(m) == m[k] + Total(m - {k})
    decreases |m|
  {
    var j :| j in m && Total(m) == m[j] + Total(m - {j});
    if j != k {
      TotalRemove(m - {j}, k);
      TotalRemove(m - {k}, j);
      assert (m - {j}) - {k} == (m - {k}) - {j};
    }
  }

  lemma TotalUpdate<K(!new)>(m: map<K, nat>, k: K, v: nat)
    ensures Total(m[k := v]) == Total(m) - (if k in m then m[k] else 0) + v
  {
    TotalRemove(m[k := v], k);
    if k in m {
      TotalRemove(m, k);
      assert m[k := v] - {k} == m - {k};
    } else {
      assert m[k := v] - {k} == m;
    }
  }

  lemma {:induction false} TotalSplit<K(!new)>(m: map<K, nat>, ks: set<K>)
    ensures Total(m) == Total(m - ks) + Total(Restrict(m, ks))
    decreases |m|
  {
    if m == map[] {
      assert m - ks == map[] && Restrict(m, ks) == map[];
    } else {
      var k :| k in m;
      TotalSplit(m - {k}, ks);
      TotalRemove(m, k);
      if k in ks {
        TotalRemove(Restrict(m, ks), k);
        assert Restrict(m, ks) - {k} == Restrict(m - {k}, ks);
        assert (m - {k}) - ks == m - ks;
      } else {
        TotalRemove(m - ks, k);
        assert (m - {k}) - ks == (m - ks) - {k};
        assert Restrict(m - {k}, ks) == Restrict(m, ks);
      }
    }
  }

  /** The same numbers under other keys add up to the same. */
  lemma {:induction false} TotalRenamed<K(!new), L(!new)>(m: map<K, nat>, n: map<L, nat>, rename: K -> L)
    requires forall k :: k in m ==> rename(k) in n && n[rename(k)] == m[k]
    requires forall j, k :: j in m && k in m && rename(j) == rename(k) ==> j == k
    requires forall l :: l in n ==> exists k :: k in m && rename(k) == l
    ensures Total(m) == Total(n)
    decreases |m|
  {
    if m == map[] {
      assert n == map[];
    } else {
      var k :| k in m;
      TotalRemove(m, k);
      TotalRemove(n, rename(k));
      forall l | l in n - {rename(k)} ensures exists j :: j in m - {k} && rename(j) == l {
        var j :| j in m && rename(j) == l;
        assert j in m - {k};
      }
      TotalRenamed(m - {k}, n - {rename(k)}, rename);
    }
  }
}
