/** Sums over finite maps. */
module MapSum {

  ghost function Sum<K>(m: map<K, int>): int
    decreases |m|
  {
    if m == map[] then 0
    else
      var k := AnyKey(m);
      assert |(m - {k}).Keys| < |m.Keys| by { assert (m - {k}).Keys < m.Keys; }
      m[k] + Sum(m - {k})
  }

  ghost function AnyKey<K>(m: map<K, int>): (k: K)
    requires m != map[]
    ensures k in m
  {
    var k :| k in m;
    k
  }

  lemma {:induction false} SumOut<K>(m: map<K, int>, k: K)
    requires k in m
    ensures Sum(m) == m[k] + Sum(m - {k})
    decreases |m|
  {
    var a := AnyKey(m);
    if a != k {
      assert (m - {a}).Keys < m.Keys;
      assert |(m - {a}).Keys| < |m.Keys|;
      SumOut(m - {a}, k);
      assert (m - {k}).Keys < m.Keys;
      assert |(m - {k}).Keys| < |m.Keys|;
      SumOut(m - {k}, a);
      assert m - {a} - {k} == m - {k} - {a};
    }
  }

  function At<K>(m: map<K, int>, k: K): int {
    if k in m then m[k] else 0
  }

  lemma SumUpdate<K>(m: map<K, int>, k: K, v: int)
    ensures Sum(m[k := v]) == Sum(m) - At(m, k) + v
  {
    SumOut(m[k := v], k);
    assert m[k := v] - {k} == m - {k};
    if k in m {
      SumOut(m, k);
    } else {
      assert m - {k} == m;
    }
  }

  lemma SumRemove<K>(m: map<K, int>, k: K)
    ensures Sum(m - {k}) == Sum(m) - At(m, k)
  {
    if k in m {
      SumOut(m, k);
    } else {
      assert m - {k} == m;
    }
  }

  lemma {:induction false} SumNonNegative<K>(m: map<K, int>)
    requires forall k :: k in m ==> m[k] >= 0
    ensures Sum(m) >= 0
    decreases |m|
  {
    if m != map[] {
      var k := AnyKey(m);
      assert (m - {k}).Keys < m.Keys;
      assert |(m - {k}).Keys| < |m.Keys|;
      SumNonNegative(m - {k});
    }
  }

  lemma {:induction false} SumMonotone<K>(m: map<K, int>, n: map<K, int>)
    requires m.Keys == n.Keys && forall k :: k in m ==> m[k] <= n[k]
    ensures Sum(m) <= Sum(n)
    decreases |m|
  {
    if m == map[] {
      assert n == map[];
    } else {
      var k := AnyKey(m);
      assert (m - {k}).Keys < m.Keys;
      assert |(m - {k}).Keys| < |m.Keys|;
      SumMonotone(m - {k}, n - {k});
      SumOut(m, k);
      SumOut(n, k);
    }
  }

  lemma {:induction false} SumOfZeros<K>(m: map<K, int>)
    requires forall k :: k in m ==> m[k] == 0
    ensures Sum(m) == 0
    decreases |m|
  {
    if m != map[] {
      var k := AnyKey(m);
      assert (m - {k}).Keys < m.Keys;
      assert |(m - {k}).Keys| < |m.Keys|;
      SumOfZeros(m - {k});
    }
  }

  /** Dropping keys lowers a sum of non-negative terms by the sum of the dropped ones. */
  lemma {:induction false} SumSplit<K>(m: map<K, int>, keep: set<K>)
    ensures Sum(m) == Sum(map k | k in m && k in keep :: m[k]) + Sum(m - keep)
    decreases |m|
  {
    var kept := map k | k in m && k in keep :: m[k];
    if m == map[] {
      assert kept == map[] && m - keep == map[];
    } else {
      var a := AnyKey(m);
      var rest := m - {a};
      assert rest.Keys < m.Keys;
      assert |rest.Keys| < |m.Keys|;
      SumSplit(rest, keep);
      var restKept := map k | k in rest && k in keep :: rest[k];
      if a in keep {
        assert restKept == kept - {a};
        assert rest - keep == m - keep;
        SumOut(kept, a);
      } else {
        assert restKept == kept;
        assert rest - keep == m - keep - {a};
        SumOut(m - keep, a);
      }
    }
  }
}
