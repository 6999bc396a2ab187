/** Sums over finite maps, and how one update changes them. */
module MapSums {
  ghost function Sum<K>(m: map<K, int>): int
    decreases |m|
  {
    if m == map[] then 0 else
      var k :| k in m;
      m[k] + Sum(m - {k})
  }

  // The order in which the keys are added does not matter.
  lemma {:induction false} SumSplit<K>(m: map<K, int>, k: K)
    requires k in m
    ensures Sum(m) == m[k] + Sum(m - {k})
    decreases |m|
  {
    var first :| first in m && Sum(m) == m[first] + Sum(m - {first});
    if first != k {
      SumSplit(m - {first}, k);
      SumSplit(m - {k}, first);
      assert m - {first} - {k} == m - {k} - {first};
    }
  }

  lemma {:induction false} SumUpdate<K>(m: map<K, int>, k: K, v: int)
    ensures Sum(m[k := v]) == Sum(m) - (if k in m then m[k] else 0) + v
  {
    SumSplit(m[k := v], k);
    assert m[k := v] - {k} == m - {k};
    if k in m {
      SumSplit(m, k);
    } else {
      assert m - {k} == m;
    }
  }

  lemma {:induction false} SumNonNegative<K>(m: map<K, int>)
    requires forall k :: k in m ==> m[k] >= 0
    ensures Sum(m) >= 0
    decreases |m|
  {
    if m != map[] {
      var k :| k in m && Sum(m) == m[k] + Sum(m - {k});
      SumNonNegative(m - {k});
    }
  }

  lemma {:induction false} TermBounded<K>(m: map<K, int>, k: K)
    requires k in m
    requires forall i :: i in m ==> m[i] >= 0
    ensures 0 <= m[k] <= Sum(m)
  {
    SumSplit(m, k);
    SumNonNegative(m - {k});
  }

  lemma {:induction false} SumAllZero<K>(m: map<K, int>)
    requires forall k :: k in m ==> m[k] == 0
    ensures Sum(m) == 0
    decreases |m|
  {
    if m != map[] {
      var k :| k in m && Sum(m) == m[k] + Sum(m - {k});
      SumAllZero(m - {k});
    }
  }

  // Terms outside the smaller map are zero.
  lemma {:induction false} SumOfPart<K>(m: map<K, int>, part: map<K, int>)
    requires part.Keys <= m.Keys
    requires forall k :: k in m ==> m[k] == if k in part then part[k] else 0
    ensures Sum(m) == Sum(part)
    decreases |m|
  {
    if m != map[] {
      var k :| k in m && Sum(m) == m[k] + Sum(m - {k});
      if k in part {
        SumSplit(part, k);
      } else {
        assert part - {k} == part;
      }
      SumOfPart(m - {k}, part - {k});
    } else {
      assert part == map[];
    }
  }
}
