/** Totals over finite maps: of numbers, and of multisets. */
module Sums {
  ghost function Total<K>(m: map<K, int>): int
    decreases |m|
  {
    if m == map[] then 0
    else
      var k :| k in m;
      m[k] + Total(m - {k})
  }

  ghost function Bag<K, T>(m: map<K, multiset<T>>): multiset<T>
    decreases |m|
  {
    if m == map[] then multiset{}
    else
      var k :| k in m;
      m[k] + Bag(m - {k})
  }

  lemma {:induction false} TotalWithout<K>(m: map<K, int>, k: K)
    requires k in m
    ensures Total(m) == m[k] + Total(m - {k})
    decreases |m|
  {
    var j :| j in m && Total(m) == m[j] + Total(m - {j});
    if j != k {
      TotalWithout(m - {j}, k);
      TotalWithout(m - {k}, j);
      assert m - {j} - {k} == m - {k} - {j};
    }
  }

  lemma {:induction false} BagWithout<K, T>(m: map<K, multiset<T>>, k: K)
    requires k in m
    ensures Bag(m) == m[k] + Bag(m - {k})
    decreases |m|
  {
    var j :| j in m && Bag(m) == m[j] + Bag(m - {j});
    if j != k {
      BagWithout(m - {j}, k);
      BagWithout(m - {k}, j);
      assert m - {j} - {k} == m - {k} - {j};
    }
  }

  /** Setting one entry replaces its old value, if any, by the new one. */
  lemma TotalSet<K>(m: map<K, int>, k: K, v: int)
    ensures Total(m[k := v]) == Total(m) + v - (if k in m then m[k] else 0)
  {
    TotalWithout(m[k := v], k);
    if k in m {
      TotalWithout(m, k);
      assert m[k := v] - {k} == m - {k};
    } else {
      assert m[k := v] - {k} == m;
    }
  }

  lemma BagSet<K, T>(m: map<K, multiset<T>>, k: K, v: multiset<T>)
    ensures k in m ==> Bag(m[k := v]) + m[k] == Bag(m) + v
    ensures k !in m ==> Bag(m[k := v]) == Bag(m) + v
  {
    BagWithout(m[k := v], k);
    if k in m {
      BagWithout(m, k);
      assert m[k := v] - {k} == m - {k};
    } else {
      assert m[k := v] - {k} == m;
    }
  }

  lemma BagHas<K, T>(m: map<K, multiset<T>>, k: K)
    requires k in m
    ensures m[k] <= Bag(m)
  {
    BagWithout(m, k);
  }

  /** Two entries contribute separately. */
  lemma BagHasTwo<K, T>(m: map<K, multiset<T>>, j: K, k: K)
    requires j in m && k in m && j != k
    ensures m[j] + m[k] <= Bag(m)
  {
    BagWithout(m, j);
    BagWithout(m - {j}, k);
  }

  lemma EmptyBag<K, T>()
    ensures Bag<K, T>(map[]) == multiset{}
  {
  }

  /** What a total contains comes from some entry. */
  lemma {:induction false} BagFrom<K, T>(m: map<K, multiset<T>>, x: T) returns (k: K)
    requires x in Bag(m)
    ensures k in m && x in m[k]
    decreases |m|
  {
    k :| k in m && Bag(m) == m[k] + Bag(m - {k});
    if x !in m[k] {
      k := BagFrom(m - {k}, x);
    }
  }
}
