/** Sums and counts over finite maps, with the one-entry update laws the bookkeeping proofs use. */
module MapSums {

  /** The sum of all values of m. */
  ghost function Sum<K(!new)>(m: map<K, int>): int
    decreases |m|
  {
    if m == map[] then 0
    else
      var k :| k in m;
      m[k] + Sum(m - {k})
  }

  /** The sum does not depend on which entry is taken out first. */
  lemma {:induction false} SumTake<K(!new)>(m: map<K, int>, k: K)
    requires k in m
    ensures Sum(m) == m[k] + Sum(m - {k})
    decreases |m|
  {
    var j :| j in m && Sum(m) == m[j] + Sum(m - {j});
    if j != k {
      SumTake(m - {j}, k);
      SumTake(m - {k}, j);
      assert m - {j} - {k} == m - {k} - {j};
    }
  }

  /** Storing v under k changes the sum by v minus the old value. */
  lemma SumStore<K(!new)>(m: map<K, int>, k: K, v: int)
    ensures Sum(m[k := v]) == Sum(m) - (if k in m then m[k] else 0) + v
  {
    SumTake(m[k := v], k);
    assert m[k := v] - {k} == m - {k};
    if k in m {
      SumTake(m, k);
    } else {
      assert m - {k} == m;
    }
  }

  lemma SumDrop<K(!new)>(m: map<K, int>, k: K)
    ensures Sum(m - {k}) == Sum(m) - (if k in m then m[k] else 0)
  {
    if k in m {
      SumTake(m, k);
    } else {
      assert m - {k} == m;
    }
  }

  /** A pointwise smaller map over fewer keys, of non-negative values, has a smaller sum. */
  lemma {:induction false} SumMonotone<K(!new)>(m: map<K, int>, n: map<K, int>)
    requires m.Keys <= n.Keys
    requires forall k :: k in m ==> m[k] <= n[k]
    requires forall k :: k in n ==> 0 <= n[k]
    ensures Sum(m) <= Sum(n)
    decreases |n|
  {
    if n == map[] {
      assert m == map[];
    } else {
      var k :| k in n;
      SumTake(n, k);
      SumDrop(m, k);
      SumMonotone(m - {k}, n - {k});
    }
  }

  lemma SumNonNegative<K(!new)>(m: map<K, int>)
    requires forall k :: k in m ==> 0 <= m[k]
    ensures 0 <= Sum(m)
  {
    SumMonotone(map[], m);
  }

  /** Entries of value zero can be left out. */
  lemma {:induction false} SumSupport<K(!new)>(m: map<K, int>, n: map<K, int>)
    requires n.Keys <= m.Keys
    requires forall k :: k in n ==> n[k] == m[k]
    requires forall k :: k in m && k !in n ==> m[k] == 0
    ensures Sum(m) == Sum(n)
    decreases |m|
  {
    if m == map[] {
      assert n == map[];
    } else {
      var k :| k in m;
      SumTake(m, k);
      SumDrop(n, k);
      SumSupport(m - {k}, n - {k});
    }
  }

  /** Each value is at most the sum when no value is negative. */
  lemma SumCovers<K(!new)>(m: map<K, int>, k: K)
    requires k in m
    requires forall j :: j in m ==> 0 <= m[j]
    ensures m[k] <= Sum(m)
  {
    SumTake(m, k);
    SumNonNegative(m - {k});
  }

  /** n times c, added up. */
  function Repeated(n: nat, c: int): int {
    if n == 0 then 0 else Repeated(n - 1, c) + c
  }

  lemma {:induction false} RepeatedIs(n: nat, c: int)
    ensures Repeated(n, c) == n * c
  {
    if n > 0 {
      RepeatedIs(n - 1, c);
    }
  }

  lemma {:induction false} RepeatedGrows(m: nat, n: nat, c: int)
    requires m <= n && 0 <= c
    ensures 0 <= Repeated(m, c) <= Repeated(n, c)
    decreases n
  {
    if n > 0 {
      RepeatedGrows(if m == n then m - 1 else m, n - 1, c);
    }
  }

  /** With every value at most c, the sum is at most c per entry. */
  lemma {:induction false} SumBound<K(!new)>(m: map<K, int>, c: int)
    requires forall k :: k in m ==> m[k] <= c
    ensures Sum(m) <= Repeated(|m|, c)
    decreases |m|
  {
    if m == map[] {
      assert |m| == 0;
    } else {
      var k :| k in m;
      var rest := m - {k};
      assert rest.Keys == m.Keys - {k};
      assert |m| == |rest| + 1;
      SumTake(m, k);
      SumBound(rest, c);
    }
  }
}
