/** Sums over the values of a finite map from names to amounts: the
    quantity that the zero-sum law of the ledger and the category totals
    speak about. */
module MapSum {

  /** The sum of all values of `m`, taken in an arbitrary key order. */
  ghost function Total(m: map<string, real>): real
    decreases |m|
  {
    if m == map[] then 0.0
    else
      var k :| k in m;
      m[k] + Total(m - {k})
  }

  /** Any key may be taken out first: the sum does not depend on the order. */
  lemma {:induction false} TotalPick(m: map<string, real>, k: string)
    requires k in m
    ensures Total(m) == m[k] + Total(m - {k})
    decreases |m|
  {
    var j :| j in m && Total(m) == m[j] + Total(m - {j});
    if j != k {
      var mj, mk := m - {j}, m - {k};
      TotalPick(mj, k);
      TotalPick(mk, j);
      assert mj - {k} == mk - {j};
    }
  }

  /** Changing one value changes the sum by the difference. */
  lemma {:induction false} TotalUpdate(m: map<string, real>, k: string, v: real)
    requires k in m
    ensures Total(m[k := v]) == Total(m) - m[k] + v
  {
    TotalPick(m, k);
    TotalPick(m[k := v], k);
    assert m[k := v] - {k} == m - {k};
  }

  /** A map whose values are all zero sums to zero. */
  lemma {:induction false} TotalOfZeros(m: map<string, real>)
    requires forall k :: k in m ==> m[k] == 0.0
    ensures Total(m) == 0.0
    decreases |m|
  {
    if m != map[] {
      var k :| k in m;
      TotalPick(m, k);
      TotalOfZeros(m - {k});
    }
  }
}
