/** Totals over the rows of a table. */
module Sums {

  /** The sum of a table's values. */
  ghost function Total<K>(m: map<K, nat>): (n: nat)
    decreases |m|
  {
    if m == map[] then 0
    else
      var k :| k in m;
      assert |m - {k}| < |m| by { assert (m - {k}).Keys == m.Keys - {k}; }
      m[k] + Total(m - {k})
  }

  /** Any row may be taken out first. */
  lemma {:induction false} TotalTakesOut<K>(m: map<K, nat>, k: K)
    requires k in m
    ensures Total(m) == m[k] + Total(m - {k})
    decreases |m|
  {
    var j :| j in m && Total(m) == m[j] + Total(m - {j});
    if j != k {
      assert |m - {j}| < |m| && |m - {k}| < |m| by {
        assert (m - {j}).Keys == m.Keys - {j} && (m - {k}).Keys == m.Keys - {k};
      }
      TotalTakesOut(m - {j}, k);
      TotalTakesOut(m - {k}, j);
      assert m - {j} - {k} == m - {k} - {j};
    }
  }

  lemma TotalAdds<K>(m: map<K, nat>, k: K, v: nat)
    requires k !in m
    ensures Total(m[k := v]) == Total(m) + v
  {
    TotalTakesOut(m[k := v], k);
    assert m[k := v] - {k} == m;
  }

  /** Fewer rows, each as it was, total no more. */
  lemma {:induction false} TotalShrinks<K>(m: map<K, nat>, n: map<K, nat>)
    requires forall k :: k in m ==> k in n && n[k] == m[k]
    ensures Total(m) <= Total(n)
    decreases |m|
  {
    if m != map[] {
      var k :| k in m;
      TotalTakesOut(m, k);
      TotalTakesOut(n, k);
      assert (m - {k}).Keys == m.Keys - {k};
      TotalShrinks(m - {k}, n - {k});
    }
  }

  /** A part of a finite set is no larger than it. */
  lemma {:induction false} CountShrinks<K>(a: set<K>, b: set<K>)
    requires a <= b
    ensures |a| <= |b|
    decreases |a|
  {
    if a != {} {
      var x :| x in a;
      CountShrinks(a - {x}, b - {x});
    }
  }

  function Least(a: nat, b: nat): (r: nat) {
    if a < b then a else b
  }
}
