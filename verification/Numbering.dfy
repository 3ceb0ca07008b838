/** Rows numbered one, two, three as they come, each by how many there were before it. */
module Numbering {

  /** `order` lists the keys by their numbers, which run from one without a gap or a repeat. */
  ghost predicate IsNumbering<K(!new)>(m: map<K, nat>, order: seq<K>) {
    && (forall i :: 0 <= i < |order| ==> order[i] in m && m[order[i]] == i + 1)
    && (forall k :: k in m ==> 1 <= m[k] <= |order| && order[m[k] - 1] == k)
  }

  ghost predicate Numbered<K(!new)>(m: map<K, nat>) {
    exists order :: IsNumbering(m, order)
  }

  ghost function OrderOf<K(!new)>(m: map<K, nat>): (order: seq<K>)
    requires Numbered(m)
    ensures IsNumbering(m, order)
  {
    var order :| IsNumbering(m, order);
    order
  }

  lemma NumberingUnique<K(!new)>(m: map<K, nat>, a: seq<K>, b: seq<K>)
    requires IsNumbering(m, a) && IsNumbering(m, b)
    ensures a == b
  {
    assert |a| > 0 ==> a[|a| - 1] in m;
    assert |b| > 0 ==> b[|b| - 1] in m;
    forall i | 0 <= i < |a| ensures a[i] == b[i] {
      assert a[i] in m;
    }
  }

  lemma {:induction false} NumberingCounts<K(!new)>(m: map<K, nat>, order: seq<K>)
    requires IsNumbering(m, order)
    ensures |m| == |order|
    decreases |order|
  {
    if order == [] {
      assert m.Keys == {};
    } else {
      var last := order[|order| - 1];
      assert (m - {last}).Keys == m.Keys - {last};
      forall k | k in m && k != last ensures m[k] != |order| {
        assert order[m[k] - 1] == k;
      }
      NumberingCounts(m - {last}, order[..|order| - 1]);
    }
  }

  /** The next key, numbered one past the count, goes to the end and moves no other. */
  lemma NumberingExtends<K(!new)>(m: map<K, nat>, k: K)
    requires Numbered(m)
    requires k !in m
    ensures Numbered(m[k := |m| + 1])
    ensures OrderOf(m[k := |m| + 1]) == OrderOf(m) + [k]
  {
    var order := OrderOf(m);
    NumberingCounts(m, order);
    assert IsNumbering(m[k := |m| + 1], order + [k]);
    NumberingUnique(m[k := |m| + 1], order + [k], OrderOf(m[k := |m| + 1]));
  }

  lemma NothingNumbered<K(!new)>(m: map<K, nat>)
    requires m == map[]
    ensures Numbered(m) && OrderOf(m) == []
  {
    assert IsNumbering(m, []);
    NumberingUnique(m, [], OrderOf(m));
  }
}
