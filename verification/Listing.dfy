/** ORDER BY over a finite set of keys: the one sequence that lists them in strict order. */
module Listing {

  ghost predicate StrictTotalOn<K(!new)>(keys: set<K>, less: (K, K) -> bool) {
    && (forall a :: a in keys ==> !less(a, a))
    && (forall a, b :: a in keys && b in keys && a != b ==> less(a, b) || less(b, a))
    && (forall a, b, c :: a in keys && b in keys && c in keys && less(a, b) && less(b, c) ==> less(a, c))
  }

  ghost predicate Ascending<K(!new)>(s: seq<K>, less: (K, K) -> bool) {
    forall i, j :: 0 <= i < j < |s| ==> less(s[i], s[j])
  }

  ghost predicate IsListing<K(!new)>(s: seq<K>, keys: set<K>, less: (K, K) -> bool) {
    && Ascending(s, less)
    && (forall k :: k in keys <==> k in s)
  }

  ghost predicate IsLeast<K(!new)>(m: K, keys: set<K>, less: (K, K) -> bool) {
    m in keys && forall k :: k in keys && k != m ==> less(m, k)
  }

  lemma {:induction false} LeastExists<K(!new)>(keys: set<K>, less: (K, K) -> bool)
    requires keys != {}
    requires StrictTotalOn(keys, less)
    ensures exists m :: IsLeast(m, keys, less)
  {
    var x :| x in keys;
    var rest := keys - {x};
    if rest == {} {
      assert keys == {x};
      assert IsLeast(x, keys, less);
    } else {
      LeastExists(rest, less);
      var m :| IsLeast(m, rest, less);
      if less(m, x) {
        assert IsLeast(m, keys, less);
      } else {
        assert IsLeast(x, keys, less);
      }
    }
  }

  /** The listing of `keys`, least first. */
  ghost function Sorted<K(!new)>(keys: set<K>, less: (K, K) -> bool): (s: seq<K>)
    requires StrictTotalOn(keys, less)
    ensures IsListing(s, keys, less)
    ensures |s| == |keys|
    decreases |keys|
  {
    if keys == {} then []
    else
      LeastExists(keys, less);
      var m :| IsLeast(m, keys, less);
      var rest := Sorted(keys - {m}, less);
      assert forall i :: 0 <= i < |rest| ==> rest[i] in keys - {m};
      [m] + rest
  }

  /** Two orders that agree on the keys list them alike: a listing is unique. */
  lemma {:induction false} ListingUnique<K(!new)>(
      s: seq<K>, t: seq<K>, keys: set<K>, less: (K, K) -> bool, less': (K, K) -> bool)
    requires StrictTotalOn(keys, less)
    requires forall a, b :: a in keys && b in keys ==> less(a, b) == less'(a, b)
    requires IsListing(s, keys, less) && IsListing(t, keys, less')
    ensures s == t
    decreases |s|
  {
    assert t != [] ==> t[0] in keys;
    if s == [] {
    } else {
      assert s[0] in keys;
      SameHead(s, t, keys, less, less');
      var rest := keys - {s[0]};
      TailLists(s, keys, less);
      TailLists(t, keys, less');
      ListingUnique(s[1..], t[1..], rest, less, less');
      assert s == [s[0]] + s[1..] && t == [t[0]] + t[1..];
    }
  }

  lemma SameHead<K(!new)>(s: seq<K>, t: seq<K>, keys: set<K>, less: (K, K) -> bool, less': (K, K) -> bool)
    requires StrictTotalOn(keys, less)
    requires forall a, b :: a in keys && b in keys ==> less(a, b) == less'(a, b)
    requires IsListing(s, keys, less) && IsListing(t, keys, less')
    requires s != [] && t != []
    ensures s[0] == t[0]
  {
    var a, b := s[0], t[0];
    assert a in keys && b in keys;
    var i :| 0 <= i < |t| && t[i] == a;
    var j :| 0 <= j < |s| && s[j] == b;
    assert i > 0 ==> less'(b, a);
    assert j > 0 ==> less(a, b);
    assert i > 0 && j > 0 ==> less(a, a);
  }

  lemma TailLists<K(!new)>(s: seq<K>, keys: set<K>, less: (K, K) -> bool)
    requires StrictTotalOn(keys, less) || forall a :: a in keys ==> !less(a, a)
    requires IsListing(s, keys, less)
    requires s != []
    ensures IsListing(s[1..], keys - {s[0]}, less)
  {
    assert s[0] in keys;
    forall k ensures k in keys - {s[0]} <==> k in s[1..] {
      if k in s[1..] {
        var i :| 0 <= i < |s[1..]| && s[1..][i] == k;
        assert s[i + 1] == k;
        assert less(s[0], k);
      }
      if k in keys && k != s[0] {
        var i :| 0 <= i < |s| && s[i] == k;
        assert s[1..][i - 1] == k;
      }
    }
  }

  /** ORDER BY as a selection: the least key left is taken until none is. */
  method OrderBy<K(!new, ==)>(keys: set<K>, less: (K, K) -> bool) returns (s: seq<K>)
    requires StrictTotalOn(keys, less)
    ensures IsListing(s, keys, less)
    ensures s == Sorted(keys, less)
  {
    s := [];
    var left := keys;
    while left != {}
      invariant left <= keys
      invariant Ascending(s, less)
      invariant forall k :: k in keys <==> k in s || k in left
      invariant forall k :: k in s ==> k in keys
      invariant forall k, l :: k in s && l in left ==> less(k, l)
      decreases |left|
    {
      var least :| least in left;
      var others := left - {least};
      while others != {}
        invariant least in left && others <= left && least !in others
        invariant forall k :: k in left - others && k != least ==> less(least, k)
        decreases |others|
      {
        var k :| k in others;
        others := others - {k};
        if less(k, least) {
          least := k;
        }
      }
      s := s + [least];
      left := left - {least};
    }
    ListingUnique(s, Sorted(keys, less), keys, less, less);
  }
}
