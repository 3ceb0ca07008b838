/** Everything observed about one message: the closure of its entries over what they happened inside and what happened inside those. */
module Trace {
  import opened Dids
  import opened Listing
  import opened Sums

  datatype Stream = Wire | Envelope | Bytes | Diag

  /** `parent` is the sequence number of the entry this one happened inside, which may not have been kept. */
  datatype Entry = Entry(number: nat, stream: Stream, messageId: Option<nat>, parent: Option<nat>)

  /** The entries by sequence number, each under its own. */
  predicate BySeq(all: map<nat, Entry>) {
    forall s :: s in all ==> all[s].number == s
  }

  /** The envelopes and requests that name the message. */
  function Ends(all: map<nat, Entry>, messageId: nat): (r: set<nat>) {
    set s | s in all && (all[s].stream.Envelope? || all[s].stream.Wire?) && all[s].messageId == Some(messageId)
  }

  /** Everything in it that happened inside a kept entry has that entry in it too. */
  ghost predicate ClosedOutward(all: map<nat, Entry>, t: set<nat>) {
    forall s :: s in t && s in all && all[s].parent.Some? && all[s].parent.value in all ==> all[s].parent.value in t
  }

  /** An envelope that shared a frame with the message and is not of it. */
  predicate OtherOnion(all: map<nat, Entry>, ends: set<nat>, chain: set<nat>, s: nat)
    requires s in all
  {
    all[s].stream.Envelope? && all[s].parent.Some? && all[s].parent.value in chain && all[s].parent.value !in ends
  }

  /** Everything that happened inside something in it is in it too, but for the other onions. */
  ghost predicate ClosedInward(all: map<nat, Entry>, ends: set<nat>, chain: set<nat>, t: set<nat>) {
    forall s :: s in all && all[s].parent.Some? && all[s].parent.value in t && !OtherOnion(all, ends, chain, s) ==> s in t
  }

  /** Every set with the ends in it that is closed outward has these in it. */
  ghost predicate InEveryChain(all: map<nat, Entry>, ends: set<nat>, these: set<nat>) {
    forall t :: ends <= t && ClosedOutward(all, t) ==> these <= t
  }

  /** Every set with the chain in it that is closed inward has these in it. */
  ghost predicate InEveryOnion(all: map<nat, Entry>, ends: set<nat>, chain: set<nat>, these: set<nat>) {
    forall t :: chain <= t && ClosedInward(all, ends, chain, t) ==> these <= t
  }

  /** The least set with the ends in it that is closed outward. */
  ghost predicate IsChain(all: map<nat, Entry>, ends: set<nat>, chain: set<nat>) {
    ends <= chain <= all.Keys && ClosedOutward(all, chain) && InEveryChain(all, ends, chain)
  }

  /** The least set with the chain in it that is closed inward. */
  ghost predicate IsOnion(all: map<nat, Entry>, ends: set<nat>, chain: set<nat>, found: set<nat>) {
    chain <= found <= all.Keys && ClosedInward(all, ends, chain, found) && InEveryOnion(all, ends, chain, found)
  }

  lemma ChainGrows(all: map<nat, Entry>, ends: set<nat>, chain: set<nat>, s: nat, p: nat)
    requires InEveryChain(all, ends, chain)
    requires s in chain && s in all && all[s].parent == Some(p) && p in all
    ensures InEveryChain(all, ends, chain + {p})
  {
  }

  lemma OnionGrows(all: map<nat, Entry>, ends: set<nat>, chain: set<nat>, found: set<nat>, s: nat)
    requires InEveryOnion(all, ends, chain, found)
    requires s in all && all[s].parent.Some? && all[s].parent.value in found && !OtherOnion(all, ends, chain, s)
    ensures InEveryOnion(all, ends, chain, found + {s})
  {
  }

  /** Whose parents are still to look at. */
  ghost predicate Pending(all: map<nat, Entry>, chain: set<nat>, wanted: seq<nat>) {
    && (forall s :: s in chain && s in all && all[s].parent.Some? && all[s].parent.value in all ==> all[s].parent.value in chain || all[s].parent.value in wanted)
    && (forall p :: p in wanted ==> exists s :: s in chain && s in all && all[s].parent == Some(p))
  }

  method ParentsOf(all: map<nat, Entry>, ends: set<nat>) returns (wanted: seq<nat>)
    requires ends <= all.Keys
    ensures Pending(all, ends, wanted)
  {
    wanted := [];
    var left := ends;
    while left != {}
      invariant left <= ends
      invariant forall s :: s in ends - left && all[s].parent.Some? ==> all[s].parent.value in wanted
      invariant forall p :: p in wanted ==> exists s :: s in ends && s in all && all[s].parent == Some(p)
    {
      var s :| s in left;
      left := left - {s};
      if all[s].parent.Some? {
        wanted := wanted + [all[s].parent.value];
      }
    }
  }

  lemma PendingWithout(all: map<nat, Entry>, chain: set<nat>, wanted: seq<nat>)
    requires Pending(all, chain, wanted) && wanted != []
    requires wanted[|wanted| - 1] !in all || wanted[|wanted| - 1] in chain
    ensures Pending(all, chain, wanted[..|wanted| - 1])
  {
    var fewer, p := wanted[..|wanted| - 1], wanted[|wanted| - 1];
    assert wanted == fewer + [p];
    assert forall q :: q in wanted <==> q in fewer || q == p;
  }

  lemma PendingWith(all: map<nat, Entry>, chain: set<nat>, wanted: seq<nat>, p: nat, more: seq<nat>)
    requires Pending(all, chain, wanted) && wanted != [] && p == wanted[|wanted| - 1] && p in all
    requires more == wanted[..|wanted| - 1] + if all[p].parent.Some? then [all[p].parent.value] else []
    ensures Pending(all, chain + {p}, more)
  {
    var fewer := wanted[..|wanted| - 1];
    assert wanted == fewer + [p];
    assert forall q :: q in fewer ==> q in more;
    if all[p].parent.Some? {
      assert more[|more| - 1] == all[p].parent.value;
    }
  }

  /** Outward: a stack of parents still to look at; an entry found before, or not kept, ends its branch, so a cycle does too. */
  method Outward(all: map<nat, Entry>, ends: set<nat>) returns (chain: set<nat>)
    requires ends <= all.Keys
    ensures IsChain(all, ends, chain)
  {
    hide InEveryChain, Pending;
    chain := ends;
    EndsInEvery(all, ends);
    var wanted := ParentsOf(all, ends);
    while wanted != []
      invariant ends <= chain <= all.Keys
      invariant Pending(all, chain, wanted)
      invariant InEveryChain(all, ends, chain)
      decreases |all.Keys - chain|, |wanted|
    {
      var p := wanted[|wanted| - 1];
      if p !in all || p in chain {
        PendingWithout(all, chain, wanted);
        wanted := wanted[..|wanted| - 1];
        continue;
      }
      PendingHas(all, ends, chain, wanted);
      CountsDown(all.Keys - chain, all.Keys - (chain + {p}), p);
      var more := wanted[..|wanted| - 1] + if all[p].parent.Some? then [all[p].parent.value] else [];
      PendingWith(all, chain, wanted, p, more);
      chain := chain + {p};
      wanted := more;
    }
    NothingPending(all, chain);
  }

  lemma EndsInEvery(all: map<nat, Entry>, ends: set<nat>)
    ensures InEveryChain(all, ends, ends)
  {
  }

  lemma PendingHas(all: map<nat, Entry>, ends: set<nat>, chain: set<nat>, wanted: seq<nat>)
    requires Pending(all, chain, wanted) && wanted != [] && wanted[|wanted| - 1] in all
    requires InEveryChain(all, ends, chain)
    ensures InEveryChain(all, ends, chain + {wanted[|wanted| - 1]})
  {
    var p := wanted[|wanted| - 1];
    assert p in wanted;
    var s :| s in chain && s in all && all[s].parent == Some(p);
    ChainGrows(all, ends, chain, s, p);
  }

  lemma NothingPending(all: map<nat, Entry>, chain: set<nat>)
    requires Pending(all, chain, [])
    ensures ClosedOutward(all, chain)
  {
  }

  lemma CountsDown(a: set<nat>, b: set<nat>, x: nat)
    requires b <= a && x in a && x !in b
    ensures |b| < |a|
  {
    CountShrinks(b, a - {x});
  }

  /** What the entry hangs on adds nothing of it. */
  ghost predicate Settled(all: map<nat, Entry>, ends: set<nat>, chain: set<nat>, t: set<nat>, s: nat) {
    s in all && all[s].parent.Some? && all[s].parent.value in t && !OtherOnion(all, ends, chain, s) ==> s in t
  }

  /** The entries' sequence numbers, all of them. */
  ghost predicate Lists(order: seq<nat>, all: map<nat, Entry>) {
    (forall j :: 0 <= j < |order| ==> order[j] in all) && (forall s :: s in all ==> s in order)
  }

  /** One pass over the entries: it adds something, or there is nothing to add. */
  method Pass(all: map<nat, Entry>, order: seq<nat>, ends: set<nat>, chain: set<nat>, before: set<nat>) returns (found: set<nat>, grew: bool)
    requires before <= all.Keys && InEveryOnion(all, ends, chain, before)
    requires Lists(order, all)
    ensures before <= found <= all.Keys && InEveryOnion(all, ends, chain, found)
    ensures grew ==> |all.Keys - found| < |all.Keys - before|
    ensures !grew ==> found == before && ClosedInward(all, ends, chain, found)
  {
    assert forall j :: 0 <= j < |order| ==> order[j] in all;
    hide InEveryOnion, ClosedInward, Settled, Lists;
    found, grew := before, false;
    ghost var added: nat := 0;
    for k := 0 to |order|
      invariant before <= found <= all.Keys && InEveryOnion(all, ends, chain, found)
      invariant grew ==> added in found && added !in before
      invariant !grew ==> found == before && forall j :: 0 <= j < k ==> Settled(all, ends, chain, before, order[j])
    {
      var s := order[k];
      SettledWhen(all, ends, chain, found, s);
      if all[s].parent.None? || all[s].parent.value !in found || s in found {
        continue;
      }
      if all[s].stream.Envelope? && all[s].parent.value in chain && all[s].parent.value !in ends {
        continue;
      }
      OnionGrows(all, ends, chain, found, s);
      added := if grew then added else s;
      found := found + {s};
      grew := true;
    }
    if grew {
      CountsDown(all.Keys - before, all.Keys - found, added);
    } else {
      SettledIsClosed(all, order, ends, chain, found);
    }
  }

  lemma SettledWhen(all: map<nat, Entry>, ends: set<nat>, chain: set<nat>, t: set<nat>, s: nat)
    requires s in all
    ensures Settled(all, ends, chain, t, s) <==> all[s].parent.None? || all[s].parent.value !in t || s in t || OtherOnion(all, ends, chain, s)
  {
  }

  lemma SettledIsClosed(all: map<nat, Entry>, order: seq<nat>, ends: set<nat>, chain: set<nat>, found: set<nat>)
    requires Lists(order, all)
    requires forall j :: 0 <= j < |order| ==> Settled(all, ends, chain, found, order[j])
    ensures ClosedInward(all, ends, chain, found)
  {
    forall s | s in all ensures Settled(all, ends, chain, found, s) {
      assert s in order;
    }
  }

  /** Inward: passes over all entries until one adds nothing. */
  method Inward(all: map<nat, Entry>, order: seq<nat>, ends: set<nat>, chain: set<nat>) returns (found: set<nat>)
    requires chain <= all.Keys
    requires Lists(order, all)
    ensures IsOnion(all, ends, chain, found)
  {
    found := chain;
    var grew := true;
    assert InEveryOnion(all, ends, chain, chain);
    hide InEveryOnion, ClosedInward;
    while grew
      invariant chain <= found <= all.Keys && InEveryOnion(all, ends, chain, found)
      invariant !grew ==> ClosedInward(all, ends, chain, found)
      decreases |all.Keys - found|, grew
    {
      found, grew := Pass(all, order, ends, chain, found);
    }
  }

  predicate Lower(a: nat, b: nat) {
    a < b
  }

  /** The entries of the sequence numbers, lowest first. */
  method InOrder(all: map<nat, Entry>, found: set<nat>) returns (r: seq<Entry>)
    requires BySeq(all) && found <= all.Keys
    ensures forall i, j :: 0 <= i < j < |r| ==> r[i].number < r[j].number
    ensures forall e :: e in r <==> e.number in found && all[e.number] == e
  {
    var sorted := OrderBy(found, Lower);
    assert forall i :: 0 <= i < |sorted| ==> sorted[i] in sorted;
    r := seq(|sorted|, i requires 0 <= i < |sorted| => all[sorted[i]]);
    forall e ensures e in r <==> e.number in found && all[e.number] == e {
      if e.number in found && all[e.number] == e {
        assert e.number in sorted;
        var i :| 0 <= i < |sorted| && sorted[i] == e.number;
        assert r[i] == e;
      }
    }
    forall i, j | 0 <= i < j < |r| ensures r[i].number < r[j].number {
      assert Lower(sorted[i], sorted[j]);
    }
  }

  /** Every entry around the message or inside it, by number; none for a message no entry names. */
  method TraceOf(all: map<nat, Entry>, messageId: nat) returns (r: seq<Entry>, ghost chain: set<nat>, ghost found: set<nat>)
    requires BySeq(all)
    ensures IsChain(all, Ends(all, messageId), chain)
    ensures IsOnion(all, Ends(all, messageId), chain, found)
    ensures forall i, j :: 0 <= i < j < |r| ==> r[i].number < r[j].number
    ensures forall e :: e in r <==> e.number in found && all[e.number] == e
  {
    hide InEveryChain, InEveryOnion, ClosedOutward, ClosedInward, BySeq;
    var ends := Ends(all, messageId);
    if ends == {} {
      NothingOfNothing(all);
      return [], {}, {};
    }
    var outer := Outward(all, ends);
    var order := OrderBy(all.Keys, Lower);
    assert forall j :: 0 <= j < |order| ==> order[j] in order;
    var inner := Inward(all, order, ends, outer);
    r := InOrder(all, inner);
    chain, found := outer, inner;
  }

  lemma NothingOfNothing(all: map<nat, Entry>)
    ensures IsChain(all, {}, {}) && IsOnion(all, {}, {}, {})
  {
  }
}
