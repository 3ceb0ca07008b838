/** One piece of work at a time for each key, in the order they were asked for. */
module Serially {
  import opened Dids

  type Key = nat

  datatype Status = Waiting | Running | Done

  /** A piece of work, with the one it runs after: the last asked for under its key, while that is remembered. */
  datatype Work = Work(key: Key, previous: Option<nat>)

  /** Work runs, or is done, only after all earlier work of its key is done. */
  ghost predicate InTurn(works: seq<Work>, status: seq<Status>)
    requires |works| == |status|
  {
    forall i, n :: 0 <= i < n < |works| && works[i].key == works[n].key && !status[n].Waiting? ==> status[i].Done?
  }

  ghost predicate DoneBefore(works: seq<Work>, status: seq<Status>, n: nat)
    requires |works| == |status| && n < |works|
  {
    forall i :: 0 <= i < n && works[i].key == works[n].key ==> status[i].Done?
  }

  /** The p-th work is the last of its key before the n-th. */
  ghost predicate LastBefore(works: seq<Work>, p: nat, n: nat)
    requires n <= |works|
  {
    p < n && forall j :: p < j < n ==> works[j].key != works[p].key
  }

  /** Work waits for the last of its key before it, and where it waits for none all before it are done. */
  ghost predicate Chained(works: seq<Work>, status: seq<Status>)
    requires |works| == |status|
  {
    forall n :: 0 <= n < |works| ==>
      if works[n].previous.Some? then LastBefore(works, works[n].previous.value, n) && works[works[n].previous.value].key == works[n].key
      else DoneBefore(works, status, n)
  }

  /** A key is remembered with its last work, until the follow-up of that, and forgotten only once all its work is done. */
  ghost predicate Remembered(tails: map<Key, nat>, works: seq<Work>, status: seq<Status>, followed: seq<bool>)
    requires |works| == |status| == |followed|
  {
    && (forall k :: k in tails ==> LastBefore(works, tails[k], |works|) && works[tails[k]].key == k && !followed[tails[k]])
    && (forall i :: 0 <= i < |works| && works[i].key !in tails ==> status[i].Done?)
  }

  // ---- what each step keeps ----

  lemma InTurnWithMore(works: seq<Work>, status: seq<Status>, work: Work)
    requires |works| == |status| && InTurn(works, status)
    ensures InTurn(works + [work], status + [Waiting])
  {
  }

  lemma ChainedWithMore(tails: map<Key, nat>, works: seq<Work>, status: seq<Status>, followed: seq<bool>, key: Key)
    requires |works| == |status| == |followed| && Chained(works, status) && Remembered(tails, works, status, followed)
    ensures Chained(works + [Work(key, if key in tails then Some(tails[key]) else None)], status + [Waiting])
  {
    var work := Work(key, if key in tails then Some(tails[key]) else None);
    var works', status' := works + [work], status + [Waiting];
    forall n | 0 <= n < |works'|
      ensures if works'[n].previous.Some? then LastBefore(works', works'[n].previous.value, n) && works'[works'[n].previous.value].key == works'[n].key
              else DoneBefore(works', status', n)
    {
      if n < |works| {
        assert works'[n] == works[n];
        if works[n].previous.Some? {
          assert LastBefore(works, works[n].previous.value, n);
        } else {
          assert DoneBefore(works, status, n);
        }
      }
    }
  }

  lemma RememberedWithMore(tails: map<Key, nat>, works: seq<Work>, status: seq<Status>, followed: seq<bool>, work: Work)
    requires |works| == |status| == |followed| && Remembered(tails, works, status, followed)
    ensures Remembered(tails[work.key := |works|], works + [work], status + [Waiting], followed + [false])
  {
    var tails', works', status', followed' := tails[work.key := |works|], works + [work], status + [Waiting], followed + [false];
    forall k | k in tails' ensures LastBefore(works', tails'[k], |works'|) && works'[tails'[k]].key == k && !followed'[tails'[k]] {
      if k != work.key {
        assert LastBefore(works, tails[k], |works|);
      }
    }
  }

  /** All earlier work of the key is done once the one waited for is. */
  lemma EarlierDone(works: seq<Work>, status: seq<Status>, n: nat)
    requires |works| == |status| && InTurn(works, status) && Chained(works, status) && n < |works|
    requires works[n].previous.Some? && works[n].previous.value < |works| ==> status[works[n].previous.value].Done?
    ensures DoneBefore(works, status, n)
  {
    if works[n].previous.Some? {
      var p := works[n].previous.value;
      assert LastBefore(works, p, n);
      forall i | 0 <= i < n && works[i].key == works[n].key ensures status[i].Done? {
        assert i <= p;
      }
    }
  }

  lemma InTurnWhenStarted(works: seq<Work>, status: seq<Status>, n: nat)
    requires |works| == |status| && InTurn(works, status) && n < |works| && status[n].Waiting? && DoneBefore(works, status, n)
    ensures InTurn(works, status[n := Running])
  {
  }

  lemma InTurnWhenSettled(works: seq<Work>, status: seq<Status>, n: nat)
    requires |works| == |status| && InTurn(works, status) && n < |works| && status[n].Running?
    ensures InTurn(works, status[n := Done])
  {
  }

  /** Work once done stays done, so what was said of earlier work still is. */
  lemma ChainedOnwards(works: seq<Work>, status: seq<Status>, status': seq<Status>)
    requires |works| == |status| == |status'| && Chained(works, status)
    requires forall i :: 0 <= i < |works| && status[i].Done? ==> status'[i].Done?
    ensures Chained(works, status')
  {
    forall n | 0 <= n < |works| && works[n].previous.None? ensures DoneBefore(works, status', n) {
      assert DoneBefore(works, status, n);
    }
  }

  lemma RememberedOnwards(tails: map<Key, nat>, works: seq<Work>, status: seq<Status>, status': seq<Status>, followed: seq<bool>)
    requires |works| == |status| == |status'| == |followed| && Remembered(tails, works, status, followed)
    requires forall i :: 0 <= i < |works| && status[i].Done? ==> status'[i].Done?
    ensures Remembered(tails, works, status', followed)
  {
  }

  lemma RememberedWhenFollowed(tails: map<Key, nat>, works: seq<Work>, status: seq<Status>, followed: seq<bool>, n: nat)
    requires |works| == |status| == |followed| && Remembered(tails, works, status, followed) && InTurn(works, status)
    requires n < |works| && status[n].Done?
    ensures var key := works[n].key;
      Remembered(if key in tails && tails[key] == n then tails - {key} else tails, works, status, followed[n := true])
  {
    var key := works[n].key;
    if key in tails && tails[key] == n {
      forall i | 0 <= i < |works| && works[i].key == key ensures status[i].Done? {
        assert LastBefore(works, n, |works|);
        assert i <= n;
      }
    }
    forall k | k in tails && k != key ensures tails[k] != n {
      assert works[tails[k]].key == k;
    }
  }

  class Queues {
    /** the last of what is still running, for each key */
    var tails: map<Key, nat>
    /** everything asked for, in order, how far each is, and whether its follow-up has run */
    var works: seq<Work>
    var status: seq<Status>
    var followed: seq<bool>

    constructor ()
      ensures Valid() && works == [] && tails == map[]
    {
      tails, works, status, followed := map[], [], [], [];
    }

    ghost predicate Valid()
      reads this
    {
      && |works| == |status| == |followed|
      && InTurn(works, status) && Chained(works, status) && Remembered(tails, works, status, followed)
    }

    /** Asks for work under the key, to run after everything asked for under it before. */
    method Ask(key: Key) returns (n: nat)
      requires Valid()
      modifies this
      ensures Valid() && n == |old(works)| && |works| == n + 1 && works[n].key == key && status == old(status) + [Waiting]
      ensures works[..n] == old(works) && tails == old(tails)[key := n]
    {
      hide InTurn, Chained, Remembered;
      n := |works|;
      var work := Work(key, if key in tails then Some(tails[key]) else None);
      InTurnWithMore(works, status, work);
      ChainedWithMore(tails, works, status, followed, key);
      RememberedWithMore(tails, works, status, followed, work);
      works, status, followed := works + [work], status + [Waiting], followed + [false];
      tails := tails[key := n];
    }

    /** What it waits for is done: it runs, the only one of its key that does, and none asked for before it is left. */
    method Start(n: nat)
      requires Valid() && n < |works| && status[n].Waiting?
      requires works[n].previous.Some? && works[n].previous.value < |works| ==> status[works[n].previous.value].Done?
      modifies this`status
      ensures Valid() && status == old(status)[n := Running]
      ensures DoneBefore(works, status, n)
    {
      hide InTurn, Chained, Remembered;
      EarlierDone(works, status, n);
      InTurnWhenStarted(works, status, n);
      ChainedOnwards(works, status, status[n := Running]);
      RememberedOnwards(tails, works, status, status[n := Running], followed);
      status := status[n := Running];
    }

    /** It settles, well or not: the next of its key may start. */
    method Settle(n: nat)
      requires Valid() && n < |works| && status[n].Running?
      modifies this`status
      ensures Valid() && status == old(status)[n := Done]
    {
      hide InTurn, Chained, Remembered;
      InTurnWhenSettled(works, status, n);
      ChainedOnwards(works, status, status[n := Done]);
      RememberedOnwards(tails, works, status, status[n := Done], followed);
      status := status[n := Done];
    }

    /** After it settled: its key is forgotten, unless more was asked for meanwhile. */
    method Follow(n: nat)
      requires Valid() && n < |works| && status[n].Done?
      modifies this`tails, this`followed
      ensures Valid() && followed == old(followed)[n := true]
      ensures tails == if works[n].key in old(tails) && old(tails)[works[n].key] == n then old(tails) - {works[n].key} else old(tails)
    {
      hide InTurn, Chained, Remembered;
      RememberedWhenFollowed(tails, works, status, followed, n);
      followed := followed[n := true];
      var key := works[n].key;
      if key in tails && tails[key] == n {
        tails := tails - {key};
      }
    }
  }

  /** At any moment one running piece of work of a key at most, and what is done was done in order. */
  lemma OneAtATime(queues: Queues, i: nat, n: nat)
    requires queues.Valid() && i < n < |queues.works| && queues.works[i].key == queues.works[n].key
    ensures !(queues.status[i].Running? && queues.status[n].Running?)
    ensures queues.status[n].Done? ==> queues.status[i].Done?
  {
  }

  /** A key without work is not in the map. */
  lemma NothingOutlives(queues: Queues, key: Key)
    requires queues.Valid()
    requires forall i :: 0 <= i < |queues.works| && queues.works[i].key == key ==> queues.followed[i]
    ensures key !in queues.tails
  {
  }
}
