/** The open sockets, indexed by the first DID each one proved. */
module Sessions {
  import opened Dids

  /** A session's own state, which is saved with its socket. */
  datatype SessionState = SessionState(did: Option<Did>, liveDelivery: bool, returnRoute: bool)

  const FRESH := SessionState(None, false, false)

  class LiveSession {
    var state: SessionState
    var closed: bool
    /** What its socket keeps beside it: the last state saved. */
    var saved: SessionState

    constructor (state: SessionState)
      ensures this.state == state && !closed && saved == state
    {
      this.state, closed, saved := state, false, state;
    }

    /** Open, and bound to a DID with that short form. */
    predicate Under(key: Did)
      reads this
    {
      !closed && state.did.Some? && Canonical(state.did.value) == key
    }
  }

  class Registry {
    var byDid: map<Did, set<LiveSession>>
    /** Every session it made. */
    ghost var made: set<LiveSession>

    constructor ()
      ensures Valid() && made == {} && byDid == map[]
    {
      byDid, made := map[], {};
    }

    /** A session is indexed under a key iff it is open and the DID it proved has that short form; no empty set is kept. */
    ghost predicate Indexed()
      reads this, made
    {
      && (forall key :: key in byDid ==> byDid[key] != {} && byDid[key] <= made)
      && (forall key, s :: key in byDid && s in byDid[key] ==> s.Under(key))
      && (forall s :: s in made && !s.closed && s.state.did.Some? ==> Canonical(s.state.did.value) in byDid && s in byDid[Canonical(s.state.did.value)])
    }

    /** While it is open, what a session's socket keeps is what it holds. */
    ghost predicate Saved()
      reads this, made
    {
      forall s :: s in made && !s.closed ==> s.saved == s.state
    }

    ghost predicate Valid()
      reads this, made
    {
      Indexed() && Saved()
    }

    /** Puts the session under its DID's short form. */
    method Join(session: LiveSession, did: Did)
      requires Valid() && session in made && !session.closed && session.state.did.None?
      modifies this`byDid, session`state, session`saved
      ensures Valid()
      ensures session.state == old(session.state).(did := Some(did)) && session.saved == session.state
    {
      session.state := session.state.(did := Some(did));
      session.saved := session.state;
      var key := Canonical(did);
      var others := if key in byDid then byDid[key] else {};
      byDid := byDid[key := others + {session}];
    }

    /** A session over a socket just accepted, bound to nothing; or, given the state saved for one, the same session again. */
    method Open(saved: Option<SessionState>) returns (session: LiveSession)
      requires Valid()
      modifies this
      ensures Valid() && fresh(session) && made == old(made) + {session}
      ensures !session.closed && session.state == if saved.Some? then saved.value else FRESH
      ensures forall key, s :: s in old(made) ==> (key in byDid && s in byDid[key] <==> key in old(byDid) && s in old(byDid)[key])
    {
      var start := if saved.Some? then saved.value else FRESH;
      session := new LiveSession(start.(did := None));
      made := made + {session};
      if start.did.Some? {
        Join(session, start.did.value);
      }
    }

    /** The first DID proved on an open session is its DID; later ones change nothing. */
    method BindFirst(session: LiveSession, did: Did)
      requires Valid() && session in made
      modifies this`byDid, session`state, session`saved
      ensures Valid()
      ensures session.state == if old(session.state.did.Some? || session.closed) then old(session.state) else old(session.state).(did := Some(did))
    {
      if session.state.did.Some? || session.closed {
        return;
      }
      Join(session, did);
    }

    /** Its flags may change after its close, but then what was saved stays. */
    method SetFlags(session: LiveSession, liveDelivery: bool, returnRoute: bool)
      requires Valid() && session in made
      modifies session`state, session`saved
      ensures Valid()
      ensures session.state == old(session.state).(liveDelivery := liveDelivery, returnRoute := returnRoute)
      ensures session.closed ==> session.saved == old(session.saved)
    {
      session.state := session.state.(liveDelivery := liveDelivery, returnRoute := returnRoute);
      if !session.closed {
        session.saved := session.state;
      }
    }

    /** A closed session is under no key, and stays so. */
    method Close(session: LiveSession)
      requires Valid() && session in made
      modifies this`byDid, session`closed
      ensures Valid() && session.closed
      ensures forall key :: key in byDid ==> session !in byDid[key]
    {
      if session.closed {
        return;
      }
      session.closed := true;
      if session.state.did.None? {
        return;
      }
      var key := Canonical(session.state.did.value);
      if key in byDid {
        var left := byDid[key] - {session};
        assert forall s :: s in made && s != session && s.Under(key) ==> s in left;
        byDid := if left == {} then byDid - {key} else byDid[key := left];
      }
    }

    /** The sessions a push to the DID, in either spelling, reaches: exactly the open ones of its short form with live delivery on. */
    method LiveSessionsFor(did: Did) returns (r: set<LiveSession>)
      requires Valid()
      ensures forall s :: s in r <==> s in made && s.Under(Canonical(did)) && s.state.liveDelivery
    {
      var key := Canonical(did);
      r := if key in byDid then set s | s in byDid[key] && s.state.liveDelivery else {};
    }
  }

  /** What the index says of a session is what the session is. */
  lemma IndexedIffUnder(registry: Registry, s: LiveSession, key: Did)
    requires registry.Indexed() && s in registry.made
    ensures key in registry.byDid && s in registry.byDid[key] <==> s.Under(key)
  {
  }

  /** A key is kept iff some session is under it. */
  lemma KeyIffSome(registry: Registry, key: Did)
    requires registry.Indexed()
    ensures key in registry.byDid <==> exists s :: s in registry.made && s.Under(key)
  {
    if key in registry.byDid {
      var s :| s in registry.byDid[key];
      assert s in registry.made && s.Under(key);
    }
  }

  /** Each socket still open was reopened from what was saved beside it, and nothing else was. */
  ghost predicate Reopened(before: Registry, sockets: seq<LiveSession>, after: Registry, sessions: seq<LiveSession>)
    reads before, before.made, after, after.made, sockets, sessions
  {
    && |sockets| == |sessions|
    && (forall s :: s in before.made && !s.closed ==> s in sockets)
    && (forall s :: s in after.made ==> s in sessions)
    && (forall j :: 0 <= j < |sockets| ==> sockets[j] in before.made && !sockets[j].closed && sessions[j] in after.made)
    && (forall j :: 0 <= j < |sockets| ==> !sessions[j].closed && sessions[j].state == sockets[j].saved)
  }

  /** The registry a host rebuilds when it wakes: every socket reopened from what was saved beside it. */
  method Wake(saved: seq<SessionState>) returns (registry: Registry, sessions: seq<LiveSession>)
    ensures fresh(registry) && registry.Valid()
    ensures |sessions| == |saved| && (forall s :: s in registry.made <==> s in sessions)
    ensures forall i :: 0 <= i < |saved| ==> !sessions[i].closed && sessions[i].state == saved[i]
    ensures forall i, j :: 0 <= i < j < |sessions| ==> sessions[i] != sessions[j]
  {
    registry := new Registry();
    sessions := [];
    for k := 0 to |saved|
      invariant fresh(registry) && registry.Valid()
      invariant |sessions| == k && (forall s :: s in registry.made <==> s in sessions)
      invariant forall s :: s in sessions ==> fresh(s)
      invariant forall i :: 0 <= i < k ==> !sessions[i].closed && sessions[i].state == saved[i]
      invariant forall i, j :: 0 <= i < j < k ==> sessions[i] != sessions[j]
    {
      var session := registry.Open(Some(saved[k]));
      sessions := sessions + [session];
    }
  }

  lemma SameUnder(before: Registry, sockets: seq<LiveSession>, after: Registry, sessions: seq<LiveSession>, i: nat, key: Did)
    requires before.Saved() && Reopened(before, sockets, after, sessions) && i < |sockets|
    ensures sessions[i].state == sockets[i].state
    ensures sockets[i].Under(key) <==> sessions[i].Under(key)
  {
  }

  /**
   * Waking rebuilds the same index: of the sockets still open, each is under
   * a key after as it was before, and a push reaches those it reached.
   */
  lemma WakingRebuilds(before: Registry, sockets: seq<LiveSession>, after: Registry, sessions: seq<LiveSession>, i: nat, key: Did)
    requires before.Valid() && after.Valid()
    requires Reopened(before, sockets, after, sessions) && i < |sockets|
    ensures key in before.byDid && sockets[i] in before.byDid[key] <==> key in after.byDid && sessions[i] in after.byDid[key]
    ensures sessions[i].state == sockets[i].state
  {
    SameUnder(before, sockets, after, sessions, i, key);
    IndexedIffUnder(before, sockets[i], key);
    IndexedIffUnder(after, sessions[i], key);
  }

  /** And it keeps the same keys. */
  lemma WakingKeepsKeys(before: Registry, sockets: seq<LiveSession>, after: Registry, sessions: seq<LiveSession>, key: Did)
    requires before.Valid() && after.Valid()
    requires Reopened(before, sockets, after, sessions)
    ensures key in before.byDid <==> key in after.byDid
  {
    KeyIffSome(before, key);
    KeyIffSome(after, key);
    if s :| s in before.made && s.Under(key) {
      assert s in sockets;
      var j :| 0 <= j < |sockets| && sockets[j] == s;
      SameUnder(before, sockets, after, sessions, j, key);
    }
    if s :| s in after.made && s.Under(key) {
      assert s in sessions;
      var j :| 0 <= j < |sessions| && sessions[j] == s;
      SameUnder(before, sockets, after, sessions, j, key);
    }
  }

  /** A host that wakes with its open sockets: the registry it builds of what was saved beside them is the one it had. */
  method Rewake(ghost before: Registry, sockets: seq<LiveSession>) returns (registry: Registry, sessions: seq<LiveSession>)
    requires before.Valid()
    requires forall s :: s in before.made && !s.closed ==> s in sockets
    requires forall j :: 0 <= j < |sockets| ==> sockets[j] in before.made && !sockets[j].closed
    ensures fresh(registry) && registry.Valid() && Reopened(before, sockets, registry, sessions)
    ensures forall i, key :: 0 <= i < |sockets| ==> (key in before.byDid && sockets[i] in before.byDid[key] <==> key in registry.byDid && sessions[i] in registry.byDid[key])
    ensures forall key :: key in before.byDid <==> key in registry.byDid
  {
    var saved := seq(|sockets|, i requires 0 <= i < |sockets| reads sockets => sockets[i].saved);
    registry, sessions := Wake(saved);
    RewokenAlike(before, sockets, registry, sessions);
  }

  lemma RewokenAlike(before: Registry, sockets: seq<LiveSession>, after: Registry, sessions: seq<LiveSession>)
    requires before.Valid() && after.Valid() && Reopened(before, sockets, after, sessions)
    ensures forall i, key :: 0 <= i < |sockets| ==> (key in before.byDid && sockets[i] in before.byDid[key] <==> key in after.byDid && sessions[i] in after.byDid[key])
    ensures forall key :: key in before.byDid <==> key in after.byDid
  {
    forall i: nat, key | i < |sockets| ensures key in before.byDid && sockets[i] in before.byDid[key] <==> key in after.byDid && sessions[i] in after.byDid[key] {
      WakingRebuilds(before, sockets, after, sessions, i, key);
    }
    forall key ensures key in before.byDid <==> key in after.byDid {
      WakingKeepsKeys(before, sockets, after, sessions, key);
    }
  }
}
