/**
 * The gap in exclusivity: it is over the long form a row stored, not over
 * every long form of its DID. What may stand beside a row is an ordinary
 * account or recipient under another long form, and only one that was there
 * before the row.
 */
module Spellings {
  import opened Dids
  import opened Tables
  import opened StoreSpec
  import opened StoreRuns
  import opened StoreFrames
  import opened Exclusivity
  import opened Soundness

  /** Replica mediation binds the DID. */
  predicate Bound(db: Db, did: Did) {
    did in db.replicaAccounts || did in db.replicas || did in db.recipients
  }

  /** Ordinary mediation holds the DID as written. */
  predicate Held(db: Db, written: Did) {
    written in db.accounts || written in db.keylist
  }

  /** The long form the row of a bound DID stored. */
  function Stored(db: Db, did: Did): (r: Did)
    requires Bound(db, did)
  {
    if did in db.replicaAccounts then db.replicaAccounts[did].longForm
    else if did in db.replicas then db.replicas[did].longForm
    else db.recipients[did].longForm
  }

  /** In every run, what ordinary mediation holds of a bound DID is a long form other than the one its row stored. */
  lemma OnlyOtherLongForms(limits: Limits, worlds: seq<World>, calls: seq<Call>, n: nat, did: Did, written: Did)
    requires IsRun(limits, worlds, calls) && n < |worlds|
    requires Bound(worlds[n].db, did) && Held(worlds[n].db, written) && Canonical(written) == did
    ensures Spells(written, did) && Spells(Stored(worlds[n].db, did), did) && written != Stored(worlds[n].db, did)
  {
    hide IsRun, Sound, Exclusive, Spelled;
    RunsAreSound(limits, worlds, calls, n);
    BoundIn(limits, worlds[n]);
    OtherIn(worlds[n].db, did, written);
  }

  lemma BoundIn(limits: Limits, w: World)
    requires Sound(limits, w)
    ensures DidsBound(w.db)
  {
  }

  lemma OtherIn(db: Db, did: Did, written: Did)
    requires DidsBound(db) && Bound(db, did) && Held(db, written) && Canonical(written) == did
    ensures Spells(written, did) && Spells(Stored(db, did), did) && written != Stored(db, did)
  {
  }

  // ---- which comes first ----

  lemma RefusedByOrdinary(limits: Limits, db: Db, op: OrdinaryOp, now: Time, did: Did, written: Did)
    requires Bound(db, did) && Canonical(written) == did && !Held(db, written)
    ensures !Held(OrdinaryStep(limits, db, op, now), written)
  {
    hide UploadsWithout, MessagesWithout, BlobsOf, StoreOutcomeOf, Named;
  }

  /** Once the row is there, no grant and no added recipient brings a spelling of its DID in. */
  lemma RefusedOnceBound(limits: Limits, db: Db, op: Op, now: Time, did: Did, written: Did)
    requires Usable(db, op) && Bound(db, did) && Canonical(written) == did && !Held(db, written)
    ensures !Held(Step(limits, db, op, now), written)
  {
    hide OrdinaryStep, MembershipStep, MailStep, ExecutionStep, BlobStep, Bound;
    match op
    case Ordinary(o) => RefusedByOrdinary(limits, db, o, now, did, written);
    case Membership(m) => MembershipFrame(limits, db, m, now);
    case Mail(m) => MailFrame(limits, db, m, now);
    case Executions(e) => ExecutionFrame(limits, db, e, now);
    case Blobs(b) => BlobFrame(limits, db, b, now);
  }

  /** No call brings in both. */
  lemma NotBothAtOnce(limits: Limits, db: Db, op: Op, now: Time, did: Did, written: Did)
    requires Usable(db, op) && !Held(db, written) && !Bound(db, did)
    ensures !(Held(Step(limits, db, op, now), written) && Bound(Step(limits, db, op, now), did))
  {
    hide OrdinaryStep, MembershipStep, MailStep, ExecutionStep, BlobStep;
    match op
    case Ordinary(o) => OrdinaryFrame(limits, db, o, now);
    case Membership(m) => MembershipFrame(limits, db, m, now);
    case Mail(m) => MailFrame(limits, db, m, now);
    case Executions(e) => ExecutionFrame(limits, db, e, now);
    case Blobs(b) => BlobFrame(limits, db, b, now);
  }

  /** Held at the state and at every one from there to the last. */
  ghost predicate HeldFrom(worlds: seq<World>, k: nat, n: nat, written: Did) {
    k <= n < |worlds| && forall j :: k <= j <= n ==> Held(worlds[j].db, written)
  }

  /** In every run, where both stand the ordinary one came first: held at a state that does not bind the DID, and ever since. */
  lemma {:induction false} OrdinaryCameFirst(limits: Limits, worlds: seq<World>, calls: seq<Call>, n: nat, did: Did, written: Did)
    requires IsRun(limits, worlds, calls) && n < |worlds|
    requires Bound(worlds[n].db, did) && Held(worlds[n].db, written) && Canonical(written) == did
    ensures exists k :: 0 <= k < n && HeldFrom(worlds, k, n, written) && !Bound(worlds[k].db, did)
  {
    hide Step, Recorded, Usable, NewIds, Bound, Held;
    if n == 0 {
      NothingAtFirst(did);
    } else {
      var w, call := worlds[n - 1], calls[n - 1];
      assert Follows(limits, w, call, worlds[n]);
      if !Held(w.db, written) {
        if Bound(w.db, did) {
          RefusedOnceBound(limits, w.db, call.op, call.now, did, written);
        } else {
          NotBothAtOnce(limits, w.db, call.op, call.now, did, written);
        }
      } else if Bound(w.db, did) {
        OrdinaryCameFirst(limits, worlds, calls, n - 1, did, written);
        var k :| 0 <= k < n - 1 && HeldFrom(worlds, k, n - 1, written) && !Bound(worlds[k].db, did);
        assert HeldFrom(worlds, k, n, written);
      } else {
        assert HeldFrom(worlds, n - 1, n, written);
      }
    }
  }

  lemma NothingAtFirst(did: Did)
    ensures !Bound(INITIAL.db, did)
  {
  }

  // ---- a run in which both stand ----

  const LIMITS := Limits(1, 1, 1, 1, 1, 1, 1, 1, 1)
  const ACCOUNT := Short(1)
  const MEDIATOR := Other(0)
  const REPLICA := Short(2)
  const STORED := Long(2, 0)
  const OTHER := Long(2, 9)

  const GRANTED := EMPTY.(accounts := map[OTHER := 0])
  const REGISTERED := GRANTED.(replicaAccounts := map[ACCOUNT := Account(MEDIATOR, Long(1, 0), 0, 10)])
  const ENROLLED := REGISTERED.(replicas := map[REPLICA := Replica(ACCOUNT, 1, STORED, 0, 0, None)])

  const CALLS := [
    Call(Ordinary(Grant(OTHER)), 0),
    Call(Membership(Register(ACCOUNT, Long(1, 0), MEDIATOR, true, 10)), 0),
    Call(Membership(Enroll(ACCOUNT, MEDIATOR, REPLICA, STORED, 0)), 0)]

  const NOTHING := History({}, {}, [], [])

  const WORLDS := [INITIAL, World(GRANTED, 0, {}, NOTHING), World(REGISTERED, 0, {10}, NOTHING), World(ENROLLED, 0, {10}, NOTHING)]

  lemma Grants()
    ensures Follows(LIMITS, WORLDS[0], CALLS[0], WORLDS[1])
  {
  }

  lemma Registers()
    ensures Follows(LIMITS, WORLDS[1], CALLS[1], WORLDS[2])
  {
  }

  lemma MayEnrollHere()
    ensures MayEnroll(LIMITS, REGISTERED, ACCOUNT, MEDIATOR, REPLICA, STORED)
  {
    assert ActiveMembers(REGISTERED.replicas, ACCOUNT) == {};
  }

  lemma EnrollsHere()
    ensures AddReplica(LIMITS, REGISTERED, ACCOUNT, MEDIATOR, REPLICA, STORED, 0, 0) == ENROLLED
  {
    hide MayEnroll;
    MayEnrollHere();
    assert Ordinals(REGISTERED.replicas, ACCOUNT) == map[];
  }

  lemma Enrolls()
    ensures Follows(LIMITS, WORLDS[2], CALLS[2], WORLDS[3])
  {
    hide AddReplica;
    EnrollsHere();
  }

  /** Granted under one long form, an account stands beside a replica enrolled under another of the same DID. */
  lemma OtherLongFormEscapes()
    ensures IsRun(LIMITS, WORLDS, CALLS)
    ensures Bound(WORLDS[3].db, REPLICA) && Held(WORLDS[3].db, OTHER) && Canonical(OTHER) == REPLICA
  {
    hide Follows;
    Grants();
    Registers();
    Enrolls();
    forall i | 0 <= i < |CALLS| ensures Follows(LIMITS, WORLDS[i], CALLS[i], WORLDS[i + 1]) {
      assert i == 0 || i == 1 || i == 2;
    }
  }
}
