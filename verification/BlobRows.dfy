/** Blob rows: who owns them, and where an id goes when its row does. */
module BlobRows {
  import opened Dids
  import opened Tables
  import opened StoreSpec
  import opened StoreRuns
  import opened StoreFrames

  /** Whoever owns a blob has an ordinary account or is enrolled and not removed. */
  ghost predicate Owned(accounts: map<Did, Time>, replicas: map<Did, Replica>, blobs: map<Id, Blob>) {
    forall b :: b in blobs ==> HoldsBlobs(accounts, replicas, blobs[b].owner)
  }

  ghost predicate OnePerHash(blobs: map<Id, Blob>) {
    forall a, b :: (a in blobs && b in blobs && blobs[a].owner == blobs[b].owner && blobs[a].hash == blobs[b].hash) ==> a == b
  }

  /** The owner's blob of a hash is one id at most. */
  lemma NamedOnce(blobs: map<Id, Blob>, owner: Did, hash: Text, b: Id)
    requires OnePerHash(blobs) && b in BlobNamed(blobs, owner, hash)
    ensures BlobNamed(blobs, owner, hash) == {b}
  {
  }

  // ---- owners ----

  lemma OwnedWithFewer(accounts: map<Did, Time>, replicas: map<Did, Replica>, blobs: map<Id, Blob>, gone: set<Id>)
    requires Owned(accounts, replicas, blobs)
    ensures Owned(accounts, replicas, blobs - gone)
  {
  }

  /** Owners that lose their standing lose their blobs with it. */
  lemma OwnedWithOwners(accounts: map<Did, Time>, replicas: map<Did, Replica>, blobs: map<Id, Blob>,
                        accounts': map<Did, Time>, replicas': map<Did, Replica>, gone: set<Id>)
    requires Owned(accounts, replicas, blobs)
    requires forall b :: b in blobs && b !in gone && HoldsBlobs(accounts, replicas, blobs[b].owner) ==> HoldsBlobs(accounts', replicas', blobs[b].owner)
    ensures Owned(accounts', replicas', blobs - gone)
  {
  }

  lemma OwnedAfterKeep(limits: Limits, db: Db, keep: Keep, now: Time)
    requires Owned(db.accounts, db.replicas, db.blobs)
    ensures Owned(db.accounts, db.replicas, KeptBlobs(limits, db, keep, now))
  {
    hide HoldsBlobs, HasBlobRoom, BlobNamed;
  }

  lemma OwnedAfterMark(accounts: map<Did, Time>, replicas: map<Did, Replica>, blobs: map<Id, Blob>, id: Id, now: Time)
    requires Owned(accounts, replicas, blobs)
    ensures Owned(accounts, replicas, MarkedBlobs(blobs, id, now))
  {
  }

  lemma OwnedAfterOrdinary(limits: Limits, db: Db, op: OrdinaryOp, now: Time)
    requires Owned(db.accounts, db.replicas, db.blobs)
    ensures var r := OrdinaryStep(limits, db, op, now); Owned(r.accounts, r.replicas, r.blobs)
  {
    hide Owned, AddRecipient, RemoveRecipient, StoreMessage, DeleteMessages, KeysWithout, MessagesWithout, UploadsWithout, NotReplicaMediation;
    match op
    case Grant(did) =>
      assert db.blobs - {} == db.blobs;
      OwnedWithOwners(db.accounts, db.replicas, db.blobs, db.accounts[did := now], db.replicas, {});
    case Revoke(did) => OwnedWithOwners(db.accounts, db.replicas, db.blobs, db.accounts - {did}, db.replicas, BlobsOf(db.blobs, did));
    case _ =>
  }

  lemma OwnedAfterRemoval(db: Db, account: Did, mediator: Did, replica: Did, now: Time)
    requires Owned(db.accounts, db.replicas, db.blobs)
    ensures var r := RemoveReplica(db, account, mediator, replica, now); Owned(r.accounts, r.replicas, r.blobs)
  {
    hide Owned, LastAmong, UploadsWithout;
    OwnedWithOwners(db.accounts, db.replicas, db.blobs, db.accounts, RemoveReplica(db, account, mediator, replica, now).replicas, BlobsOf(db.blobs, replica));
  }

  lemma OwnedAfterDeletion(db: Db, account: Did, mediator: Did)
    requires Owned(db.accounts, db.replicas, db.blobs)
    ensures var r := DeleteReplicaAccount(db, account, mediator); Owned(r.accounts, r.replicas, r.blobs)
  {
    hide Owned, DeliveriesWithout, UploadsWithout, SlotsWithout, Members;
    var members := Members(db.replicas, account);
    OwnedWithOwners(db.accounts, db.replicas, db.blobs, db.accounts, db.replicas - members, BlobsOfAny(db.blobs, members));
  }

  lemma OwnedAfterMembership(limits: Limits, db: Db, op: MembershipOp, now: Time)
    requires Owned(db.accounts, db.replicas, db.blobs)
    ensures var r := MembershipStep(limits, db, op, now); Owned(r.accounts, r.replicas, r.blobs)
  {
    hide Owned, RegisterReplicaAccount, AddSharedRecipient, RemoveSharedRecipient, RemoveReplica, DeleteReplicaAccount, NotOrdinary, Ordinals, ActiveMembers;
    match op
    case DeleteAccount(account, mediator) => OwnedAfterDeletion(db, account, mediator);
    case RemoveMember(account, mediator, replica) => OwnedAfterRemoval(db, account, mediator, replica, now);
    case Enroll(account, mediator, replica, longForm, grant) =>
      assert db.blobs - {} == db.blobs;
      OwnedWithOwners(db.accounts, db.replicas, db.blobs, db.accounts, AddReplica(limits, db, account, mediator, replica, longForm, grant, now).replicas, {});
    case _ =>
  }

  lemma OwnedAfterBlobs(limits: Limits, db: Db, op: BlobOp, now: Time)
    requires Owned(db.accounts, db.replicas, db.blobs)
    ensures Owned(db.accounts, db.replicas, BlobStep(limits, db, op, now).blobs)
  {
    hide Owned, KeptBlobs, MarkedBlobs, GrantUpload, ClaimUpload, UploadsWithout, LiveUploads, BlobNamed, LapsedBlobs;
    match op
    case KeepOne(keep) => OwnedAfterKeep(limits, db, keep, now);
    case DropOne(owner, hash) => OwnedWithFewer(db.accounts, db.replicas, db.blobs, BlobNamed(db.blobs, owner, hash));
    case Mark(blob) => OwnedAfterMark(db.accounts, db.replicas, db.blobs, blob, now);
    case PurgeBlobRows => OwnedWithFewer(db.accounts, db.replicas, db.blobs, LapsedBlobs(db.blobs, now));
    case _ =>
  }

  lemma OwnedKept(limits: Limits, db: Db, op: Op, now: Time)
    requires Usable(db, op)
    requires Owned(db.accounts, db.replicas, db.blobs)
    ensures var r := Step(limits, db, op, now); Owned(r.accounts, r.replicas, r.blobs)
  {
    hide Owned, OrdinaryStep, MembershipStep, MailStep, ExecutionStep, BlobStep;
    match op
    case Ordinary(o) => OwnedAfterOrdinary(limits, db, o, now);
    case Membership(m) => OwnedAfterMembership(limits, db, m, now);
    case Mail(m) => MailFrame(limits, db, m, now);
    case Executions(e) => ExecutionFrame(limits, db, e, now);
    case Blobs(b) =>
      BlobFrame(limits, db, b, now);
      OwnedAfterBlobs(limits, db, b, now);
  }

  // ---- one blob for each hash ----

  lemma OnePerHashOf(blobs: map<Id, Blob>, blobs': map<Id, Blob>)
    requires OnePerHash(blobs)
    requires forall b :: b in blobs' ==> b in blobs && blobs'[b].owner == blobs[b].owner && blobs'[b].hash == blobs[b].hash
    ensures OnePerHash(blobs')
  {
  }

  lemma OnePerHashAfterKeep(limits: Limits, db: Db, keep: Keep, now: Time)
    requires OnePerHash(db.blobs)
    ensures OnePerHash(KeptBlobs(limits, db, keep, now))
  {
    hide MayKeep, OnePerHash;
    var held := BlobNamed(db.blobs, keep.owner, keep.hash);
    if held == {} {
      OnePerHashWithNew(db.blobs, keep.id, Blob(keep.owner, keep.hash, keep.size, now, None, keep.retainUntil));
    } else {
      OnePerHashOf(db.blobs, RenewedBlobs(db.blobs, held, keep.retainUntil));
    }
  }

  lemma OnePerHashWithNew(blobs: map<Id, Blob>, id: Id, row: Blob)
    requires OnePerHash(blobs) && BlobNamed(blobs, row.owner, row.hash) == {}
    ensures OnePerHash(blobs[id := row])
  {
    assert forall b :: b in blobs && blobs[b].owner == row.owner && blobs[b].hash == row.hash ==> b in BlobNamed(blobs, row.owner, row.hash);
  }

  lemma OnePerHashWithFewer(blobs: map<Id, Blob>, gone: set<Id>)
    requires OnePerHash(blobs)
    ensures OnePerHash(blobs - gone)
  {
  }

  lemma OnePerHashKept(limits: Limits, db: Db, op: Op, now: Time)
    requires Usable(db, op)
    requires OnePerHash(db.blobs)
    ensures OnePerHash(Step(limits, db, op, now).blobs)
  {
    hide OnePerHash, OrdinaryStep, MembershipStep, MailStep, ExecutionStep, BlobStep;
    var r := Step(limits, db, op, now);
    match op
    case Ordinary(o) => EndedByOrdinary(limits, db, o, now); OnePerHashWithFewer(db.blobs, EndedBy(db, r));
    case Membership(m) => EndedByMembership(limits, db, m, now); OnePerHashWithFewer(db.blobs, EndedBy(db, r));
    case Mail(m) => MailFrame(limits, db, m, now);
    case Executions(e) => ExecutionFrame(limits, db, e, now);
    case Blobs(b) => OnePerHashAfterBlobs(limits, db, b, now);
  }

  lemma OnePerHashAfterBlobs(limits: Limits, db: Db, op: BlobOp, now: Time)
    requires OnePerHash(db.blobs)
    ensures OnePerHash(BlobStep(limits, db, op, now).blobs)
  {
    hide OnePerHash, KeptBlobs, GrantUpload, ClaimUpload, UploadsWithout, LiveUploads, BlobNamed, LapsedBlobs;
    match op
    case KeepOne(keep) => OnePerHashAfterKeep(limits, db, keep, now);
    case DropOne(owner, hash) => OnePerHashWithFewer(db.blobs, BlobNamed(db.blobs, owner, hash));
    case Mark(blob) => OnePerHashOf(db.blobs, MarkedBlobs(db.blobs, blob, now));
    case PurgeBlobRows => OnePerHashWithFewer(db.blobs, LapsedBlobs(db.blobs, now));
    case _ =>
  }

  // ---- where an id goes ----

  /** The ids that left the table. */
  function EndedBy(db: Db, after: Db): (r: set<Id>) {
    db.blobs.Keys - after.blobs.Keys
  }

  /** An ending moves ids from the table to the ended ones, dropping none. */
  ghost predicate Moves(db: Db, after: Db) {
    && after.blobs == db.blobs - EndedBy(db, after)
    && after.ended == db.ended + EndedBy(db, after)
  }

  lemma MovesSome(db: Db, after: Db, held: set<Id>)
    requires held <= db.blobs.Keys
    requires after.blobs == db.blobs - held && after.ended == db.ended + held
    ensures Moves(db, after)
  {
    assert EndedBy(db, after) == held;
  }

  lemma MovesNone(db: Db, after: Db)
    requires after.blobs == db.blobs && after.ended == db.ended
    ensures Moves(db, after)
  {
    assert EndedBy(db, after) == {};
  }

  lemma EndedByOrdinary(limits: Limits, db: Db, op: OrdinaryOp, now: Time)
    ensures Moves(db, OrdinaryStep(limits, db, op, now))
  {
    hide Moves, GrantMediation, AddRecipient, RemoveRecipient, StoreMessage, DeleteMessages, KeysWithout, MessagesWithout, UploadsWithout;
    var r := OrdinaryStep(limits, db, op, now);
    if op.Revoke? && op.did in db.accounts {
      MovesSome(db, r, BlobsOf(db.blobs, op.did));
    } else {
      MovesNone(db, r);
    }
  }

  lemma EndedByMembership(limits: Limits, db: Db, op: MembershipOp, now: Time)
    ensures Moves(db, MembershipStep(limits, db, op, now))
  {
    hide Moves, RegisterReplicaAccount, AddReplica, AddSharedRecipient, RemoveSharedRecipient, LastAmong, DeliveriesWithout, UploadsWithout, SlotsWithout,
      Members, PackagesOf, ExecutionsOf, RecipientsOf, IsAccount, DeliveriesTo;
    var r := MembershipStep(limits, db, op, now);
    if op.RemoveMember? && IsMember(db, op.account, op.mediator, op.replica) {
      MovesSome(db, r, BlobsOf(db.blobs, op.replica));
    } else if op.DeleteAccount? && IsAccount(db, op.account, op.mediator) {
      MovesSome(db, r, BlobsOfAny(db.blobs, Members(db.replicas, op.account)));
    } else {
      MovesNone(db, r);
    }
  }

  /** Every id handed back so far. */
  function HandedBack(handed: seq<set<Id>>): (r: set<Id>) {
    set i, b | 0 <= i < |handed| && b in handed[i] :: b
  }

  /** No id is handed back twice. */
  ghost predicate HandedOnce(handed: seq<set<Id>>) {
    forall i, j :: 0 <= i < j < |handed| ==> handed[i] !! handed[j]
  }

  /** Every id ever made is in exactly one place: the table, the ended ids, or the ones handed back, each of those once. */
  ghost predicate Conserved(made: set<Id>, blobs: set<Id>, ended: set<Id>, handed: seq<set<Id>>) {
    && made == blobs + ended + HandedBack(handed)
    && blobs !! ended
    && blobs !! HandedBack(handed)
    && ended !! HandedBack(handed)
    && HandedOnce(handed)
  }

  lemma ConservedMoving(made: set<Id>, blobs: set<Id>, ended: set<Id>, handed: seq<set<Id>>, gone: set<Id>)
    requires Conserved(made, blobs, ended, handed) && gone <= blobs
    ensures Conserved(made, blobs - gone, ended + gone, handed)
  {
    hide HandedBack, HandedOnce;
  }

  lemma HandedBackExtends(handed: seq<set<Id>>, batch: set<Id>)
    ensures HandedBack(handed + [batch]) == HandedBack(handed) + batch
  {
    var more := handed + [batch];
    assert forall i :: 0 <= i < |handed| ==> more[i] == handed[i];
    forall b | b in HandedBack(handed) + batch ensures b in HandedBack(more) {
      if b in batch {
        assert b in more[|handed|];
      } else {
        var i :| 0 <= i < |handed| && b in handed[i];
        assert b in more[i];
      }
    }
  }

  lemma HandedOnceExtends(handed: seq<set<Id>>, batch: set<Id>)
    requires HandedOnce(handed) && batch !! HandedBack(handed)
    ensures HandedOnce(handed + [batch])
  {
    assert forall i, b :: 0 <= i < |handed| && b in handed[i] ==> b in HandedBack(handed);
  }

  lemma ConservedHanding(made: set<Id>, blobs: set<Id>, ended: set<Id>, handed: seq<set<Id>>, fromTable: set<Id>, fromEnded: set<Id>)
    requires Conserved(made, blobs, ended, handed) && fromTable <= blobs && fromEnded <= ended
    ensures Conserved(made, blobs - fromTable, ended - fromEnded, handed + [fromTable + fromEnded])
  {
    hide HandedBack, HandedOnce;
    HandedBackExtends(handed, fromTable + fromEnded);
    HandedOnceExtends(handed, fromTable + fromEnded);
  }

  lemma ConservedMaking(made: set<Id>, blobs: set<Id>, ended: set<Id>, handed: seq<set<Id>>, id: Id)
    requires Conserved(made, blobs, ended, handed) && id !in made
    ensures Conserved(made + {id}, blobs + {id}, ended, handed)
  {
    hide HandedBack, HandedOnce;
  }

  ghost predicate ConservedIn(db: Db, history: History) {
    Conserved(history.blobsMade, db.blobs.Keys, db.ended, history.handedBack)
  }

  lemma KeysAfterKeep(limits: Limits, db: Db, keep: Keep, now: Time)
    ensures var kept := KeptBlobs(limits, db, keep, now);
      kept.Keys == if keep.id in kept then db.blobs.Keys + {keep.id} else db.blobs.Keys
  {
    hide MayKeep, BlobNamed;
  }

  lemma ConservedAfterKeep(limits: Limits, db: Db, history: History, keep: Keep, now: Time)
    requires ConservedIn(db, history) && keep.id !in history.blobsMade
    ensures var op := Blobs(KeepOne(keep)); ConservedIn(Step(limits, db, op, now), Recorded(limits, db, history, op, now))
  {
    hide KeptBlobs, Conserved;
    BlobsAreMade(db, history);
    KeysAfterKeep(limits, db, keep, now);
    ConservedMaking(history.blobsMade, db.blobs.Keys, db.ended, history.handedBack, keep.id);
  }

  lemma BlobsAreMade(db: Db, history: History)
    requires ConservedIn(db, history)
    ensures db.blobs.Keys <= history.blobsMade
  {
  }

  lemma ConservedAfterBlobs(limits: Limits, db: Db, history: History, op: BlobOp, now: Time)
    requires ConservedIn(db, history) && NewIds(Blobs(op)) !! history.blobsMade
    ensures ConservedIn(Step(limits, db, Blobs(op), now), Recorded(limits, db, history, Blobs(op), now))
  {
    hide Conserved, KeptBlobs, UploadsWithout, LiveUploads;
    match op
    case KeepOne(keep) =>
      assert keep.id in NewIds(Blobs(op));
      ConservedAfterKeep(limits, db, history, keep, now);
    case DropOne(owner, hash) =>
      var named := BlobNamed(db.blobs, owner, hash);
      ConservedHanding(history.blobsMade, db.blobs.Keys, db.ended, history.handedBack, named, {});
      assert named + {} == named && db.ended - {} == db.ended;
      assert (db.blobs - named).Keys == db.blobs.Keys - named;
    case PurgeBlobRows =>
      var lapsed := LapsedBlobs(db.blobs, now);
      ConservedHanding(history.blobsMade, db.blobs.Keys, db.ended, history.handedBack, lapsed, db.ended);
      assert db.ended - db.ended == {};
      assert (db.blobs - lapsed).Keys == db.blobs.Keys - lapsed;
    case Mark(blob) => assert MarkedBlobs(db.blobs, blob, now).Keys == db.blobs.Keys;
    case _ =>
  }

  lemma ConservedKept(limits: Limits, db: Db, history: History, op: Op, now: Time)
    requires Usable(db, op)
    requires ConservedIn(db, history) && NewIds(op) !! history.blobsMade
    ensures ConservedIn(Step(limits, db, op, now), Recorded(limits, db, history, op, now))
  {
    hide Conserved, OrdinaryStep, MembershipStep, MailStep, ExecutionStep, BlobStep;
    var r := Step(limits, db, op, now);
    match op
    case Ordinary(o) =>
      EndedByOrdinary(limits, db, o, now);
      ConservedMoving(history.blobsMade, db.blobs.Keys, db.ended, history.handedBack, EndedBy(db, r));
      assert r.blobs.Keys == db.blobs.Keys - EndedBy(db, r);
    case Membership(m) =>
      EndedByMembership(limits, db, m, now);
      ConservedMoving(history.blobsMade, db.blobs.Keys, db.ended, history.handedBack, EndedBy(db, r));
      assert r.blobs.Keys == db.blobs.Keys - EndedBy(db, r);
    case Mail(m) => MailFrame(limits, db, m, now);
    case Executions(e) => ExecutionFrame(limits, db, e, now);
    case Blobs(b) => ConservedAfterBlobs(limits, db, history, b, now);
  }

  // ---- upload tokens ----

  /** No token is claimed twice, and a claimed one is gone. */
  ghost predicate ClaimedOnce(uploads: map<Id, Upload>, claimed: seq<Id>) {
    && (forall i, j :: 0 <= i < j < |claimed| ==> claimed[i] != claimed[j])
    && (forall i :: 0 <= i < |claimed| ==> claimed[i] !in uploads)
  }

  lemma ClaimedOnceWithFewer(uploads: map<Id, Upload>, uploads': map<Id, Upload>, claimed: seq<Id>)
    requires ClaimedOnce(uploads, claimed) && uploads'.Keys <= uploads.Keys
    ensures ClaimedOnce(uploads', claimed)
  {
  }

  lemma ClaimedOnceAfterBlobs(limits: Limits, db: Db, history: History, op: BlobOp, now: Time)
    requires ClaimedOnce(db.uploads, history.claimed)
    requires forall t :: t in history.claimed ==> t !in NewIds(Blobs(op))
    ensures ClaimedOnce(BlobStep(limits, db, op, now).uploads, Recorded(limits, db, history, Blobs(op), now).claimed)
  {
    hide KeptBlobs, MarkedBlobs, BlobNamed, LapsedBlobs;
    match op
    case Token(blob, expiresAt, id) => assert id in NewIds(Blobs(op));
    case _ =>
  }

  lemma FewerTokens(limits: Limits, db: Db, op: Op, now: Time)
    requires Usable(db, op) && !op.Blobs?
    ensures Step(limits, db, op, now).uploads.Keys <= db.uploads.Keys
  {
    hide OrdinaryStep, MembershipStep, MailStep, ExecutionStep;
    match op
    case Ordinary(o) => FewerTokensOrdinary(limits, db, o, now);
    case Membership(m) => FewerTokensMembership(limits, db, m, now);
    case Mail(m) => MailFrame(limits, db, m, now);
    case Executions(e) => ExecutionFrame(limits, db, e, now);
  }

  lemma FewerTokensOrdinary(limits: Limits, db: Db, op: OrdinaryOp, now: Time)
    ensures OrdinaryStep(limits, db, op, now).uploads.Keys <= db.uploads.Keys
  {
    hide GrantMediation, AddRecipient, RemoveRecipient, StoreMessage, DeleteMessages, KeysWithout, MessagesWithout, BlobsOf;
  }

  lemma FewerTokensMembership(limits: Limits, db: Db, op: MembershipOp, now: Time)
    ensures MembershipStep(limits, db, op, now).uploads.Keys <= db.uploads.Keys
  {
    hide RegisterReplicaAccount, AddReplica, AddSharedRecipient, RemoveSharedRecipient, LastAmong, DeliveriesWithout, SlotsWithout, BlobsOf, Members, PackagesOf, IsAccount;
  }

  lemma ClaimedOnceKept(limits: Limits, db: Db, history: History, op: Op, now: Time)
    requires Usable(db, op)
    requires ClaimedOnce(db.uploads, history.claimed)
    requires forall t :: t in history.claimed ==> t !in NewIds(op)
    ensures ClaimedOnce(Step(limits, db, op, now).uploads, Recorded(limits, db, history, op, now).claimed)
  {
    hide ClaimedOnce, OrdinaryStep, MembershipStep, MailStep, ExecutionStep, BlobStep;
    if op.Blobs? {
      ClaimedOnceAfterBlobs(limits, db, history, op.blob, now);
    } else {
      FewerTokens(limits, db, op, now);
      ClaimedOnceWithFewer(db.uploads, Step(limits, db, op, now).uploads, history.claimed);
    }
  }
}
