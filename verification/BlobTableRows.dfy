/**
 * Blobs, ended ids and upload tokens, told by their rows: when a blob is kept
 * and until when, and when a row of either table comes or goes.
 */
module BlobTableRows {
  import opened Dids
  import opened Tables
  import opened Sums
  import opened StoreSpec
  import opened StoreRuns
  import opened StoreFrames
  import opened Exclusivity
  import opened BlobRows
  import opened Links
  import opened Soundness
  import opened Rows

  /** The DID has an ordinary account, or is a replica that is not removed. */
  predicate MayOwn(db: Db, did: Did) {
    did in db.accounts || (did in db.replicas && db.replicas[did].removedAt.None?)
  }

  predicate IsBlob(db: Db, b: Id, owner: Did, hash: Text) {
    b in db.blobs && db.blobs[b].owner == owner && db.blobs[b].hash == hash
  }

  /** The owner's blobs still retained, each with its size. */
  ghost predicate AreRetained(db: Db, owner: Did, now: Time, sizes: map<Id, nat>) {
    && (forall b :: b in sizes <==> b in db.blobs && db.blobs[b].owner == owner && now < db.blobs[b].retainUntil)
    && (forall b :: b in sizes ==> sizes[b] == db.blobs[b].size)
  }

  /** Their bytes and these are within the quota. */
  ghost predicate FitsQuota(limits: Limits, db: Db, owner: Did, size: nat, now: Time) {
    exists sizes: map<Id, nat> :: AreRetained(db, owner, now, sizes) && Total(sizes) + size <= limits.quotaBytes
  }

  /** No blob of that owner and hash is of another size. */
  ghost predicate SizeAgrees(db: Db, keep: Keep) {
    forall b :: IsBlob(db, b, keep.owner, keep.hash) ==> db.blobs[b].size == keep.size
  }

  /** The owner may own blobs, the size agrees, and the blob is retained already or fits the quota. */
  ghost predicate IsKept(limits: Limits, db: Db, keep: Keep, now: Time) {
    && MayOwn(db, keep.owner) && SizeAgrees(db, keep)
    && ((exists b :: IsBlob(db, b, keep.owner, keep.hash) && now < db.blobs[b].retainUntil) || FitsQuota(limits, db, keep.owner, keep.size, now))
  }

  lemma LiveAreRetained(db: Db, owner: Did, now: Time)
    ensures AreRetained(db, owner, now, LiveBlobBytes(db.blobs, owner, now))
  {
  }

  lemma RetainedOnce(db: Db, owner: Did, now: Time, a: map<Id, nat>, b: map<Id, nat>)
    requires AreRetained(db, owner, now, a) && AreRetained(db, owner, now, b)
    ensures a == b
  {
  }

  lemma QuotaIsRoom(limits: Limits, db: Db, owner: Did, size: nat, now: Time)
    ensures FitsQuota(limits, db, owner, size, now) <==> HasBlobRoom(limits, db.blobs, owner, size, now)
  {
    hide AreRetained, Total, LiveBlobBytes;
    LiveAreRetained(db, owner, now);
    if FitsQuota(limits, db, owner, size, now) {
      var sizes: map<Id, nat> :| AreRetained(db, owner, now, sizes) && Total(sizes) + size <= limits.quotaBytes;
      RetainedOnce(db, owner, now, sizes, LiveBlobBytes(db.blobs, owner, now));
    }
  }

  lemma NamedAreBlobs(db: Db, owner: Did, hash: Text)
    ensures forall b :: b in BlobNamed(db.blobs, owner, hash) <==> IsBlob(db, b, owner, hash)
  {
  }

  lemma KeptIsMayKeep(limits: Limits, db: Db, keep: Keep, now: Time)
    ensures IsKept(limits, db, keep, now) <==> MayKeep(limits, db, keep, now)
  {
    hide FitsQuota, HasBlobRoom, BlobNamed, IsBlob;
    NamedAreBlobs(db, keep.owner, keep.hash);
    NamedAreHere(db, keep);
    QuotaIsRoom(limits, db, keep.owner, keep.size, now);
  }

  lemma NamedAreHere(db: Db, keep: Keep)
    ensures forall b :: IsBlob(db, b, keep.owner, keep.hash) ==> b in db.blobs
  {
  }

  // ---- blobs ----

  /** The call ends the owner: its account revoked, the replica removed, or deleted with its account. */
  predicate EndsOwner(db: Db, op: Op, owner: Did) {
    || (op == Ordinary(Revoke(owner)) && owner in db.accounts)
    || RemovesMember(db, op, owner)
    || (owner in db.replicas && Deletes(db, op, db.replicas[owner].account))
  }

  /** Kept again: the call asks for a blob of its owner and hash, and it is kept. */
  ghost predicate KeepsAgain(limits: Limits, db: Db, op: Op, now: Time, row: Blob) {
    op.Blobs? && op.blob.KeepOne? && op.blob.keep.owner == row.owner && op.blob.keep.hash == row.hash && IsKept(limits, db, op.blob.keep, now)
  }

  /** How a blob that stays changes: kept again it is retained to the later moment, uploaded it is marked once. */
  ghost predicate Stays(limits: Limits, db: Db, op: Op, now: Time, b: Id, row: Blob, after: Blob) {
    && after.owner == row.owner && after.hash == row.hash && after.size == row.size && after.createdAt == row.createdAt
    && after.uploadedAt == (if op == Blobs(Mark(b)) && row.uploadedAt.None? then Some(now) else row.uploadedAt)
    && row.retainUntil <= after.retainUntil
    && (if KeepsAgain(limits, db, op, now, row)
        then op.blob.keep.retainUntil <= after.retainUntil && (after.retainUntil == row.retainUntil || after.retainUntil == op.blob.keep.retainUntil)
        else after.retainUntil == row.retainUntil)
  }

  /** Made for an owner that keeps none of its hash; gone when its owner drops it, past its retention, or with its owner. */
  ghost predicate BlobRow(limits: Limits, db: Db, op: Op, now: Time, r: Db, b: Id) {
    if b in db.blobs then
      var row := db.blobs[b];
      && (b in r.blobs <==>
            op != Blobs(DropOne(row.owner, row.hash)) && !(op == Blobs(PurgeBlobRows) && row.retainUntil <= now) && !EndsOwner(db, op, row.owner))
      && (b in r.blobs ==> Stays(limits, db, op, now, b, row, r.blobs[b]))
    else
      && (b in r.blobs <==>
            && op.Blobs? && op.blob.KeepOne? && op.blob.keep.id == b && IsKept(limits, db, op.blob.keep, now)
            && forall c :: !IsBlob(db, c, op.blob.keep.owner, op.blob.keep.hash))
      && (b in r.blobs ==>
            r.blobs[b] == Blob(op.blob.keep.owner, op.blob.keep.hash, op.blob.keep.size, now, None, op.blob.keep.retainUntil))
  }

  lemma BlobsByKeep(limits: Limits, db: Db, keep: Keep, now: Time, b: Id)
    requires keep.id !in db.blobs
    ensures BlobRow(limits, db, Blobs(KeepOne(keep)), now, KeepBlob(limits, db, keep, now), b)
  {
    hide IsKept, MayKeep, BlobNamed, IsBlob;
    KeptIsMayKeep(limits, db, keep, now);
    NamedAreBlobs(db, keep.owner, keep.hash);
    NoneNamed(db, keep.owner, keep.hash);
    BlobIs(db, b, keep);
  }

  lemma NoneNamed(db: Db, owner: Did, hash: Text)
    ensures BlobNamed(db.blobs, owner, hash) == {} <==> forall b :: !IsBlob(db, b, owner, hash)
  {
    NamedAreBlobs(db, owner, hash);
  }

  lemma BlobIs(db: Db, b: Id, keep: Keep)
    ensures IsBlob(db, b, keep.owner, keep.hash) <==> b in db.blobs && db.blobs[b].owner == keep.owner && db.blobs[b].hash == keep.hash
  {
  }

  lemma BlobsByBlobs(limits: Limits, db: Db, op: BlobOp, now: Time, b: Id)
    requires op.KeepOne? ==> op.keep.id !in db.blobs
    ensures BlobRow(limits, db, Blobs(op), now, BlobStep(limits, db, op, now), b)
  {
    hide IsKept, KeepBlob, UploadsWithout, LiveUploads;
    if op.KeepOne? {
      BlobsByKeep(limits, db, op.keep, now, b);
    }
  }

  lemma BlobsAfterRevocation(db: Db, did: Did)
    ensures var r := RevokeMediation(db, did);
      && (forall b :: b in r.blobs <==> b in db.blobs && !(did in db.accounts && db.blobs[b].owner == did))
      && (forall b :: b in r.blobs ==> r.blobs[b] == db.blobs[b])
      && (forall b :: b in r.ended <==> b in db.ended || (did in db.accounts && b in db.blobs && db.blobs[b].owner == did))
  {
    hide KeysWithout, MessagesWithout, UploadsWithout;
  }

  lemma BlobsByOrdinary(limits: Limits, db: Db, op: OrdinaryOp, now: Time, b: Id)
    ensures BlobRow(limits, db, Ordinary(op), now, OrdinaryStep(limits, db, op, now), b)
  {
    hide IsKept, RevokeMediation, GrantMediation, AddRecipient, RemoveRecipient, StoreMessage, DeleteMessages;
    if op.Revoke? {
      BlobsAfterRevocation(db, op.did);
    }
  }

  lemma BlobsAfterRemoval(db: Db, account: Did, mediator: Did, replica: Did, now: Time)
    ensures BlobsLeft(db, Membership(RemoveMember(account, mediator, replica)), RemoveReplica(db, account, mediator, replica, now))
  {
    hide UploadsWithout, LastAmong, RowRemoved, DeliveriesTo;
  }

  lemma BlobsAfterAccount(db: Db, account: Did, mediator: Did)
    ensures BlobsLeft(db, Membership(DeleteAccount(account, mediator)), DeleteReplicaAccount(db, account, mediator))
  {
    hide DeliveriesWithout, UploadsWithout, SlotsWithout, PackagesOf, ExecutionsOf, RecipientsOf;
  }

  /** Gone and ended are those whose owner the call ends. */
  ghost predicate BlobsLeft(db: Db, op: Op, r: Db) {
    && (forall b :: b in r.blobs <==> b in db.blobs && !EndsOwner(db, op, db.blobs[b].owner))
    && (forall b :: b in r.blobs ==> r.blobs[b] == db.blobs[b])
    && (forall b :: b in r.ended <==> b in db.ended || (b in db.blobs && EndsOwner(db, op, db.blobs[b].owner)))
  }

  lemma BlobsByMembership(limits: Limits, db: Db, op: MembershipOp, now: Time, b: Id)
    ensures BlobRow(limits, db, Membership(op), now, MembershipStep(limits, db, op, now), b)
  {
    hide IsKept, RegisterReplicaAccount, AddReplica, AddSharedRecipient, RemoveSharedRecipient, RemoveReplica, DeleteReplicaAccount;
    match op
    case RemoveMember(account, mediator, replica) => BlobsAfterRemoval(db, account, mediator, replica, now);
    case DeleteAccount(account, mediator) => BlobsAfterAccount(db, account, mediator);
    case _ =>
  }

  lemma BlobRowsOf(limits: Limits, w: World, op: Op, now: Time, b: Id)
    requires Sound(limits, w) && Admissible(w, op, now)
    ensures BlobRow(limits, w.db, op, now, Step(limits, w.db, op, now), b)
  {
    hide Sound, OrdinaryStep, MembershipStep, MailStep, ExecutionStep, BlobStep, IsKept;
    SoundTables(limits, w);
    match op
    case Ordinary(o) => BlobsByOrdinary(limits, w.db, o, now, b);
    case Membership(m) => BlobsByMembership(limits, w.db, m, now, b);
    case Mail(m) => MailFrame(limits, w.db, m, now);
    case Executions(e) => ExecutionFrame(limits, w.db, e, now);
    case Blobs(x) =>
      assert x.KeepOne? ==> x.keep.id in NewIds(op);
      BlobsByBlobs(limits, w.db, x, now, b);
  }

  // ---- ended ids ----

  /** An id is ended with its owner, and till the next purge. */
  ghost predicate EndedRow(db: Db, op: Op, r: Db, b: Id) {
    b in r.ended <==> (b in db.ended && op != Blobs(PurgeBlobRows)) || (b in db.blobs && EndsOwner(db, op, db.blobs[b].owner))
  }

  lemma EndedRows(limits: Limits, w: World, op: Op, now: Time, b: Id)
    requires Admissible(w, op, now)
    ensures EndedRow(w.db, op, Step(limits, w.db, op, now), b)
  {
    hide OrdinaryStep, MembershipStep, MailStep, ExecutionStep, BlobStep;
    match op
    case Ordinary(o) => EndedByOrdinaryCall(limits, w.db, o, now, b);
    case Membership(m) => EndedByMembershipCall(limits, w.db, m, now, b);
    case Mail(m) => MailFrame(limits, w.db, m, now);
    case Executions(e) => ExecutionFrame(limits, w.db, e, now);
    case Blobs(x) => EndedByBlobs(limits, w.db, x, now, b);
  }

  lemma EndedByOrdinaryCall(limits: Limits, db: Db, op: OrdinaryOp, now: Time, b: Id)
    ensures EndedRow(db, Ordinary(op), OrdinaryStep(limits, db, op, now), b)
  {
    hide RevokeMediation, GrantMediation, AddRecipient, RemoveRecipient, StoreMessage, DeleteMessages;
    if op.Revoke? {
      BlobsAfterRevocation(db, op.did);
    }
  }

  lemma EndedByMembershipCall(limits: Limits, db: Db, op: MembershipOp, now: Time, b: Id)
    ensures EndedRow(db, Membership(op), MembershipStep(limits, db, op, now), b)
  {
    hide RegisterReplicaAccount, AddReplica, AddSharedRecipient, RemoveSharedRecipient, RemoveReplica, DeleteReplicaAccount;
    match op
    case RemoveMember(account, mediator, replica) => BlobsAfterRemoval(db, account, mediator, replica, now);
    case DeleteAccount(account, mediator) => BlobsAfterAccount(db, account, mediator);
    case _ =>
  }

  lemma EndedByBlobs(limits: Limits, db: Db, op: BlobOp, now: Time, b: Id)
    ensures EndedRow(db, Blobs(op), BlobStep(limits, db, op, now), b)
  {
    hide KeepBlob, UploadsWithout, LiveUploads, LapsedBlobs, BlobNamed;
  }

  // ---- upload tokens ----

  /** Granted for a blob that is there; gone once claimed, with its blob, or at a purge past its expiry. */
  ghost predicate UploadRow(db: Db, op: Op, now: Time, r: Db, t: Id) {
    if t in db.uploads then
      && (t in r.uploads <==> op != Blobs(Claim(t)) && !(op == Blobs(PurgeBlobRows) && db.uploads[t].expiresAt <= now) && db.uploads[t].blob in r.blobs)
      && (t in r.uploads ==> r.uploads[t] == db.uploads[t])
    else
      && (t in r.uploads <==> op.Blobs? && op.blob.Token? && op.blob.id == t && op.blob.blob in db.blobs)
      && (t in r.uploads ==> r.uploads[t] == Upload(op.blob.blob, op.blob.expiresAt))
  }

  lemma TokensNameBlobs(db: Db)
    requires Linked(db)
    ensures forall t :: t in db.uploads ==> db.uploads[t].blob in db.blobs
  {
  }

  lemma UploadsByOrdinary(limits: Limits, db: Db, op: OrdinaryOp, now: Time, t: Id)
    requires forall x :: x in db.uploads ==> db.uploads[x].blob in db.blobs
    ensures UploadRow(db, Ordinary(op), now, OrdinaryStep(limits, db, op, now), t)
  {
    hide GrantMediation, AddRecipient, RemoveRecipient, StoreMessage, DeleteMessages, KeysWithout, MessagesWithout, BlobsOf;
  }

  lemma UploadsByMembership(limits: Limits, db: Db, op: MembershipOp, now: Time, t: Id)
    requires forall x :: x in db.uploads ==> db.uploads[x].blob in db.blobs
    ensures UploadRow(db, Membership(op), now, MembershipStep(limits, db, op, now), t)
  {
    hide RegisterReplicaAccount, AddReplica, AddSharedRecipient, RemoveSharedRecipient, DeliveriesWithout, SlotsWithout, PackagesOf, ExecutionsOf, RecipientsOf, LastAmong, RowRemoved, DeliveriesTo, BlobsOf, BlobsOfAny;
  }

  lemma KeepTakesNoneOut(limits: Limits, db: Db, keep: Keep, now: Time)
    ensures db.blobs.Keys <= KeepBlob(limits, db, keep, now).blobs.Keys
  {
    hide MayKeep, BlobNamed;
  }

  lemma UploadsByBlobs(limits: Limits, db: Db, op: BlobOp, now: Time, t: Id)
    requires forall x :: x in db.uploads ==> db.uploads[x].blob in db.blobs
    requires op.Token? ==> op.id !in db.uploads
    ensures UploadRow(db, Blobs(op), now, BlobStep(limits, db, op, now), t)
  {
    hide KeptBlobs, BlobNamed, LapsedBlobs;
    if op.KeepOne? {
      KeepTakesNoneOut(limits, db, op.keep, now);
    }
  }

  lemma UploadRows(limits: Limits, w: World, op: Op, now: Time, t: Id)
    requires Sound(limits, w) && Admissible(w, op, now)
    ensures UploadRow(w.db, op, now, Step(limits, w.db, op, now), t)
  {
    hide Sound, Linked, OrdinaryStep, MembershipStep, MailStep, ExecutionStep, BlobStep;
    SoundTables(limits, w);
    TokensNameBlobs(w.db);
    match op
    case Ordinary(o) => UploadsByOrdinary(limits, w.db, o, now, t);
    case Membership(m) => UploadsByMembership(limits, w.db, m, now, t);
    case Mail(m) => MailFrame(limits, w.db, m, now);
    case Executions(e) => ExecutionFrame(limits, w.db, e, now);
    case Blobs(x) =>
      assert x.Token? ==> x.id in NewIds(op);
      UploadsByBlobs(limits, w.db, x, now, t);
  }

  // ---- what a keep is answered ----

  /**
   * Ended iff its owner may own none, a mismatch iff one of its hash has
   * another size, kept iff it is retained or fits the quota; and then it is
   * retained at least as long as asked for and as it was before.
   */
  lemma KeepAnswered(limits: Limits, w: World, keep: Keep, now: Time)
    requires Sound(limits, w) && Admissible(w, Blobs(KeepOne(keep)), now)
    ensures var db, r := w.db, Step(limits, w.db, Blobs(KeepOne(keep)), now); var outcome := KeepOutcomeOf(limits, db, r, keep, now);
      && (outcome == Ended <==> !MayOwn(db, keep.owner))
      && (outcome == Mismatch <==> MayOwn(db, keep.owner) && !SizeAgrees(db, keep))
      && (outcome.Kept? <==> IsKept(limits, db, keep, now))
      && (outcome.Kept? ==> exists b ::
            && outcome.ids == {b} && IsBlob(r, b, keep.owner, keep.hash) && r.blobs[b].size == keep.size
            && keep.retainUntil <= r.blobs[b].retainUntil && (b in db.blobs ==> db.blobs[b].retainUntil <= r.blobs[b].retainUntil))
  {
    hide Sound, IsKept, MayKeep, SizeAgrees, KeptBlobs, IsBlob;
    SoundTables(limits, w);
    assert keep.id in NewIds(Blobs(KeepOne(keep)));
    KeptIsMayKeep(limits, w.db, keep, now);
    AgreesIsNamed(w.db, keep);
    KeptMeans(limits, w.db, keep, now);
    if IsKept(limits, w.db, keep, now) {
      OneIsKept(limits, w.db, keep, now);
    }
  }

  lemma AgreesIsNamed(db: Db, keep: Keep)
    ensures SizeAgrees(db, keep) <==> forall b :: b in BlobNamed(db.blobs, keep.owner, keep.hash) ==> db.blobs[b].size == keep.size
    ensures MayOwn(db, keep.owner) <==> HoldsBlobs(db.accounts, db.replicas, keep.owner)
  {
    NamedAreBlobs(db, keep.owner, keep.hash);
  }

  lemma KeptMeans(limits: Limits, db: Db, keep: Keep, now: Time)
    ensures IsKept(limits, db, keep, now) ==> MayOwn(db, keep.owner) && SizeAgrees(db, keep)
  {
  }

  lemma OneIsKept(limits: Limits, db: Db, keep: Keep, now: Time)
    requires OnePerHash(db.blobs) && keep.id !in db.blobs && MayKeep(limits, db, keep, now)
    ensures var r := KeepBlob(limits, db, keep, now);
      exists b ::
        && BlobNamed(r.blobs, keep.owner, keep.hash) == {b} && IsBlob(r, b, keep.owner, keep.hash) && r.blobs[b].size == keep.size
        && keep.retainUntil <= r.blobs[b].retainUntil && (b in db.blobs ==> db.blobs[b].retainUntil <= r.blobs[b].retainUntil)
  {
    hide HasBlobRoom, HoldsBlobs;
    var r := KeepBlob(limits, db, keep, now);
    var held := BlobNamed(db.blobs, keep.owner, keep.hash);
    if held == {} {
      assert BlobNamed(r.blobs, keep.owner, keep.hash) == {keep.id};
      assert IsBlob(r, keep.id, keep.owner, keep.hash);
    } else {
      var b :| b in held;
      assert BlobNamed(r.blobs, keep.owner, keep.hash) == {b};
      assert IsBlob(r, b, keep.owner, keep.hash);
    }
  }

  /** No call lowers how long a blob is retained, nor what a run leaves of it: in every run a blob still there is retained as long as it was, or longer. */
  lemma {:induction false} RetainedAsLong(limits: Limits, worlds: seq<World>, calls: seq<Call>, i: nat, n: nat, b: Id)
    requires IsRun(limits, worlds, calls) && i <= n < |worlds|
    requires b in worlds[i].db.blobs && b in worlds[n].db.blobs
    ensures worlds[i].db.blobs[b].retainUntil <= worlds[n].db.blobs[b].retainUntil
    decreases n
  {
    hide Sound, Step, Recorded, Usable, Stays, IsKept;
    if n > i {
      var w, call := worlds[n - 1], calls[n - 1];
      assert Follows(limits, w, call, worlds[n]);
      RunsAreSound(limits, worlds, calls, n - 1);
      BlobRowsOf(limits, w, call.op, call.now, b);
      MadeStays(limits, worlds, calls, i, n - 1, b);
      assert b in w.db.blobs;
      RetainedAsLong(limits, worlds, calls, i, n - 1, b);
      StaysAsLong(limits, w.db, call.op, call.now, b, w.db.blobs[b], worlds[n].db.blobs[b]);
    }
  }

  lemma StaysAsLong(limits: Limits, db: Db, op: Op, now: Time, b: Id, row: Blob, after: Blob)
    requires Stays(limits, db, op, now, b, row, after)
    ensures row.retainUntil <= after.retainUntil
  {
  }

  lemma {:induction false} MadeStays(limits: Limits, worlds: seq<World>, calls: seq<Call>, i: nat, n: nat, b: Id)
    requires IsRun(limits, worlds, calls) && i <= n < |worlds| && b in worlds[i].db.blobs
    ensures b in worlds[n].minted
    decreases n
  {
    hide Sound, Step, Recorded, Usable, NewIds;
    if n == i {
      RunsAreSound(limits, worlds, calls, i);
      SoundTables(limits, worlds[i]);
    } else {
      MadeStays(limits, worlds, calls, i, n - 1, b);
      assert Follows(limits, worlds[n - 1], calls[n - 1], worlds[n]);
    }
  }

  /** In every run, every token was granted by a call of the run, and a claim names that call's blob iff its expiry is still to come. */
  lemma {:induction false} EveryTokenWasGranted(limits: Limits, worlds: seq<World>, calls: seq<Call>, n: nat, t: Id, now: Time) returns (i: nat)
    requires IsRun(limits, worlds, calls) && n < |worlds| && t in worlds[n].db.uploads
    ensures i < n && calls[i].op.Blobs? && calls[i].op.blob.Token? && calls[i].op.blob.id == t
    ensures worlds[n].db.uploads[t] == Upload(calls[i].op.blob.blob, calls[i].op.blob.expiresAt)
    ensures ClaimOf(worlds[n].db, t, now) == if now < calls[i].op.blob.expiresAt then Some(calls[i].op.blob.blob) else None
  {
    hide Sound, Step, Recorded, Usable, NewIds;
    assert Follows(limits, worlds[n - 1], calls[n - 1], worlds[n]);
    RunsAreSound(limits, worlds, calls, n - 1);
    UploadRows(limits, worlds[n - 1], calls[n - 1].op, calls[n - 1].now, t);
    if t in worlds[n - 1].db.uploads {
      i := EveryTokenWasGranted(limits, worlds, calls, n - 1, t, now);
    } else {
      i := n - 1;
    }
  }
}
