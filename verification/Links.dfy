/** The foreign keys: every batch leaves each row naming rows that are there, so none is refused at its commit. */
module Links {
  import opened Dids
  import opened Tables
  import opened StoreSpec
  import opened StoreRuns
  import opened StoreFrames

  ghost predicate OwnersLinked(accounts: map<Did, Time>, keylist: map<Did, KeyEntry>, messages: map<Id, Message>) {
    && (forall k :: k in keylist ==> keylist[k].owner in accounts)
    && (forall m :: m in messages ==> messages[m].owner in accounts)
  }

  ghost predicate AccountsLinked(
      replicaAccounts: map<Did, Account>, replicas: map<Did, Replica>, recipients: map<Did, Recipient>,
      packages: map<Id, Package>, executions: map<Id, Execution>)
  {
    && (forall r :: r in replicas ==> replicas[r].account in replicaAccounts)
    && (forall d :: d in recipients ==> recipients[d].account in replicaAccounts)
    && (forall p :: p in packages ==> packages[p].account in replicaAccounts)
    && (forall e :: e in executions ==> executions[e].account in replicaAccounts)
  }

  ghost predicate UploadsLinked(blobs: map<Id, Blob>, uploads: map<Id, Upload>) {
    forall t :: t in uploads ==> uploads[t].blob in blobs
  }

  ghost predicate Linked(db: Db) {
    && OwnersLinked(db.accounts, db.keylist, db.messages)
    && AccountsLinked(db.replicaAccounts, db.replicas, db.recipients, db.packages, db.executions)
    && UploadsLinked(db.blobs, db.uploads)
  }

  lemma OwnersAfterRevocation(db: Db, did: Did)
    requires OwnersLinked(db.accounts, db.keylist, db.messages)
    ensures OwnersLinked(db.accounts - {did}, KeysWithout(db.keylist, did), MessagesWithout(db.messages, did))
  {
  }

  lemma OwnersAfterOrdinary(limits: Limits, db: Db, op: OrdinaryOp, now: Time)
    requires OwnersLinked(db.accounts, db.keylist, db.messages)
    ensures var r := OrdinaryStep(limits, db, op, now); OwnersLinked(r.accounts, r.keylist, r.messages)
  {
    hide NotReplicaMediation, UploadsWithout, KeysWithout, MessagesWithout;
    match op
    case Revoke(did) =>
      hide OwnersLinked;
      OwnersAfterRevocation(db, did);
    case _ =>
  }

  /** Blobs gone take their upload tokens along. */
  lemma UploadsWithFewer(blobs: map<Id, Blob>, uploads: map<Id, Upload>, gone: set<Id>)
    requires UploadsLinked(blobs, uploads)
    ensures UploadsLinked(blobs - gone, UploadsWithout(uploads, gone))
  {
  }

  lemma UploadsAfterOrdinary(limits: Limits, db: Db, op: OrdinaryOp, now: Time)
    requires UploadsLinked(db.blobs, db.uploads)
    ensures var r := OrdinaryStep(limits, db, op, now); UploadsLinked(r.blobs, r.uploads)
  {
    hide UploadsLinked, UploadsWithout, KeysWithout, MessagesWithout, NotReplicaMediation;
    match op
    case Revoke(did) => UploadsWithFewer(db.blobs, db.uploads, BlobsOf(db.blobs, did));
    case _ =>
  }

  lemma UploadsAfterMembership(limits: Limits, db: Db, op: MembershipOp, now: Time)
    requires UploadsLinked(db.blobs, db.uploads)
    ensures var r := MembershipStep(limits, db, op, now); UploadsLinked(r.blobs, r.uploads)
  {
    hide UploadsLinked, UploadsWithout, BlobsOf, BlobsOfAny, Members, PackagesOf, ExecutionsOf, RecipientsOf, DeliveriesTo,
      RegisterReplicaAccount, AddReplica, AddSharedRecipient, RemoveSharedRecipient, LastAmong, DeliveriesWithout, SlotsWithout, IsAccount, IsMember;
    match op
    case RemoveMember(account, mediator, replica) => UploadsWithFewer(db.blobs, db.uploads, BlobsOf(db.blobs, replica));
    case DeleteAccount(account, mediator) => UploadsWithFewer(db.blobs, db.uploads, BlobsOfAny(db.blobs, Members(db.replicas, account)));
    case _ =>
  }

  lemma UploadsWithMore(blobs: map<Id, Blob>, blobs': map<Id, Blob>, uploads: map<Id, Upload>, uploads': map<Id, Upload>)
    requires UploadsLinked(blobs, uploads)
    requires blobs.Keys <= blobs'.Keys
    requires forall t :: t in uploads' ==> (t in uploads && uploads'[t] == uploads[t]) || uploads'[t].blob in blobs
    ensures UploadsLinked(blobs', uploads')
  {
  }

  lemma UploadsAfterKeep(limits: Limits, db: Db, keep: Keep, now: Time)
    requires UploadsLinked(db.blobs, db.uploads)
    ensures UploadsLinked(KeepBlob(limits, db, keep, now).blobs, db.uploads)
  {
    hide UploadsLinked, MayKeep, BlobNamed;
    assert db.blobs.Keys <= KeptBlobs(limits, db, keep, now).Keys;
    UploadsWithMore(db.blobs, KeepBlob(limits, db, keep, now).blobs, db.uploads, db.uploads);
  }

  lemma UploadsAfterPurge(db: Db, now: Time)
    requires UploadsLinked(db.blobs, db.uploads)
    ensures var r := PurgeBlobs(db, now); UploadsLinked(r.blobs, r.uploads)
  {
    hide UploadsLinked, UploadsWithout, LapsedBlobs;
    var lapsed := LapsedBlobs(db.blobs, now);
    var r := PurgeBlobs(db, now);
    UploadsWithFewer(db.blobs, db.uploads, lapsed);
    UploadsWithMore(r.blobs, r.blobs, UploadsWithout(db.uploads, lapsed), r.uploads);
  }

  lemma UploadsAfterBlobs(limits: Limits, db: Db, op: BlobOp, now: Time)
    requires UploadsLinked(db.blobs, db.uploads)
    ensures var r := BlobStep(limits, db, op, now); UploadsLinked(r.blobs, r.uploads)
  {
    hide UploadsLinked, KeepBlob, PurgeBlobs, BlobNamed, UploadsWithout;
    match op
    case KeepOne(keep) => UploadsAfterKeep(limits, db, keep, now);
    case DropOne(owner, hash) => UploadsWithFewer(db.blobs, db.uploads, BlobNamed(db.blobs, owner, hash));
    case Token(blob, expiresAt, id) => UploadsWithMore(db.blobs, db.blobs, db.uploads, GrantUpload(db, blob, expiresAt, id).uploads);
    case Claim(token) => UploadsWithMore(db.blobs, db.blobs, db.uploads, db.uploads - {token});
    case Mark(blob) => UploadsWithMore(db.blobs, MarkUploaded(db, blob, now).blobs, db.uploads, db.uploads);
    case PurgeBlobRows => UploadsAfterPurge(db, now);
  }

  lemma AccountsAfterLeaving(limits: Limits, db: Db, op: MembershipOp, now: Time)
    requires op.DeleteAccount? || op.RemoveMember? || op.Unshare?
    requires AccountsLinked(db.replicaAccounts, db.replicas, db.recipients, db.packages, db.executions)
    ensures var r := MembershipStep(limits, db, op, now); AccountsLinked(r.replicaAccounts, r.replicas, r.recipients, r.packages, r.executions)
  {
    hide LastAmong, DeliveriesWithout, UploadsWithout, SlotsWithout;
  }

  lemma AccountsAfterJoining(limits: Limits, db: Db, op: MembershipOp, now: Time)
    requires op.Register? || op.Enroll? || op.Share?
    requires AccountsLinked(db.replicaAccounts, db.replicas, db.recipients, db.packages, db.executions)
    ensures var r := MembershipStep(limits, db, op, now); AccountsLinked(r.replicaAccounts, r.replicas, r.recipients, r.packages, r.executions)
  {
    hide NotOrdinary, Unbound, MayRegister;
  }

  lemma AccountsAfterMail(limits: Limits, db: Db, op: MailOp, now: Time)
    requires IdsUsable(db, op)
    requires AccountsLinked(db.replicaAccounts, db.replicas, db.recipients, db.packages, db.executions)
    ensures var r := MailStep(limits, db, op, now); AccountsLinked(r.replicaAccounts, r.replicas, r.recipients, r.packages, r.executions)
  {
    hide HasRoom, LastAmong, DeliveriesWithout, MessagesAfter, NextRowid, FreshFor;
  }

  lemma AccountsAfterExecution(limits: Limits, db: Db, op: ExecutionOp, now: Time)
    requires AccountsLinked(db.replicaAccounts, db.replicas, db.recipients, db.packages, db.executions)
    ensures var r := ExecutionStep(limits, db, op, now); AccountsLinked(r.replicaAccounts, r.replicas, r.recipients, r.packages, r.executions)
  {
    hide FindExecution, WithCaller, SlotsWithout;
  }

  lemma LinkedKept(limits: Limits, db: Db, op: Op, now: Time)
    requires Usable(db, op)
    requires Linked(db)
    ensures Linked(Step(limits, db, op, now))
  {
    hide OwnersLinked, AccountsLinked, UploadsLinked, OrdinaryStep, MembershipStep, MailStep, ExecutionStep, BlobStep;
    match op
    case Ordinary(o) =>
      OrdinaryFrame(limits, db, o, now);
      OwnersAfterOrdinary(limits, db, o, now);
      UploadsAfterOrdinary(limits, db, o, now);
    case Membership(m) =>
      MembershipFrame(limits, db, m, now);
      UploadsAfterMembership(limits, db, m, now);
      if m.Register? || m.Enroll? || m.Share? {
        AccountsAfterJoining(limits, db, m, now);
      } else {
        AccountsAfterLeaving(limits, db, m, now);
      }
    case Mail(m) =>
      MailFrame(limits, db, m, now);
      AccountsAfterMail(limits, db, m, now);
      OwnersAfterMail(limits, db, m, now);
    case Executions(e) =>
      ExecutionFrame(limits, db, e, now);
      AccountsAfterExecution(limits, db, e, now);
    case Blobs(b) =>
      BlobFrame(limits, db, b, now);
      UploadsAfterBlobs(limits, db, b, now);
  }

  lemma OwnersAfterMail(limits: Limits, db: Db, op: MailOp, now: Time)
    requires IdsUsable(db, op)
    requires OwnersLinked(db.accounts, db.keylist, db.messages)
    ensures var r := MailStep(limits, db, op, now); OwnersLinked(r.accounts, r.keylist, r.messages)
  {
    hide FanOut, AcknowledgeDeliveries, DeliveriesWithout;
  }
}
