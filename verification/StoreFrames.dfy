/** Which tables each part of the store leaves alone. */
module StoreFrames {
  import opened Dids
  import opened Tables
  import opened StoreSpec
  import opened StoreRuns

  lemma OrdinaryFrame(limits: Limits, db: Db, op: OrdinaryOp, now: Time)
    ensures var r := OrdinaryStep(limits, db, op, now);
      r == db.(accounts := r.accounts, keylist := r.keylist, messages := r.messages, blobs := r.blobs, ended := r.ended, uploads := r.uploads)
  {
    hide GrantMediation, RevokeMediation, AddRecipient, RemoveRecipient, StoreMessage, DeleteMessages;
  }

  lemma MembershipFrame(limits: Limits, db: Db, op: MembershipOp, now: Time)
    ensures var r := MembershipStep(limits, db, op, now);
      r.accounts == db.accounts && r.keylist == db.keylist && r.messages == db.messages
  {
    hide RegisterReplicaAccount, DeleteReplicaAccount, AddReplica, RemoveReplica, AddSharedRecipient, RemoveSharedRecipient;
  }

  lemma MailFrame(limits: Limits, db: Db, op: MailOp, now: Time)
    requires IdsUsable(db, op)
    ensures var r := MailStep(limits, db, op, now);
      r == db.(messages := r.messages, packages := r.packages, deliveries := r.deliveries)
  {
    hide FanOut, AcknowledgeDeliveries, PurgeExpired;
  }

  lemma ExecutionFrame(limits: Limits, db: Db, op: ExecutionOp, now: Time)
    ensures var r := ExecutionStep(limits, db, op, now);
      r == db.(executions := r.executions, registrations := r.registrations)
  {
    hide RegisterExecution, PurgeExecutions;
  }

  lemma BlobFrame(limits: Limits, db: Db, op: BlobOp, now: Time)
    ensures var r := BlobStep(limits, db, op, now);
      r == db.(blobs := r.blobs, ended := r.ended, uploads := r.uploads)
  {
    hide KeepBlob, DropBlob, GrantUpload, ClaimUpload, MarkUploaded, PurgeBlobs;
  }
}
