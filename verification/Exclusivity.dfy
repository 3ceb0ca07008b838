/** No two rows bind the same DID, whichever way each spells it and whichever protocol made it. */
module Exclusivity {
  import opened Dids
  import opened Tables
  import opened StoreSpec
  import opened StoreRuns
  import opened StoreFrames

  /**
   * The three kinds of DID replica mediation binds are kept apart from each
   * other, and each row's DID and long form from ordinary mediation.
   */
  ghost predicate Exclusive(
      accounts: map<Did, Time>, keylist: map<Did, KeyEntry>,
      replicaAccounts: map<Did, Account>, replicas: map<Did, Replica>, recipients: map<Did, Recipient>)
  {
    && replicaAccounts.Keys !! replicas.Keys
    && replicaAccounts.Keys !! recipients.Keys
    && replicas.Keys !! recipients.Keys
    && (forall d {:trigger d in replicaAccounts} :: d in replicaAccounts ==>
          d !in accounts && d !in keylist && replicaAccounts[d].longForm !in accounts && replicaAccounts[d].longForm !in keylist)
    && (forall d {:trigger d in replicas} :: d in replicas ==>
          d !in accounts && d !in keylist && replicas[d].longForm !in accounts && replicas[d].longForm !in keylist)
    && (forall d {:trigger d in recipients} :: d in recipients ==>
          d !in accounts && d !in keylist && recipients[d].longForm !in accounts && recipients[d].longForm !in keylist)
  }

  /** Every row's long form is one of its own DID. */
  ghost predicate Spelled(replicaAccounts: map<Did, Account>, replicas: map<Did, Replica>, recipients: map<Did, Recipient>) {
    && (forall d :: d in replicaAccounts ==> Spells(replicaAccounts[d].longForm, d))
    && (forall d :: d in replicas ==> Spells(replicas[d].longForm, d))
    && (forall d :: d in recipients ==> Spells(recipients[d].longForm, d))
  }

  ghost predicate DidsBound(db: Db) {
    && Exclusive(db.accounts, db.keylist, db.replicaAccounts, db.replicas, db.recipients)
    && Spelled(db.replicaAccounts, db.replicas, db.recipients)
  }

  // ---- one table at a time ----

  /** Fewer rows, each with the long form it had, stay as they were. */
  lemma ExclusiveWithFewer(db: Db, db': Db)
    requires Exclusive(db.accounts, db.keylist, db.replicaAccounts, db.replicas, db.recipients)
    requires db'.accounts.Keys <= db.accounts.Keys && db'.keylist.Keys <= db.keylist.Keys
    requires SameLongForms(db, db')
    ensures Exclusive(db'.accounts, db'.keylist, db'.replicaAccounts, db'.replicas, db'.recipients)
  {
  }

  ghost predicate SameLongForms(db: Db, db': Db) {
    && (forall d :: d in db'.replicaAccounts ==> d in db.replicaAccounts && db'.replicaAccounts[d].longForm == db.replicaAccounts[d].longForm)
    && (forall d :: d in db'.replicas ==> d in db.replicas && db'.replicas[d].longForm == db.replicas[d].longForm)
    && (forall d :: d in db'.recipients ==> d in db.recipients && db'.recipients[d].longForm == db.recipients[d].longForm)
  }

  /** A DID replica mediation binds under neither spelling is no row's DID and no row's long form. */
  ghost predicate NoRows(db: Db, did: Did) {
    && (forall d :: d in db.replicaAccounts ==> d != did && db.replicaAccounts[d].longForm != did)
    && (forall d :: d in db.replicas ==> d != did && db.replicas[d].longForm != did)
    && (forall d :: d in db.recipients ==> d != did && db.recipients[d].longForm != did)
  }

  lemma UnboundIsNoRows(db: Db, did: Did)
    requires Spelled(db.replicaAccounts, db.replicas, db.recipients)
    requires NotReplicaMediation(db, did)
    ensures NoRows(db, did)
  {
  }

  lemma ExclusiveWithOrdinary(db: Db, did: Did, createdAt: Time)
    requires Exclusive(db.accounts, db.keylist, db.replicaAccounts, db.replicas, db.recipients)
    requires NoRows(db, did)
    ensures Exclusive(db.accounts[did := createdAt], db.keylist, db.replicaAccounts, db.replicas, db.recipients)
  {
  }

  lemma ExclusiveWithKey(db: Db, did: Did, entry: KeyEntry)
    requires Exclusive(db.accounts, db.keylist, db.replicaAccounts, db.replicas, db.recipients)
    requires NoRows(db, did)
    ensures Exclusive(db.accounts, db.keylist[did := entry], db.replicaAccounts, db.replicas, db.recipients)
  {
  }

  lemma ExclusiveWithAccount(db: Db, did: Did, row: Account)
    requires Exclusive(db.accounts, db.keylist, db.replicaAccounts, db.replicas, db.recipients)
    requires NotOrdinary(db, did, row.longForm) && did !in db.replicas && did !in db.recipients
    ensures Exclusive(db.accounts, db.keylist, db.replicaAccounts[did := row], db.replicas, db.recipients)
  {
  }

  lemma ExclusiveWithReplica(db: Db, did: Did, row: Replica)
    requires Exclusive(db.accounts, db.keylist, db.replicaAccounts, db.replicas, db.recipients)
    requires NotOrdinary(db, did, row.longForm) && did !in db.replicaAccounts && did !in db.recipients
    ensures Exclusive(db.accounts, db.keylist, db.replicaAccounts, db.replicas[did := row], db.recipients)
  {
  }

  lemma ExclusiveWithRecipient(db: Db, did: Did, row: Recipient)
    requires Exclusive(db.accounts, db.keylist, db.replicaAccounts, db.replicas, db.recipients)
    requires NotOrdinary(db, did, row.longForm) && did !in db.replicaAccounts && did !in db.replicas
    ensures Exclusive(db.accounts, db.keylist, db.replicaAccounts, db.replicas, db.recipients[did := row])
  {
  }

  // ---- every call ----

  lemma BoundAfterOrdinary(limits: Limits, db: Db, op: OrdinaryOp, now: Time)
    requires DidsBound(db)
    ensures DidsBound(OrdinaryStep(limits, db, op, now))
  {
    hide Exclusive, Spelled, NoRows, NotReplicaMediation, UploadsWithout, MessagesWithout, StoreOutcomeOf, Named;
    match op
    case Grant(did) =>
      if NotReplicaMediation(db, did) {
        UnboundIsNoRows(db, did);
        ExclusiveWithOrdinary(db, did, now);
      }
    case AddKey(owner, recipient) =>
      if NotReplicaMediation(db, recipient) {
        UnboundIsNoRows(db, recipient);
        ExclusiveWithKey(db, recipient, KeyEntry(owner, now));
      }
    case _ =>
      OrdinaryFrame(limits, db, op, now);
      ExclusiveWithFewer(db, OrdinaryStep(limits, db, op, now));
  }

  lemma SpelledAfterMembership(limits: Limits, db: Db, op: MembershipOp, now: Time)
    requires Spelled(db.replicaAccounts, db.replicas, db.recipients) && LongFormsChecked(op)
    ensures var r := MembershipStep(limits, db, op, now); Spelled(r.replicaAccounts, r.replicas, r.recipients)
  {
    hide MayRegister, MayEnroll, MayShare, IsAccount, LastAmong, DeliveriesWithout, UploadsWithout, SlotsWithout;
  }

  lemma LongFormsAfterLeaving(limits: Limits, db: Db, op: MembershipOp, now: Time)
    requires op.DeleteAccount? || op.RemoveMember? || op.Unshare?
    ensures SameLongForms(db, MembershipStep(limits, db, op, now))
  {
    hide IsAccount, LastAmong, DeliveriesWithout, UploadsWithout, SlotsWithout;
  }

  lemma ExclusiveAfterMembership(limits: Limits, db: Db, op: MembershipOp, now: Time)
    requires Exclusive(db.accounts, db.keylist, db.replicaAccounts, db.replicas, db.recipients)
    ensures var r := MembershipStep(limits, db, op, now); Exclusive(r.accounts, r.keylist, r.replicaAccounts, r.replicas, r.recipients)
  {
    hide Exclusive, NotOrdinary, IsAccount, SameLongForms, DeleteReplicaAccount, RemoveReplica, RemoveSharedRecipient;
    var db' := MembershipStep(limits, db, op, now);
    MembershipFrame(limits, db, op, now);
    match op
    case Register(did, longForm, mediator, create, id) =>
      if create && MayRegister(db, did, longForm) {
        ExclusiveWithAccount(db, did, db'.replicaAccounts[did]);
      }
    case Enroll(account, mediator, replica, longForm, grant) =>
      if MayEnroll(limits, db, account, mediator, replica, longForm) {
        ExclusiveWithReplica(db, replica, db'.replicas[replica]);
      }
    case Share(account, mediator, recipient, longForm) =>
      if MayShare(limits, db, account, mediator, recipient, longForm) {
        ExclusiveWithRecipient(db, recipient, db'.recipients[recipient]);
      }
    case _ =>
      LongFormsAfterLeaving(limits, db, op, now);
      ExclusiveWithFewer(db, db');
  }

  lemma BoundKept(limits: Limits, db: Db, op: Op, now: Time)
    requires Usable(db, op)
    requires DidsBound(db)
    ensures DidsBound(Step(limits, db, op, now))
  {
    hide Exclusive, Spelled, OrdinaryStep, MembershipStep, MailStep, ExecutionStep, BlobStep;
    match op
    case Ordinary(o) => BoundAfterOrdinary(limits, db, o, now);
    case Membership(m) =>
      SpelledAfterMembership(limits, db, m, now);
      ExclusiveAfterMembership(limits, db, m, now);
    case Mail(m) => MailFrame(limits, db, m, now);
    case Executions(e) => ExecutionFrame(limits, db, e, now);
    case Blobs(b) => BlobFrame(limits, db, b, now);
  }
}
