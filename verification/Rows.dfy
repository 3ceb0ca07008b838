/**
 * The store told by its tables instead of by its methods: of each table, which
 * calls bring a row in and with what in it, which take it out, and that
 * nothing else touches it. Here the bindings and the ordinary messages.
 */
module Rows {
  import opened Dids
  import opened Tables
  import opened StoreSpec
  import opened StoreRuns
  import opened StoreFrames
  import opened Exclusivity
  import opened Links
  import opened Rosters
  import opened Registrations
  import opened Mail
  import opened BlobRows
  import opened Soundness
  import opened Spellings

  /** The account is registered, by way of that mediator. */
  predicate StandsAt(db: Db, account: Did, mediator: Did) {
    account in db.replicaAccounts && db.replicaAccounts[account].mediator == mediator
  }

  /** Nothing binds the DID, and ordinary mediation holds neither spelling of it given here. */
  predicate Free(db: Db, did: Did, longForm: Did) {
    !Bound(db, did) && !Held(db, did) && !Held(db, longForm)
  }

  /** The call deletes the replica-mediation account. */
  predicate Deletes(db: Db, op: Op, account: Did) {
    op.Membership? && op.membership.DeleteAccount? && op.membership.account == account && StandsAt(db, account, op.membership.mediator)
  }

  /** The call removes the replica from its account. */
  predicate RemovesMember(db: Db, op: Op, replica: Did) {
    && op.Membership? && op.membership.RemoveMember? && op.membership.replica == replica
    && replica in db.replicas && db.replicas[replica].account == op.membership.account
    && StandsAt(db, op.membership.account, op.membership.mediator)
  }

  lemma SoundTables(limits: Limits, w: World)
    requires Sound(limits, w)
    ensures DidsBound(w.db) && Linked(w.db) && Delivered(w.db) && Listed(w.db) && Owned(w.db.accounts, w.db.replicas, w.db.blobs) && OnePerHash(w.db.blobs)
    ensures w.db.messages.Keys <= w.minted && w.db.packages.Keys <= w.minted && w.db.executions.Keys <= w.minted && w.db.blobs.Keys <= w.minted && w.db.uploads.Keys <= w.minted
  {
    hide DidsBound, Linked, Delivered, Listed, Owned, OnePerHash, ConservedIn;
    BlobsAreMade(w.db, w.history);
  }

  // ---- ordinary accounts ----

  /** Granted unless some row binds the DID, and revoked by name. */
  ghost predicate AccountRow(db: Db, op: Op, now: Time, r: Db, did: Did) {
    && (did in r.accounts <==>
          || (did in db.accounts && op != Ordinary(Revoke(did)))
          || (op == Ordinary(Grant(did)) && !Bound(db, Canonical(did))))
    && (did in r.accounts ==> r.accounts[did] == if did in db.accounts then db.accounts[did] else now)
  }

  lemma UnboundBothWays(db: Db, did: Did)
    requires DidsBound(db)
    ensures NotReplicaMediation(db, did) <==> !Bound(db, Canonical(did))
  {
    assert did in db.replicaAccounts ==> Spells(db.replicaAccounts[did].longForm, did);
    assert did in db.replicas ==> Spells(db.replicas[did].longForm, did);
    assert did in db.recipients ==> Spells(db.recipients[did].longForm, did);
  }

  lemma AccountsByOrdinary(limits: Limits, db: Db, op: OrdinaryOp, now: Time, did: Did)
    requires DidsBound(db)
    ensures AccountRow(db, Ordinary(op), now, OrdinaryStep(limits, db, op, now), did)
  {
    hide NotReplicaMediation, Bound, DidsBound, RevokeMediation, AddRecipient, RemoveRecipient, StoreMessage, DeleteMessages;
    UnboundBothWays(db, did);
    if op.Revoke? {
      AfterRevocation(db, op.did);
    }
  }

  /** What a revocation leaves, row by row. */
  lemma AfterRevocation(db: Db, did: Did)
    ensures var r := RevokeMediation(db, did);
      && r.accounts == (if did in db.accounts then db.accounts - {did} else db.accounts)
      && r.keylist == (if did in db.accounts then KeysWithout(db.keylist, did) else db.keylist)
      && r.messages == (if did in db.accounts then MessagesWithout(db.messages, did) else db.messages)
  {
    hide KeysWithout, MessagesWithout, UploadsWithout, BlobsOf;
  }

  lemma AccountRows(limits: Limits, w: World, op: Op, now: Time, did: Did)
    requires Sound(limits, w) && Admissible(w, op, now)
    ensures AccountRow(w.db, op, now, Step(limits, w.db, op, now), did)
  {
    hide Sound, Bound, DidsBound, OrdinaryStep, MembershipStep, MailStep, ExecutionStep, BlobStep, NewIds;
    SoundTables(limits, w);
    match op
    case Ordinary(o) => AccountsByOrdinary(limits, w.db, o, now, did);
    case Membership(m) => MembershipFrame(limits, w.db, m, now);
    case Mail(m) => MailFrame(limits, w.db, m, now);
    case Executions(e) => ExecutionFrame(limits, w.db, e, now);
    case Blobs(b) => BlobFrame(limits, w.db, b, now);
  }

  // ---- recipients of ordinary accounts ----

  /** Added for an account that is there unless some row binds the DID; taken out by its owner, or with it. */
  ghost predicate KeyRow(db: Db, op: Op, now: Time, r: Db, k: Did) {
    if k in db.keylist then
      && (k in r.keylist <==> op != Ordinary(RemoveKey(db.keylist[k].owner, k)) && op != Ordinary(Revoke(db.keylist[k].owner)))
      && (k in r.keylist ==> r.keylist[k] == db.keylist[k])
    else
      && (k in r.keylist <==> op.Ordinary? && op.ordinary.AddKey? && op.ordinary.recipient == k && op.ordinary.owner in db.accounts && !Bound(db, Canonical(k)))
      && (k in r.keylist ==> r.keylist[k] == KeyEntry(op.ordinary.owner, now))
  }

  lemma OwnersHaveAccounts(db: Db)
    requires Linked(db)
    ensures (forall k :: k in db.keylist ==> db.keylist[k].owner in db.accounts) && (forall m :: m in db.messages ==> db.messages[m].owner in db.accounts)
  {
  }

  lemma KeysByOrdinary(limits: Limits, db: Db, op: OrdinaryOp, now: Time, k: Did)
    requires DidsBound(db) && Linked(db)
    ensures KeyRow(db, Ordinary(op), now, OrdinaryStep(limits, db, op, now), k)
  {
    hide NotReplicaMediation, Bound, DidsBound, Linked, RevokeMediation, MessagesWithout, GrantMediation, StoreMessage, DeleteMessages;
    UnboundBothWays(db, k);
    OwnersHaveAccounts(db);
    if op.Revoke? {
      AfterRevocation(db, op.did);
    }
  }

  lemma KeylistRows(limits: Limits, w: World, op: Op, now: Time, k: Did)
    requires Sound(limits, w) && Admissible(w, op, now)
    ensures KeyRow(w.db, op, now, Step(limits, w.db, op, now), k)
  {
    hide Sound, Bound, DidsBound, Linked, OrdinaryStep, MembershipStep, MailStep, ExecutionStep, BlobStep, NewIds;
    SoundTables(limits, w);
    match op
    case Ordinary(o) => KeysByOrdinary(limits, w.db, o, now, k);
    case Membership(m) => MembershipFrame(limits, w.db, m, now);
    case Mail(m) => MailFrame(limits, w.db, m, now);
    case Executions(e) => ExecutionFrame(limits, w.db, e, now);
    case Blobs(b) => BlobFrame(limits, w.db, b, now);
  }

  // ---- ordinary messages ----

  /** Stored for an account with room, for the time to live; taken out by its owner, with it, or past its expiry. */
  ghost predicate MessageRow(limits: Limits, db: Db, op: Op, now: Time, r: Db, m: Id) {
    if m in db.messages then
      && (m in r.messages <==>
            && !(op.Ordinary? && op.ordinary.Delete? && op.ordinary.owner == db.messages[m].owner && m in op.ordinary.ids)
            && op != Ordinary(Revoke(db.messages[m].owner))
            && !(op == Op.Mail(PurgeMail) && db.messages[m].expiresAt <= now))
      && (m in r.messages ==> r.messages[m] == db.messages[m])
    else
      && (m in r.messages <==>
            && op.Ordinary? && op.ordinary.Store? && op.ordinary.id == m && op.ordinary.owner in db.accounts
            && |set x | x in db.messages && db.messages[x].owner == op.ordinary.owner && now < db.messages[x].expiresAt| < limits.maxMessages)
      && (m in r.messages ==> r.messages[m] == Message(op.ordinary.owner, op.ordinary.packed, now, now + limits.ttl))
  }

  lemma MessagesByOrdinary(limits: Limits, db: Db, op: OrdinaryOp, now: Time, m: Id)
    requires Linked(db) && (op.Store? ==> op.id !in db.messages)
    ensures MessageRow(limits, db, Ordinary(op), now, OrdinaryStep(limits, db, op, now), m)
  {
    hide Linked, RevokeMediation, KeysWithout, GrantMediation, AddRecipient, RemoveRecipient, UnexpiredMessages;
    OwnersHaveAccounts(db);
    if op.Revoke? {
      AfterRevocation(db, op.did);
    }
    if op.Store? {
      UnexpiredAre(db, op.owner, now);
    }
  }

  lemma UnexpiredAre(db: Db, owner: Did, now: Time)
    ensures UnexpiredMessages(db.messages, owner, now) == set x | x in db.messages && db.messages[x].owner == owner && now < db.messages[x].expiresAt
  {
  }

  lemma MessagesByMail(limits: Limits, db: Db, op: MailOp, now: Time, m: Id)
    requires IdsUsable(db, op)
    ensures MessageRow(limits, db, Op.Mail(op), now, MailStep(limits, db, op, now), m)
  {
    hide FanOut, AcknowledgeDeliveries, LapsedPackages, DeliveriesWithout, FreshFor;
  }

  lemma MessageRows(limits: Limits, w: World, op: Op, now: Time, m: Id)
    requires Sound(limits, w) && Admissible(w, op, now)
    ensures MessageRow(limits, w.db, op, now, Step(limits, w.db, op, now), m)
  {
    hide Sound, Linked, OrdinaryStep, MembershipStep, MailStep, ExecutionStep, BlobStep;
    SoundTables(limits, w);
    match op
    case Ordinary(o) =>
      assert o.Store? ==> o.id in NewIds(op);
      MessagesByOrdinary(limits, w.db, o, now, m);
    case Membership(x) => MembershipFrame(limits, w.db, x, now);
    case Mail(x) => MessagesByMail(limits, w.db, x, now, m);
    case Executions(e) => ExecutionFrame(limits, w.db, e, now);
    case Blobs(b) => BlobFrame(limits, w.db, b, now);
  }

  // ---- replica-mediation accounts ----

  /** Registered under a DID nothing has, and deleted by way of its mediator. */
  ghost predicate ReplicaAccountRow(db: Db, op: Op, now: Time, r: Db, a: Did) {
    if a in db.replicaAccounts then
      && (a in r.replicaAccounts <==> !Deletes(db, op, a))
      && (a in r.replicaAccounts ==> r.replicaAccounts[a] == db.replicaAccounts[a])
    else
      && (a in r.replicaAccounts <==> op.Membership? && op.membership.Register? && op.membership.did == a && op.membership.create && Free(db, a, op.membership.longForm))
      && (a in r.replicaAccounts ==> r.replicaAccounts[a] == Account(op.membership.mediator, op.membership.longForm, now, op.membership.id))
  }

  /** Long forms are no row's key, so a guard that looks for one there asks nothing more. */
  lemma LongFormsAreNoKeys(db: Db, longForm: Did)
    requires DidsBound(db)
    ensures longForm.Long? ==> longForm !in db.replicaAccounts && longForm !in db.replicas && longForm !in db.recipients
  {
    assert longForm in db.replicaAccounts ==> Spells(db.replicaAccounts[longForm].longForm, longForm);
    assert longForm in db.replicas ==> Spells(db.replicas[longForm].longForm, longForm);
    assert longForm in db.recipients ==> Spells(db.recipients[longForm].longForm, longForm);
  }

  lemma AccountsByMembership(limits: Limits, db: Db, op: MembershipOp, now: Time, a: Did)
    requires DidsBound(db) && LongFormsChecked(op)
    ensures ReplicaAccountRow(db, Membership(op), now, MembershipStep(limits, db, op, now), a)
  {
    hide DidsBound, AddReplica, AddSharedRecipient, RemoveSharedRecipient, RemoveReplica, DeliveriesWithout, UploadsWithout, SlotsWithout, Members, PackagesOf, ExecutionsOf, RecipientsOf, BlobsOfAny;
    if op.Register? {
      LongFormsAreNoKeys(db, op.longForm);
    }
  }

  lemma ReplicaAccountRows(limits: Limits, w: World, op: Op, now: Time, a: Did)
    requires Sound(limits, w) && Admissible(w, op, now)
    ensures ReplicaAccountRow(w.db, op, now, Step(limits, w.db, op, now), a)
  {
    hide Sound, DidsBound, OrdinaryStep, MembershipStep, MailStep, ExecutionStep, BlobStep, NewIds, Free;
    SoundTables(limits, w);
    match op
    case Ordinary(o) => OrdinaryFrame(limits, w.db, o, now);
    case Membership(m) => AccountsByMembership(limits, w.db, m, now, a);
    case Mail(m) => MailFrame(limits, w.db, m, now);
    case Executions(e) => ExecutionFrame(limits, w.db, e, now);
    case Blobs(b) => BlobFrame(limits, w.db, b, now);
  }

  // ---- replicas ----

  /** Enrolled under a DID nothing has while fewer than the limit are active, marked when removed, and gone only with its account. */
  ghost predicate ReplicaRow(limits: Limits, db: Db, op: Op, now: Time, r: Db, x: Did) {
    if x in db.replicas then
      && (x in r.replicas <==> !Deletes(db, op, db.replicas[x].account))
      && (x in r.replicas && RemovesMember(db, op, x) && db.replicas[x].removedAt.None? ==> r.replicas[x] == db.replicas[x].(removedAt := Some(now / 1000)))
      && (x in r.replicas && !(RemovesMember(db, op, x) && db.replicas[x].removedAt.None?) ==> r.replicas[x] == db.replicas[x])
    else
      && (x in r.replicas <==>
            && op.Membership? && op.membership.Enroll? && op.membership.replica == x
            && StandsAt(db, op.membership.account, op.membership.mediator) && Free(db, x, op.membership.longForm)
            && |set y | y in db.replicas && db.replicas[y].account == op.membership.account && db.replicas[y].removedAt.None?| < limits.maxReplicas)
      && (x in r.replicas ==>
            var ordinal := |set y | y in db.replicas && db.replicas[y].account == op.membership.account| + 1;
            r.replicas[x] == Replica(op.membership.account, ordinal, op.membership.longForm, op.membership.grant, now / 1000, None))
  }

  lemma ReplicasByMembership(limits: Limits, db: Db, op: MembershipOp, now: Time, x: Did)
    ensures ReplicaRow(limits, db, Membership(op), now, MembershipStep(limits, db, op, now), x)
  {
    hide RegisterReplicaAccount, AddReplica, AddSharedRecipient, RemoveSharedRecipient, RemoveReplica, DeleteReplicaAccount, ReplicaRow;
    match op
    case Enroll(account, mediator, replica, longForm, grant) => ReplicasByEnrollment(limits, db, op, now, x);
    case RemoveMember(account, mediator, replica) => ReplicasByRemoval(limits, db, op, now, x);
    case DeleteAccount(account, mediator) => ReplicasByDeletion(limits, db, op, now, x);
    case _ => ReplicaUntouched(limits, db, op, now, MembershipStep(limits, db, op, now), x);
  }

  lemma ReplicaUntouched(limits: Limits, db: Db, op: MembershipOp, now: Time, r: Db, x: Did)
    requires r.replicas == db.replicas && !op.Enroll? && !op.RemoveMember? && !op.DeleteAccount?
    ensures ReplicaRow(limits, db, Membership(op), now, r, x)
  {
    hide Free;
  }

  lemma MembersAre(db: Db, account: Did)
    ensures ActiveMembers(db.replicas, account) == set y | y in db.replicas && db.replicas[y].account == account && db.replicas[y].removedAt.None?
    ensures |Ordinals(db.replicas, account)| == |set y | y in db.replicas && db.replicas[y].account == account|
  {
    assert Ordinals(db.replicas, account).Keys == set y | y in db.replicas && db.replicas[y].account == account;
  }

  lemma ReplicasByEnrollment(limits: Limits, db: Db, op: MembershipOp, now: Time, x: Did)
    requires op.Enroll?
    ensures ReplicaRow(limits, db, Membership(op), now, MembershipStep(limits, db, op, now), x)
  {
    hide ActiveMembers, Ordinals;
    MembersAre(db, op.account);
  }

  lemma ReplicasByRemoval(limits: Limits, db: Db, op: MembershipOp, now: Time, x: Did)
    requires op.RemoveMember?
    ensures ReplicaRow(limits, db, Membership(op), now, MembershipStep(limits, db, op, now), x)
  {
    hide LastAmong, UploadsWithout, BlobsOf, DeliveriesTo, Free;
  }

  lemma ReplicasByDeletion(limits: Limits, db: Db, op: MembershipOp, now: Time, x: Did)
    requires op.DeleteAccount?
    ensures ReplicaRow(limits, db, Membership(op), now, MembershipStep(limits, db, op, now), x)
  {
    hide DeliveriesWithout, UploadsWithout, SlotsWithout, PackagesOf, ExecutionsOf, RecipientsOf, BlobsOfAny, Free;
  }

  lemma ReplicaRows(limits: Limits, w: World, op: Op, now: Time, x: Did)
    requires Sound(limits, w) && Admissible(w, op, now)
    ensures ReplicaRow(limits, w.db, op, now, Step(limits, w.db, op, now), x)
  {
    hide Sound, DidsBound, Linked, OrdinaryStep, MembershipStep, MailStep, ExecutionStep, BlobStep, NewIds, Free;
    match op
    case Ordinary(o) => OrdinaryFrame(limits, w.db, o, now);
    case Membership(m) => ReplicasByMembership(limits, w.db, m, now, x);
    case Mail(m) => MailFrame(limits, w.db, m, now);
    case Executions(e) => ExecutionFrame(limits, w.db, e, now);
    case Blobs(b) => BlobFrame(limits, w.db, b, now);
  }

  // ---- shared recipients ----

  /** Shared under a DID nothing has while there are fewer than the limit; unshared by its account, or gone with it. */
  ghost predicate RecipientRow(limits: Limits, db: Db, op: Op, now: Time, r: Db, x: Did) {
    if x in db.recipients then
      && (x in r.recipients <==>
            && !Deletes(db, op, db.recipients[x].account)
            && !(op.Membership? && op.membership.Unshare? && op.membership.recipient == x && op.membership.account == db.recipients[x].account
                 && StandsAt(db, op.membership.account, op.membership.mediator)))
      && (x in r.recipients ==> r.recipients[x] == db.recipients[x])
    else
      && (x in r.recipients <==>
            && op.Membership? && op.membership.Share? && op.membership.recipient == x
            && StandsAt(db, op.membership.account, op.membership.mediator) && Free(db, x, op.membership.longForm)
            && |set y | y in db.recipients && db.recipients[y].account == op.membership.account| < limits.maxRecipients)
      && (x in r.recipients ==> r.recipients[x] == Recipient(op.membership.account, op.membership.longForm, now))
  }

  lemma RecipientsByMembership(limits: Limits, db: Db, op: MembershipOp, now: Time, x: Did)
    requires DidsBound(db) && LongFormsChecked(op)
    ensures RecipientRow(limits, db, Membership(op), now, MembershipStep(limits, db, op, now), x)
  {
    hide DidsBound, RegisterReplicaAccount, AddReplica, RemoveReplica, DeleteReplicaAccount, RecipientsOf;
    if op.Share? {
      LongFormsAreNoKeys(db, op.longForm);
      SharedAre(db, op.account);
    }
    if op.DeleteAccount? {
      RecipientsAfterDeletion(db, op.account, op.mediator);
    }
  }

  lemma SharedAre(db: Db, account: Did)
    ensures RecipientsOf(db.recipients, account) == set y | y in db.recipients && db.recipients[y].account == account
  {
  }

  lemma RecipientsAfterDeletion(db: Db, account: Did, mediator: Did)
    ensures var r := DeleteReplicaAccount(db, account, mediator);
      && (forall y :: y in r.recipients <==> y in db.recipients && !(StandsAt(db, account, mediator) && db.recipients[y].account == account))
      && (forall y :: y in r.recipients ==> r.recipients[y] == db.recipients[y])
  {
    hide DeliveriesWithout, UploadsWithout, SlotsWithout, PackagesOf, ExecutionsOf, BlobsOfAny, Members;
  }

  lemma RecipientRows(limits: Limits, w: World, op: Op, now: Time, x: Did)
    requires Sound(limits, w) && Admissible(w, op, now)
    ensures RecipientRow(limits, w.db, op, now, Step(limits, w.db, op, now), x)
  {
    hide Sound, DidsBound, OrdinaryStep, MembershipStep, MailStep, ExecutionStep, BlobStep, NewIds, Free;
    SoundTables(limits, w);
    match op
    case Ordinary(o) => OrdinaryFrame(limits, w.db, o, now);
    case Membership(m) => RecipientsByMembership(limits, w.db, m, now, x);
    case Mail(m) => MailFrame(limits, w.db, m, now);
    case Executions(e) => ExecutionFrame(limits, w.db, e, now);
    case Blobs(b) => BlobFrame(limits, w.db, b, now);
  }
}
