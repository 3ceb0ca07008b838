/** The configured limits hold at every moment, not only when a row comes in. */
module Quotas {
  import opened Dids
  import opened Tables
  import opened Sums
  import opened StoreSpec
  import opened StoreRuns
  import opened StoreFrames
  import opened BlobRows

  /** At the moment `t`: unexpired packages of every account, by number and by bytes. */
  ghost predicate PackagesWithin(limits: Limits, packages: map<Id, Package>, t: Time) {
    forall a :: PackagesWithinFor(limits, RetainedBytes(packages, a, t))
  }

  ghost predicate PackagesWithinFor(limits: Limits, retained: map<Id, nat>) {
    |retained| <= limits.maxMessages && Total(retained) <= limits.maxRetainedBytes
  }

  ghost predicate MessagesWithin(limits: Limits, messages: map<Id, Message>, t: Time) {
    forall o :: |UnexpiredMessages(messages, o, t)| <= limits.maxMessages
  }

  ghost predicate BlobsWithin(limits: Limits, blobs: map<Id, Blob>, t: Time) {
    forall o :: Total(LiveBlobBytes(blobs, o, t)) <= limits.quotaBytes
  }

  ghost predicate MembersWithin(limits: Limits, replicas: map<Did, Replica>, recipients: map<Did, Recipient>) {
    && (forall a :: |ActiveMembers(replicas, a)| <= limits.maxReplicas)
    && (forall a :: |RecipientsOf(recipients, a)| <= limits.maxRecipients)
  }

  ghost predicate ExecutionsWithin(limits: Limits, executions: map<Id, Execution>, registrations: map<Slot, nat>) {
    && (forall a :: |ExecutionsOf(executions, a)| <= limits.maxRetained)
    && (forall e :: |Places(registrations, e)| <= limits.maxListed)
  }

  // ---- time passes, rows go ----

  lemma MapCountShrinks<K, V>(m: map<K, V>, n: map<K, V>)
    requires m.Keys <= n.Keys
    ensures |m| <= |n|
  {
    CountShrinks(m.Keys, n.Keys);
  }

  lemma PackagesShrink(limits: Limits, packages: map<Id, Package>, t: Time, packages': map<Id, Package>, t': Time)
    requires PackagesWithin(limits, packages, t)
    requires t <= t'
    requires forall p :: p in packages' ==> p in packages && packages'[p] == packages[p]
    ensures PackagesWithin(limits, packages', t')
  {
    forall a ensures PackagesWithinFor(limits, RetainedBytes(packages', a, t')) {
      assert PackagesWithinFor(limits, RetainedBytes(packages, a, t));
      MapCountShrinks(RetainedBytes(packages', a, t'), RetainedBytes(packages, a, t));
      TotalShrinks(RetainedBytes(packages', a, t'), RetainedBytes(packages, a, t));
    }
  }

  lemma MessagesShrink(limits: Limits, messages: map<Id, Message>, t: Time, messages': map<Id, Message>, t': Time)
    requires MessagesWithin(limits, messages, t)
    requires t <= t'
    requires forall m :: m in messages' ==> m in messages && messages'[m] == messages[m]
    ensures MessagesWithin(limits, messages', t')
  {
    forall o ensures |UnexpiredMessages(messages', o, t')| <= limits.maxMessages {
      CountShrinks(UnexpiredMessages(messages', o, t'), UnexpiredMessages(messages, o, t));
    }
  }

  /** Whatever is live now was live before. */
  lemma BlobsShrink(limits: Limits, blobs: map<Id, Blob>, t: Time, blobs': map<Id, Blob>, t': Time)
    requires BlobsWithin(limits, blobs, t)
    requires forall b :: b in blobs' && blobs'[b].retainUntil > t' ==>
      b in blobs && blobs[b].retainUntil > t && blobs'[b].owner == blobs[b].owner && blobs'[b].size == blobs[b].size
    ensures BlobsWithin(limits, blobs', t')
  {
    forall o ensures Total(LiveBlobBytes(blobs', o, t')) <= limits.quotaBytes {
      TotalShrinks(LiveBlobBytes(blobs', o, t'), LiveBlobBytes(blobs, o, t));
    }
  }

  // ---- rows come in ----

  lemma RetainedAfterFan(packages: map<Id, Package>, id: Id, row: Package, now: Time, a: Did)
    requires id !in packages && row.expiresAt > now
    ensures var retained := RetainedBytes(packages, a, now);
      && id !in retained
      && RetainedBytes(packages[id := row], a, now) == if a == row.account then retained[id := row.bytes] else retained
  {
  }

  lemma WithinAfterOne(limits: Limits, retained: map<Id, nat>, id: Id, bytes: nat)
    requires id !in retained && |retained| < limits.maxMessages && Total(retained) + bytes <= limits.maxRetainedBytes
    ensures PackagesWithinFor(limits, retained[id := bytes])
  {
    TotalAdds(retained, id, bytes);
    assert retained[id := bytes].Keys == retained.Keys + {id};
  }

  lemma PackagesGrow(limits: Limits, packages: map<Id, Package>, id: Id, row: Package, now: Time)
    requires PackagesWithin(limits, packages, now)
    requires id !in packages && row.expiresAt > now && HasRoom(limits, packages, row.account, row.bytes, now)
    ensures PackagesWithin(limits, packages[id := row], now)
  {
    hide RetainedBytes, PackagesWithinFor, Total;
    RetainedAfterFan(packages, id, row, now, row.account);
    WithinAfterOne(limits, RetainedBytes(packages, row.account, now), id, row.bytes);
    var packages' := packages[id := row];
    forall a ensures PackagesWithinFor(limits, RetainedBytes(packages', a, now)) {
      RetainedAfterFan(packages, id, row, now, a);
    }
  }

  lemma MessagesGrow(limits: Limits, messages: map<Id, Message>, id: Id, row: Message, now: Time)
    requires MessagesWithin(limits, messages, now)
    requires |UnexpiredMessages(messages, row.owner, now)| < limits.maxMessages
    ensures MessagesWithin(limits, messages[id := row], now)
  {
    var messages' := messages[id := row];
    forall o ensures |UnexpiredMessages(messages', o, now)| <= limits.maxMessages {
      if o == row.owner {
        CountShrinks(UnexpiredMessages(messages', o, now), UnexpiredMessages(messages, o, now) + {id});
      } else {
        CountShrinks(UnexpiredMessages(messages', o, now), UnexpiredMessages(messages, o, now));
      }
    }
  }

  lemma LiveAfterOne(blobs: map<Id, Blob>, id: Id, row: Blob, now: Time, o: Did)
    requires id in blobs ==> blobs[id].retainUntil <= now
    ensures var live := LiveBlobBytes(blobs, o, now);
      && id !in live
      && LiveBlobBytes(blobs[id := row], o, now) == if o == row.owner && row.retainUntil > now then live[id := row.size] else live
  {
  }

  /** A row not live before, with room for its size, may come in or come back. */
  lemma BlobsGrow(limits: Limits, blobs: map<Id, Blob>, id: Id, row: Blob, now: Time)
    requires BlobsWithin(limits, blobs, now)
    requires id in blobs ==> blobs[id].retainUntil <= now
    requires HasBlobRoom(limits, blobs, row.owner, row.size, now)
    ensures BlobsWithin(limits, blobs[id := row], now)
  {
    hide LiveBlobBytes, Total;
    LiveAfterOne(blobs, id, row, now, row.owner);
    TotalAdds(LiveBlobBytes(blobs, row.owner, now), id, row.size);
    var blobs' := blobs[id := row];
    forall o ensures Total(LiveBlobBytes(blobs', o, now)) <= limits.quotaBytes {
      LiveAfterOne(blobs, id, row, now, o);
    }
  }

  lemma RenewalOfOne(blobs: map<Id, Blob>, b: Id, retainUntil: Time)
    requires b in blobs
    ensures RenewedBlobs(blobs, {b}, retainUntil) == blobs[b := Renewed(blobs[b], retainUntil)]
  {
  }

  lemma BlobsAfterKeep(limits: Limits, db: Db, keep: Keep, now: Time)
    requires BlobsWithin(limits, db.blobs, now) && OnePerHash(db.blobs) && keep.id !in db.blobs
    ensures BlobsWithin(limits, KeptBlobs(limits, db, keep, now), now)
  {
    hide BlobsWithin, HasBlobRoom, RenewedBlobs;
    var held := BlobNamed(db.blobs, keep.owner, keep.hash);
    if MayKeep(limits, db, keep, now) {
      if held == {} {
        BlobsGrow(limits, db.blobs, keep.id, Blob(keep.owner, keep.hash, keep.size, now, None, keep.retainUntil), now);
      } else {
        var b :| b in held;
        NamedOnce(db.blobs, keep.owner, keep.hash, b);
        RenewalOfOne(db.blobs, b, keep.retainUntil);
        var row := Renewed(db.blobs[b], keep.retainUntil);
        if db.blobs[b].retainUntil > now {
          BlobsShrink(limits, db.blobs, now, db.blobs[b := row], now);
        } else {
          BlobsGrow(limits, db.blobs, b, row, now);
        }
      }
    }
  }

  lemma MembersAfterEnrollment(limits: Limits, replicas: map<Did, Replica>, recipients: map<Did, Recipient>, replica: Did, row: Replica)
    requires MembersWithin(limits, replicas, recipients)
    requires |ActiveMembers(replicas, row.account)| < limits.maxReplicas && replica !in replicas
    ensures MembersWithin(limits, replicas[replica := row], recipients)
  {
    var replicas' := replicas[replica := row];
    forall a ensures |ActiveMembers(replicas', a)| <= limits.maxReplicas {
      if a == row.account {
        CountShrinks(ActiveMembers(replicas', a), ActiveMembers(replicas, a) + {replica});
      } else {
        CountShrinks(ActiveMembers(replicas', a), ActiveMembers(replicas, a));
      }
    }
  }

  lemma MembersAfterSharing(limits: Limits, replicas: map<Did, Replica>, recipients: map<Did, Recipient>, recipient: Did, row: Recipient)
    requires MembersWithin(limits, replicas, recipients)
    requires |RecipientsOf(recipients, row.account)| < limits.maxRecipients && recipient !in recipients
    ensures MembersWithin(limits, replicas, recipients[recipient := row])
  {
    var recipients' := recipients[recipient := row];
    forall a ensures |RecipientsOf(recipients', a)| <= limits.maxRecipients {
      if a == row.account {
        CountShrinks(RecipientsOf(recipients', a), RecipientsOf(recipients, a) + {recipient});
      } else {
        CountShrinks(RecipientsOf(recipients', a), RecipientsOf(recipients, a));
      }
    }
  }

  lemma MembersShrink(limits: Limits, replicas: map<Did, Replica>, recipients: map<Did, Recipient>, replicas': map<Did, Replica>, recipients': map<Did, Recipient>)
    requires MembersWithin(limits, replicas, recipients)
    requires forall r :: r in replicas' ==>
      r in replicas && replicas'[r].account == replicas[r].account && (replicas'[r].removedAt.None? ==> replicas[r].removedAt.None?)
    requires forall d :: d in recipients' ==> d in recipients && recipients'[d].account == recipients[d].account
    ensures MembersWithin(limits, replicas', recipients')
  {
    forall a ensures |ActiveMembers(replicas', a)| <= limits.maxReplicas {
      CountShrinks(ActiveMembers(replicas', a), ActiveMembers(replicas, a));
    }
    forall a ensures |RecipientsOf(recipients', a)| <= limits.maxRecipients {
      CountShrinks(RecipientsOf(recipients', a), RecipientsOf(recipients, a));
    }
  }

  lemma ExecutionsGrow(limits: Limits, executions: map<Id, Execution>, account: Did, executionId: Text, id: Id, now: Time, a: Did)
    requires |ExecutionsOf(executions, a)| <= limits.maxRetained && id !in executions
    ensures |ExecutionsOf(WithExecution(limits, executions, account, executionId, id, now), a)| <= limits.maxRetained
  {
    hide FindExecution;
    var executions' := WithExecution(limits, executions, account, executionId, id, now);
    if executions' != executions {
      if a == account {
        CountShrinks(ExecutionsOf(executions', a), ExecutionsOf(executions, a) + {id});
      } else {
        CountShrinks(ExecutionsOf(executions', a), ExecutionsOf(executions, a));
      }
    }
  }

  lemma PlacesGrow(limits: Limits, registrations: map<Slot, nat>, registration: Id, replica: Did, e: Id)
    requires |Places(registrations, e)| <= limits.maxListed
    ensures |Places(WithCaller(limits, registrations, registration, replica), e)| <= limits.maxListed
  {
    var registrations' := WithCaller(limits, registrations, registration, replica);
    if registrations' != registrations {
      if e == registration {
        CountShrinks(Places(registrations', e).Keys, Places(registrations, e).Keys + {replica});
      } else {
        CountShrinks(Places(registrations', e).Keys, Places(registrations, e).Keys);
      }
    }
  }

  lemma ExecutionsShrink(limits: Limits, executions: map<Id, Execution>, registrations: map<Slot, nat>, gone: set<Id>)
    requires ExecutionsWithin(limits, executions, registrations)
    ensures ExecutionsWithin(limits, executions - gone, SlotsWithout(registrations, gone))
  {
    forall a ensures |ExecutionsOf(executions - gone, a)| <= limits.maxRetained {
      CountShrinks(ExecutionsOf(executions - gone, a), ExecutionsOf(executions, a));
    }
    var registrations' := SlotsWithout(registrations, gone);
    forall e ensures |Places(registrations', e)| <= limits.maxListed {
      CountShrinks(Places(registrations', e).Keys, Places(registrations, e).Keys);
    }
  }

  // ---- every call, at the moment it is made ----

  lemma PackagesAfter(limits: Limits, db: Db, op: Op, now: Time)
    requires Usable(db, op)
    requires PackagesWithin(limits, db.packages, now)
    ensures PackagesWithin(limits, Step(limits, db, op, now).packages, now)
  {
    hide PackagesWithin, OrdinaryStep, MembershipStep, MailStep, ExecutionStep, BlobStep;
    match op
    case Ordinary(o) => OrdinaryFrame(limits, db, o, now);
    case Membership(m) =>
      FewerPackagesAfterMembership(limits, db, m, now);
      PackagesShrink(limits, db.packages, now, MembershipStep(limits, db, m, now).packages, now);
    case Mail(m) => PackagesAfterMail(limits, db, m, now);
    case Executions(e) => ExecutionFrame(limits, db, e, now);
    case Blobs(b) => BlobFrame(limits, db, b, now);
  }

  lemma FewerPackagesAfterMembership(limits: Limits, db: Db, op: MembershipOp, now: Time)
    ensures var r := MembershipStep(limits, db, op, now);
      forall p :: p in r.packages ==> p in db.packages && r.packages[p] == db.packages[p]
  {
    hide LastAmong, DeliveriesWithout, UploadsWithout, SlotsWithout, BlobsOf, Members, PackagesOf,
      RegisterReplicaAccount, AddReplica, AddSharedRecipient, RemoveSharedRecipient;
  }

  lemma PackagesAfterMail(limits: Limits, db: Db, op: MailOp, now: Time)
    requires IdsUsable(db, op)
    requires PackagesWithin(limits, db.packages, now)
    ensures PackagesWithin(limits, MailStep(limits, db, op, now).packages, now)
  {
    hide PackagesWithin, LastAmong, DeliveriesWithout, MessagesAfter, NewDeliveries, FreshFor, Route, Targets, HasRoom, NextRowid;
    var r := MailStep(limits, db, op, now);
    match op
    case Fan(parcel, id, ids) =>
      if Accepts(limits, db, parcel, now) {
        PackagesGrow(limits, db.packages, id, r.packages[id], now);
      }
    case _ => PackagesShrink(limits, db.packages, now, r.packages, now);
  }

  lemma MessagesAfterCall(limits: Limits, db: Db, op: Op, now: Time)
    requires Usable(db, op)
    requires MessagesWithin(limits, db.messages, now)
    ensures MessagesWithin(limits, Step(limits, db, op, now).messages, now)
  {
    hide MessagesWithin, OrdinaryStep, MembershipStep, MailStep, ExecutionStep, BlobStep;
    match op
    case Ordinary(o) => MessagesAfterOrdinary(limits, db, o, now);
    case Membership(m) => MembershipFrame(limits, db, m, now);
    case Mail(m) => MessagesAfterMail(limits, db, m, now);
    case Executions(e) => ExecutionFrame(limits, db, e, now);
    case Blobs(b) => BlobFrame(limits, db, b, now);
  }

  lemma MessagesAfterOrdinary(limits: Limits, db: Db, op: OrdinaryOp, now: Time)
    requires MessagesWithin(limits, db.messages, now)
    ensures MessagesWithin(limits, OrdinaryStep(limits, db, op, now).messages, now)
  {
    hide MessagesWithin, GrantMediation, AddRecipient, RemoveRecipient, KeysWithout, UploadsWithout, UnexpiredMessages;
    var r := OrdinaryStep(limits, db, op, now);
    match op
    case Store(owner, packed, id) =>
      if StoreOutcomeOf(limits, db, owner, now).Stored? {
        MessagesGrow(limits, db.messages, id, r.messages[id], now);
      }
    case Revoke(did) => MessagesShrink(limits, db.messages, now, r.messages, now);
    case Delete(owner, ids) => MessagesShrink(limits, db.messages, now, r.messages, now);
    case _ =>
  }

  lemma MessagesAfterMail(limits: Limits, db: Db, op: MailOp, now: Time)
    requires IdsUsable(db, op)
    requires MessagesWithin(limits, db.messages, now)
    ensures MessagesWithin(limits, MailStep(limits, db, op, now).messages, now)
  {
    hide MessagesWithin, FanOut, AcknowledgeDeliveries, FreshFor, DeliveriesWithout;
    if op.PurgeMail? {
      MessagesShrink(limits, db.messages, now, MessagesAfter(db.messages, now), now);
    }
  }

  lemma BlobsAfter(limits: Limits, db: Db, op: Op, now: Time)
    requires Usable(db, op)
    requires BlobsWithin(limits, db.blobs, now) && OnePerHash(db.blobs) && NewIds(op) !! db.blobs.Keys
    ensures BlobsWithin(limits, Step(limits, db, op, now).blobs, now)
  {
    hide BlobsWithin, OnePerHash, OrdinaryStep, MembershipStep, MailStep, ExecutionStep, BlobStep;
    match op
    case Ordinary(o) =>
      FewerBlobsAfterOrdinary(limits, db, o, now);
      BlobsShrink(limits, db.blobs, now, OrdinaryStep(limits, db, o, now).blobs, now);
    case Membership(m) =>
      FewerBlobsAfterMembership(limits, db, m, now);
      BlobsShrink(limits, db.blobs, now, MembershipStep(limits, db, m, now).blobs, now);
    case Mail(m) => MailFrame(limits, db, m, now);
    case Executions(e) => ExecutionFrame(limits, db, e, now);
    case Blobs(b) =>
      assert b.KeepOne? ==> b.keep.id in NewIds(op);
      BlobsAfterBlobs(limits, db, b, now);
  }

  lemma FewerBlobsAfterOrdinary(limits: Limits, db: Db, op: OrdinaryOp, now: Time)
    ensures var r := OrdinaryStep(limits, db, op, now);
      forall b :: b in r.blobs ==> b in db.blobs && r.blobs[b] == db.blobs[b]
  {
    hide GrantMediation, AddRecipient, RemoveRecipient, StoreMessage, DeleteMessages, KeysWithout, MessagesWithout, UploadsWithout, BlobsOf;
  }

  lemma FewerBlobsAfterMembership(limits: Limits, db: Db, op: MembershipOp, now: Time)
    ensures var r := MembershipStep(limits, db, op, now);
      forall b :: b in r.blobs ==> b in db.blobs && r.blobs[b] == db.blobs[b]
  {
    hide LastAmong, DeliveriesWithout, UploadsWithout, SlotsWithout, BlobsOf, Members, PackagesOf, BlobsOfAny,
      RegisterReplicaAccount, AddReplica, AddSharedRecipient, RemoveSharedRecipient;
  }

  lemma BlobsWithFewer(limits: Limits, blobs: map<Id, Blob>, gone: set<Id>, now: Time)
    requires BlobsWithin(limits, blobs, now)
    ensures BlobsWithin(limits, blobs - gone, now)
  {
    hide BlobsWithin;
    BlobsShrink(limits, blobs, now, blobs - gone, now);
  }

  lemma BlobsAfterMark(limits: Limits, blobs: map<Id, Blob>, id: Id, now: Time)
    requires BlobsWithin(limits, blobs, now)
    ensures BlobsWithin(limits, MarkedBlobs(blobs, id, now), now)
  {
    hide BlobsWithin;
    BlobsShrink(limits, blobs, now, MarkedBlobs(blobs, id, now), now);
  }

  lemma BlobsAfterBlobs(limits: Limits, db: Db, op: BlobOp, now: Time)
    requires BlobsWithin(limits, db.blobs, now) && OnePerHash(db.blobs)
    requires op.KeepOne? ==> op.keep.id !in db.blobs
    ensures BlobsWithin(limits, BlobStep(limits, db, op, now).blobs, now)
  {
    hide BlobsWithin, OnePerHash, KeptBlobs, MarkedBlobs, UploadsWithout, LiveUploads, GrantUpload, ClaimUpload, BlobNamed, LapsedBlobs;
    match op
    case KeepOne(keep) => BlobsAfterKeep(limits, db, keep, now);
    case DropOne(owner, hash) => BlobsWithFewer(limits, db.blobs, BlobNamed(db.blobs, owner, hash), now);
    case Mark(blob) => BlobsAfterMark(limits, db.blobs, blob, now);
    case PurgeBlobRows => BlobsWithFewer(limits, db.blobs, LapsedBlobs(db.blobs, now), now);
    case _ =>
  }

  lemma MembersAfter(limits: Limits, db: Db, op: Op, now: Time)
    requires Usable(db, op)
    requires MembersWithin(limits, db.replicas, db.recipients)
    ensures var r := Step(limits, db, op, now); MembersWithin(limits, r.replicas, r.recipients)
  {
    hide MembersWithin, OrdinaryStep, MembershipStep, MailStep, ExecutionStep, BlobStep;
    match op
    case Ordinary(o) => OrdinaryFrame(limits, db, o, now);
    case Membership(m) => MembersAfterMembership(limits, db, m, now);
    case Mail(m) => MailFrame(limits, db, m, now);
    case Executions(e) => ExecutionFrame(limits, db, e, now);
    case Blobs(b) => BlobFrame(limits, db, b, now);
  }

  lemma MembersAfterRemoval(limits: Limits, db: Db, account: Did, mediator: Did, replica: Did, now: Time)
    requires MembersWithin(limits, db.replicas, db.recipients)
    ensures MembersWithin(limits, RemoveReplica(db, account, mediator, replica, now).replicas, db.recipients)
  {
    hide MembersWithin, LastAmong, UploadsWithout, BlobsOf;
    var r := RemoveReplica(db, account, mediator, replica, now);
    MembersShrink(limits, db.replicas, db.recipients, r.replicas, db.recipients);
  }

  lemma MembersAfterDeletion(limits: Limits, db: Db, account: Did, mediator: Did)
    requires MembersWithin(limits, db.replicas, db.recipients)
    ensures var r := DeleteReplicaAccount(db, account, mediator); MembersWithin(limits, r.replicas, r.recipients)
  {
    hide MembersWithin, DeliveriesWithout, UploadsWithout, SlotsWithout, RecipientsOf, Members, BlobsOfAny, ExecutionsOf, PackagesOf;
    MembersShrink(limits, db.replicas, db.recipients,
      db.replicas - Members(db.replicas, account), db.recipients - RecipientsOf(db.recipients, account));
  }

  lemma MembersAfterMembership(limits: Limits, db: Db, op: MembershipOp, now: Time)
    requires MembersWithin(limits, db.replicas, db.recipients)
    ensures var r := MembershipStep(limits, db, op, now); MembersWithin(limits, r.replicas, r.recipients)
  {
    hide MembersWithin, NotOrdinary, Unbound, IsAccount, ActiveMembers, RecipientsOf, Ordinals, DeleteReplicaAccount, RemoveReplica;
    var r := MembershipStep(limits, db, op, now);
    match op
    case Register(did, longForm, mediator, create, id) =>
    case Enroll(account, mediator, replica, longForm, grant) =>
      if MayEnroll(limits, db, account, mediator, replica, longForm) {
        MembersAfterEnrollment(limits, db.replicas, db.recipients, replica, r.replicas[replica]);
      }
    case Share(account, mediator, recipient, longForm) =>
      if MayShare(limits, db, account, mediator, recipient, longForm) {
        MembersAfterSharing(limits, db.replicas, db.recipients, recipient, r.recipients[recipient]);
      }
    case RemoveMember(account, mediator, replica) => MembersAfterRemoval(limits, db, account, mediator, replica, now);
    case DeleteAccount(account, mediator) => MembersAfterDeletion(limits, db, account, mediator);
    case Unshare(account, mediator, recipient) =>
      MembersShrink(limits, db.replicas, db.recipients, db.replicas, db.recipients - {recipient});
  }

  lemma ExecutionsAfter(limits: Limits, db: Db, op: Op, now: Time)
    requires Usable(db, op)
    requires ExecutionsWithin(limits, db.executions, db.registrations) && NewIds(op) !! db.executions.Keys
    ensures var r := Step(limits, db, op, now); ExecutionsWithin(limits, r.executions, r.registrations)
  {
    hide ExecutionsWithin, OrdinaryStep, MembershipStep, MailStep, ExecutionStep, BlobStep;
    match op
    case Ordinary(o) => OrdinaryFrame(limits, db, o, now);
    case Membership(m) => ExecutionsAfterMembership(limits, db, m, now);
    case Mail(m) => MailFrame(limits, db, m, now);
    case Executions(e) =>
      assert e.Execute? ==> e.id in NewIds(op);
      ExecutionsAfterExecutions(limits, db, e, now);
    case Blobs(b) => BlobFrame(limits, db, b, now);
  }

  lemma ExecutionsAfterMembership(limits: Limits, db: Db, op: MembershipOp, now: Time)
    requires ExecutionsWithin(limits, db.executions, db.registrations)
    ensures var r := MembershipStep(limits, db, op, now); ExecutionsWithin(limits, r.executions, r.registrations)
  {
    hide ExecutionsWithin, LastAmong, DeliveriesWithout, UploadsWithout, SlotsWithout, BlobsOf, Members, PackagesOf, ExecutionsOf,
      RegisterReplicaAccount, AddReplica, AddSharedRecipient, RemoveSharedRecipient, RemoveReplica;
    if op.DeleteAccount? {
      ExecutionsShrink(limits, db.executions, db.registrations, ExecutionsOf(db.executions, op.account));
    }
  }

  lemma ExecutionsAfterExecute(limits: Limits, executions: map<Id, Execution>, registrations: map<Slot, nat>,
      account: Did, executionId: Text, id: Id, now: Time, found: Id, replica: Did)
    requires ExecutionsWithin(limits, executions, registrations) && id !in executions
    ensures ExecutionsWithin(limits, WithExecution(limits, executions, account, executionId, id, now),
                             WithCaller(limits, registrations, found, replica))
  {
    hide WithExecution, WithCaller, ExecutionsOf, Places;
    var executions' := WithExecution(limits, executions, account, executionId, id, now);
    forall a ensures |ExecutionsOf(executions', a)| <= limits.maxRetained {
      ExecutionsGrow(limits, executions, account, executionId, id, now, a);
    }
    var registrations' := WithCaller(limits, registrations, found, replica);
    forall e ensures |Places(registrations', e)| <= limits.maxListed {
      PlacesGrow(limits, registrations, found, replica, e);
    }
  }

  lemma ExecutionsAfterExecutions(limits: Limits, db: Db, op: ExecutionOp, now: Time)
    requires ExecutionsWithin(limits, db.executions, db.registrations)
    requires op.Execute? ==> op.id !in db.executions
    ensures var r := ExecutionStep(limits, db, op, now); ExecutionsWithin(limits, r.executions, r.registrations)
  {
    hide ExecutionsWithin, WithExecution, WithCaller, FindExecution, ExecutionsOf, Places, SlotsWithout, LapsedExecutions;
    match op
    case Execute(replica, mediator, executionId, id) =>
      var account := CallerAccount(db, replica, mediator);
      if account.Some? {
        var executions := WithExecution(limits, db.executions, account.value, executionId, id, now);
        var found := FindExecution(executions, account.value, executionId);
        if found.Some? {
          ExecutionsAfterExecute(limits, db.executions, db.registrations, account.value, executionId, id, now, found.value, replica);
        }
      }
    case PurgeRegistrations => ExecutionsShrink(limits, db.executions, db.registrations, LapsedExecutions(db.executions, now));
  }
}
