/**
 * Who is let in: in every run, what each call that binds a DID, or takes one
 * out, is answered, from who has the DID and how many there are.
 */
module Admission {
  import opened Dids
  import opened Tables
  import opened StoreSpec
  import opened StoreRuns
  import opened Exclusivity
  import opened Soundness
  import opened Spellings
  import opened Rows
  import Waiting
  import RosterPages
  import RecipientPages

  /** A grant leaves an account iff there was one or no row binds the DID. */
  lemma GrantAnswered(limits: Limits, worlds: seq<World>, calls: seq<Call>, i: nat, did: Did)
    requires IsRun(limits, worlds, calls) && i < |calls| && calls[i].op == Ordinary(Grant(did))
    ensures did in worlds[i + 1].db.accounts <==> did in worlds[i].db.accounts || !Bound(worlds[i].db, Canonical(did))
  {
    hide Sound, Step, Recorded, Usable, NewIds;
    assert Follows(limits, worlds[i], calls[i], worlds[i + 1]);
    RunsAreSound(limits, worlds, calls, i);
    AccountRows(limits, worlds[i], calls[i].op, calls[i].now, did);
  }

  /** A recipient is the owner's already, another's, bound by a row, of an owner with no account, or added. */
  lemma KeyAnswered(limits: Limits, worlds: seq<World>, calls: seq<Call>, i: nat, owner: Did, recipient: Did)
    requires IsRun(limits, worlds, calls) && i < |calls| && calls[i].op == Ordinary(AddKey(owner, recipient))
    ensures var db, r := worlds[i].db, worlds[i + 1].db; var answer := AddRecipientResultOf(db, owner, recipient);
      && (answer == AlreadyYours <==> recipient in db.keylist && db.keylist[recipient].owner == owner)
      && (answer == Taken <==> if recipient in db.keylist then db.keylist[recipient].owner != owner else Bound(db, Canonical(recipient)))
      && (answer == NoSuchOwner <==> recipient !in db.keylist && !Bound(db, Canonical(recipient)) && owner !in db.accounts)
      && (recipient in r.keylist && r.keylist[recipient].owner == owner <==> answer == RecipientAdded || answer == AlreadyYours)
  {
    hide Sound, DidsBound, Step, Recorded, Usable, NewIds, NotReplicaMediation, Bound;
    assert Follows(limits, worlds[i], calls[i], worlds[i + 1]);
    RunsAreSound(limits, worlds, calls, i);
    SoundTables(limits, worlds[i]);
    UnboundBothWays(worlds[i].db, recipient);
    KeylistRows(limits, worlds[i], calls[i].op, calls[i].now, recipient);
  }

  /** An account is registered iff it stood at that mediator, or is to be made and its DID is free; with the time it was made. */
  lemma RegistrationAnswered(limits: Limits, worlds: seq<World>, calls: seq<Call>, i: nat, did: Did, longForm: Did, mediator: Did, create: bool, id: Id)
    requires IsRun(limits, worlds, calls) && i < |calls| && calls[i].op == Membership(Register(did, longForm, mediator, create, id))
    ensures var db := worlds[i].db; var answer := RegisterOutcomeOf(worlds[i + 1].db, did, mediator, create);
      if did in db.replicaAccounts then
        answer == if db.replicaAccounts[did].mediator == mediator then Registered(db.replicaAccounts[did].createdAt / 1000) else AccountConflict
      else
        answer == if !create then Refused else if Free(db, did, longForm) then Registered(calls[i].now / 1000) else AccountConflict
  {
    hide Sound, Step, Recorded, Usable, NewIds, Free;
    assert Follows(limits, worlds[i], calls[i], worlds[i + 1]);
    RunsAreSound(limits, worlds, calls, i);
    ReplicaAccountRows(limits, worlds[i], calls[i].op, calls[i].now, did);
  }

  /** The account's replicas that are not removed. */
  function Active(db: Db, account: Did): (r: set<Did>) {
    set y | y in db.replicas && db.replicas[y].account == account && db.replicas[y].removedAt.None?
  }

  /**
   * A replica is added iff it is an active one of the account already, or its
   * DID is free and fewer than the limit are active; it is at the limit iff
   * it is nobody's replica and no fewer are.
   */
  lemma EnrollmentAnswered(limits: Limits, worlds: seq<World>, calls: seq<Call>, i: nat, account: Did, mediator: Did, replica: Did, longForm: Did, grant: Text)
    requires IsRun(limits, worlds, calls) && i < |calls| && calls[i].op == Membership(Enroll(account, mediator, replica, longForm, grant))
    ensures var db := worlds[i].db; var answer := AddReplicaOutcome(limits, worlds[i + 1].db, account, mediator, replica);
      && (answer == UnknownAccount <==> account !in db.replicaAccounts)
      && (StandsAt(db, account, mediator) ==>
            if replica in db.replicas then
              answer == if db.replicas[replica].account == account && db.replicas[replica].removedAt.None? then Added(db.replicas[replica].registeredAt) else Conflict
            else
              answer == if |Active(db, account)| >= limits.maxReplicas then AtLimit
                        else if Free(db, replica, longForm) then Added(calls[i].now / 1000) else Conflict)
      && (account in db.replicaAccounts && !StandsAt(db, account, mediator) ==> answer == Conflict)
  {
    hide Sound, Step, Recorded, Usable, NewIds, Free;
    assert Follows(limits, worlds[i], calls[i], worlds[i + 1]);
    RunsAreSound(limits, worlds, calls, i);
    var db, r := worlds[i].db, worlds[i + 1].db;
    ReplicaRows(limits, worlds[i], calls[i].op, calls[i].now, replica);
    EnrollKeepsRest(limits, db, calls[i].op.membership, calls[i].now);
    assert Active(db, account) == set y | y in db.replicas && db.replicas[y].account == account && db.replicas[y].removedAt.None?;
    if replica !in r.replicas {
      assert ActiveMembers(r.replicas, account) == Active(db, account);
    }
  }

  lemma EnrollKeepsRest(limits: Limits, db: Db, op: MembershipOp, now: Time)
    requires op.Enroll? && Usable(db, Membership(op))
    ensures var r := Step(limits, db, Membership(op), now);
      r.replicaAccounts == db.replicaAccounts && (op.replica !in r.replicas ==> r.replicas == db.replicas)
  {
    hide MayEnroll;
  }

  /** A recipient is shared iff it is the account's already, or its DID is free and there are fewer than the limit. */
  lemma SharingAnswered(limits: Limits, worlds: seq<World>, calls: seq<Call>, i: nat, account: Did, mediator: Did, recipient: Did, longForm: Did)
    requires IsRun(limits, worlds, calls) && i < |calls| && calls[i].op == Membership(Share(account, mediator, recipient, longForm))
    ensures var db := worlds[i].db; var answer := ShareOutcomeOf(worlds[i + 1].db, account, mediator, recipient, longForm);
      && (answer == UnknownAccount <==> !StandsAt(db, account, mediator))
      && (StandsAt(db, account, mediator) ==>
            if recipient in db.recipients then
              answer == if db.recipients[recipient].account == account then Added(db.recipients[recipient].createdAt / 1000) else Conflict
            else
              answer == if !Free(db, recipient, longForm) then Conflict
                        else if |set y | y in db.recipients && db.recipients[y].account == account| < limits.maxRecipients then Added(calls[i].now / 1000) else AtLimit)
  {
    hide Sound, DidsBound, Step, Recorded, Usable, NewIds, Free, Unbound;
    assert Follows(limits, worlds[i], calls[i], worlds[i + 1]);
    RunsAreSound(limits, worlds, calls, i);
    SoundTables(limits, worlds[i]);
    RecipientRows(limits, worlds[i], calls[i].op, calls[i].now, recipient);
    ShareKeepsRest(limits, worlds[i].db, calls[i].op.membership, calls[i].now);
    if recipient !in worlds[i].db.recipients {
      UnboundIsFree(worlds[i].db, recipient, longForm);
    }
  }

  lemma ShareKeepsRest(limits: Limits, db: Db, op: MembershipOp, now: Time)
    requires op.Share? && Usable(db, Membership(op))
    ensures var r := Step(limits, db, Membership(op), now);
      && r.replicaAccounts == db.replicaAccounts && (op.recipient !in r.recipients ==> r == db)
      && Spells(op.longForm, op.recipient)
  {
    hide MayShare;
  }

  lemma UnboundIsFree(db: Db, recipient: Did, longForm: Did)
    requires DidsBound(db) && Spells(longForm, recipient) && recipient !in db.recipients
    ensures Unbound(db, recipient, longForm) <==> Free(db, recipient, longForm)
  {
    LongFormsAreNoKeys(db, longForm);
  }

  /** A removal is answered for any replica of the account, with when it was first removed. */
  lemma RemovalAnswered(limits: Limits, worlds: seq<World>, calls: seq<Call>, i: nat, account: Did, mediator: Did, replica: Did)
    requires IsRun(limits, worlds, calls) && i < |calls| && calls[i].op == Membership(RemoveMember(account, mediator, replica))
    ensures var db := worlds[i].db; var answer := RemoveOutcomeOf(worlds[i + 1].db, account, mediator, replica);
      && (answer == NoAccountBound <==> !StandsAt(db, account, mediator))
      && (answer.Removed? <==> StandsAt(db, account, mediator) && replica in db.replicas && db.replicas[replica].account == account)
      && (answer.Removed? ==> answer.time == if db.replicas[replica].removedAt.Some? then db.replicas[replica].removedAt.value else calls[i].now / 1000)
  {
    hide Sound, Step, Recorded, Usable, NewIds, Free;
    assert Follows(limits, worlds[i], calls[i], worlds[i + 1]);
    RunsAreSound(limits, worlds, calls, i);
    ReplicaRows(limits, worlds[i], calls[i].op, calls[i].now, replica);
    ReplicaAccountRows(limits, worlds[i], calls[i].op, calls[i].now, account);
  }

  /** A recipient is unshared iff it is the account's. */
  lemma UnsharingAnswered(limits: Limits, worlds: seq<World>, calls: seq<Call>, i: nat, account: Did, mediator: Did, recipient: Did)
    requires IsRun(limits, worlds, calls) && i < |calls| && calls[i].op == Membership(Unshare(account, mediator, recipient))
    ensures var db, r := worlds[i].db, worlds[i + 1].db; var answer := UnshareOutcomeOf(db, account, mediator, recipient);
      && (answer == NoSuchAccount <==> !StandsAt(db, account, mediator))
      && (answer == Unshared <==> StandsAt(db, account, mediator) && recipient in db.recipients && db.recipients[recipient].account == account)
      && (answer == Unshared <==> recipient in db.recipients && recipient !in r.recipients)
  {
    hide Sound, Step, Recorded, Usable, NewIds, Free;
    assert Follows(limits, worlds[i], calls[i], worlds[i + 1]);
    RunsAreSound(limits, worlds, calls, i);
    RecipientRows(limits, worlds[i], calls[i].op, calls[i].now, recipient);
  }

  /** A message is stored iff its owner has an account and fewer wait than the limit, by the count the owner is told; it is full by that count alone. */
  lemma StoringAnswered(limits: Limits, worlds: seq<World>, calls: seq<Call>, i: nat, owner: Did, packed: Text, id: Id)
    requires IsRun(limits, worlds, calls) && i < |calls| && calls[i].op == Ordinary(OrdinaryOp.Store(owner, packed, id))
    ensures var db, r := worlds[i].db, worlds[i + 1].db; var answer := StoreOutcomeOf(limits, db, owner, calls[i].now);
      && (answer == Full <==> Waiting.MessageCount(db, owner, calls[i].now) >= limits.maxMessages)
      && (answer == Stored <==> id in r.messages)
      && (answer == Stored <==> owner in db.accounts && Waiting.MessageCount(db, owner, calls[i].now) < limits.maxMessages)
      && (answer == Stored ==> r.messages[id] == Message(owner, packed, calls[i].now, calls[i].now + limits.ttl))
  {
    hide Sound, Step, Recorded, Usable;
    assert Follows(limits, worlds[i], calls[i], worlds[i + 1]);
    RunsAreSound(limits, worlds, calls, i);
    SoundTables(limits, worlds[i]);
    assert id in NewIds(calls[i].op);
    MessageRows(limits, worlds[i], calls[i].op, calls[i].now, id);
    var db := worlds[i].db;
    assert UnexpiredMessages(db.messages, owner, calls[i].now) == set x | x in db.messages && db.messages[x].owner == owner && calls[i].now < db.messages[x].expiresAt;
  }

  // ---- what a listing says of a row ----

  /** In every run, each replica listed was enrolled by a call of the run, and its entry says that call's grant and second. */
  lemma {:induction false} EveryReplicaWasEnrolled(limits: Limits, worlds: seq<World>, calls: seq<Call>, n: nat, x: Did) returns (i: nat)
    requires IsRun(limits, worlds, calls) && n < |worlds| && x in worlds[n].db.replicas
    ensures i < n && calls[i].op.Membership? && calls[i].op.membership.Enroll? && calls[i].op.membership.replica == x
    ensures var call, entry := calls[i].op.membership, RosterPages.EntryOf(worlds[n].db, x);
      && worlds[n].db.replicas[x].account == call.account && worlds[n].db.replicas[x].longForm == call.longForm
      && entry.did == x && entry.grant == call.grant && entry.addedTime == calls[i].now / 1000
      && (entry.removedTime.Some? <==> worlds[n].db.replicas[x].removedAt.Some?)
      && (entry.removedTime.Some? ==> exists k :: i < k < n && RemovesMember(worlds[k].db, calls[k].op, x) && calls[k].now / 1000 == entry.removedTime.value)
  {
    hide Sound, Step, Recorded, Usable, NewIds, Free, RemovesMember;
    assert Follows(limits, worlds[n - 1], calls[n - 1], worlds[n]);
    RunsAreSound(limits, worlds, calls, n - 1);
    ReplicaRows(limits, worlds[n - 1], calls[n - 1].op, calls[n - 1].now, x);
    if x in worlds[n - 1].db.replicas {
      i := EveryReplicaWasEnrolled(limits, worlds, calls, n - 1, x);
    } else {
      i := n - 1;
    }
  }

  /** In every run, each recipient listed was shared by a call of the run, and is listed in the place of that call's moment. */
  lemma {:induction false} EveryRecipientWasShared(limits: Limits, worlds: seq<World>, calls: seq<Call>, n: nat, account: Did, after: Option<RecipientPages.Place>, p: RecipientPages.Place) returns (i: nat)
    requires IsRun(limits, worlds, calls) && n < |worlds| && p in RecipientPages.PlacesAfter(worlds[n].db.recipients, account, after)
    ensures i < n && calls[i].op.Membership? && calls[i].op.membership.Share? && calls[i].op.membership.recipient == p.did
    ensures calls[i].op.membership.account == account && calls[i].now == p.addedAt
  {
    hide Sound, Step, Recorded, Usable, NewIds, Free;
    assert Follows(limits, worlds[n - 1], calls[n - 1], worlds[n]);
    RunsAreSound(limits, worlds, calls, n - 1);
    RecipientRows(limits, worlds[n - 1], calls[n - 1].op, calls[n - 1].now, p.did);
    if p.did in worlds[n - 1].db.recipients {
      assert p in RecipientPages.PlacesAfter(worlds[n - 1].db.recipients, account, after);
      i := EveryRecipientWasShared(limits, worlds, calls, n - 1, account, after, p);
    } else {
      i := n - 1;
    }
  }

  /** In every run, a page lists recipients by the moment their calls shared them, and those of one moment by DID, each once. */
  lemma ListedAsShared(limits: Limits, worlds: seq<World>, calls: seq<Call>, n: nat, sender: Did, mediator: Did, cursor: Option<RecipientPages.Cursor>, limit: int, maxPage: nat,
                       k: nat, l: nat) returns (i: nat, j: nat)
    requires IsRun(limits, worlds, calls) && n < |worlds|
    requires RecipientPages.RecipientList(worlds[n].db, sender, mediator, cursor, limit, maxPage).Page?
    requires k < l < |RecipientPages.RecipientList(worlds[n].db, sender, mediator, cursor, limit, maxPage).entries|
    ensures var entries := RecipientPages.RecipientList(worlds[n].db, sender, mediator, cursor, limit, maxPage).entries;
      && i < n && j < n && Shares(calls[i], sender, entries[k].did) && Shares(calls[j], sender, entries[l].did)
      && (calls[i].now < calls[j].now || (calls[i].now == calls[j].now && entries[k].did.Short? && entries[l].did.Short? && entries[k].did.hash < entries[l].did.hash))
  {
    hide IsRun, RecipientPages.RecipientList, RecipientPages.Before, Sound;
    RecipientPages.PageAnswers(worlds[n].db, sender, mediator, cursor, limit, maxPage);
    var entries := RecipientPages.RecipientList(worlds[n].db, sender, mediator, cursor, limit, maxPage).entries;
    var p, q := entries[k], entries[l];
    assert p in entries && q in entries;
    i := EveryRecipientWasShared(limits, worlds, calls, n, sender, RecipientPages.PlaceIn(cursor), p);
    j := EveryRecipientWasShared(limits, worlds, calls, n, sender, RecipientPages.PlaceIn(cursor), q);
    RunsAreSound(limits, worlds, calls, n);
    SoundTables(limits, worlds[n]);
    ShortPlaces(worlds[n].db, p, q);
  }

  predicate Shares(call: Call, account: Did, recipient: Did) {
    call.op.Membership? && call.op.membership.Share? && call.op.membership.account == account && call.op.membership.recipient == recipient
  }

  lemma ShortPlaces(db: Db, p: RecipientPages.Place, q: RecipientPages.Place)
    requires DidsBound(db) && p.did in db.recipients && q.did in db.recipients && RecipientPages.Before(p, q)
    ensures p.addedAt < q.addedAt || (p.addedAt == q.addedAt && p.did.Short? && q.did.Short? && p.did.hash < q.did.hash)
  {
    assert Spells(db.recipients[p.did].longForm, p.did) && Spells(db.recipients[q.did].longForm, q.did);
  }

  // ---- removed replicas ----

  predicate IsRemoved(db: Db, replica: Did, account: Did) {
    replica in db.replicas && db.replicas[replica].account == account && db.replicas[replica].removedAt.Some?
  }

  /** In every run, a replica once removed is so in every later state, unless its account was deleted meanwhile. */
  lemma {:induction false} RemovedStays(limits: Limits, worlds: seq<World>, calls: seq<Call>, i: nat, n: nat, replica: Did, account: Did)
    requires IsRun(limits, worlds, calls) && i <= n < |worlds| && IsRemoved(worlds[i].db, replica, account)
    ensures IsRemoved(worlds[n].db, replica, account) || exists k :: i <= k < n && Deletes(worlds[k].db, calls[k].op, account)
    decreases n
  {
    hide Sound, Step, Recorded, Usable, NewIds, Free, Deletes;
    if n > i {
      RemovedStays(limits, worlds, calls, i, n - 1, replica, account);
      if IsRemoved(worlds[n - 1].db, replica, account) {
        assert Follows(limits, worlds[n - 1], calls[n - 1], worlds[n]);
        RunsAreSound(limits, worlds, calls, n - 1);
        ReplicaRows(limits, worlds[n - 1], calls[n - 1].op, calls[n - 1].now, replica);
        assert replica !in worlds[n].db.replicas ==> Deletes(worlds[n - 1].db, calls[n - 1].op, account);
      }
    }
  }

  /** So no enrollment of it is answered as added again, by any account, while its own stands. */
  lemma RemovedIsNotAdded(limits: Limits, worlds: seq<World>, calls: seq<Call>, i: nat, j: nat, replica: Did, account: Did,
                          other: Did, mediator: Did, longForm: Did, grant: Text)
    requires IsRun(limits, worlds, calls) && i <= j < |calls| && IsRemoved(worlds[i].db, replica, account)
    requires calls[j].op == Membership(Enroll(other, mediator, replica, longForm, grant))
    requires forall k :: i <= k < j ==> !Deletes(worlds[k].db, calls[k].op, account)
    ensures !AddReplicaOutcome(limits, worlds[j + 1].db, other, mediator, replica).Added?
  {
    assert |worlds| == |calls| + 1;
    hide IsRun, Deletes, Free, AddReplicaOutcome;
    RemovedStays(limits, worlds, calls, i, j, replica, account);
    EnrollmentAnswered(limits, worlds, calls, j, other, mediator, replica, longForm, grant);
  }
}
