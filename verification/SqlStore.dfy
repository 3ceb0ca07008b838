/**
 * The store itself: each method runs its statements in order on the tables,
 * as one transaction, and is proved to be one step of the runs in StoreRuns.
 */
module SqlStore {
  import opened Dids
  import opened Tables
  import opened Sums
  import opened Numbering
  import opened Listing
  import Spec = StoreSpec
  import opened StoreRuns
  import opened Soundness
  import opened Exclusivity
  import opened Mail
  import opened Waiting
  import opened Registrations
  import BlobRows
  import Rosters
  import RosterPages
  import RecipientPages

  /** SUM over a column. */
  method SumOf(rows: map<Id, nat>) returns (n: nat)
    ensures n == Total(rows)
  {
    var left := rows;
    n := 0;
    while left != map[]
      invariant n + Total(left) == Total(rows)
      decreases |left|
    {
      var k :| k in left;
      TotalTakesOut(left, k);
      assert (left - {k}).Keys == left.Keys - {k};
      n := n + left[k];
      left := left - {k};
    }
  }

  /** The rowid SQLite gives the next row. */
  method NextRow(packages: map<Id, Package>) returns (n: nat)
    ensures n == Spec.NextRowid(packages)
  {
    var left := packages.Keys;
    n := 1;
    while left != {}
      invariant left <= packages.Keys
      invariant n >= 1
      invariant forall p :: p in packages.Keys - left ==> packages[p].rowid < n
      invariant n == 1 || exists p :: p in packages && packages[p].rowid == n - 1
    {
      var p :| p in left;
      if packages[p].rowid >= n {
        n := packages[p].rowid + 1;
      }
      left := left - {p};
    }
    NextIsOne(packages, n);
  }

  lemma NextIsOne(packages: map<Id, Package>, n: nat)
    requires n >= 1 && forall p :: p in packages ==> packages[p].rowid < n
    requires n == 1 || exists p :: p in packages && packages[p].rowid == n - 1
    ensures n == Spec.NextRowid(packages)
  {
    var m := Spec.NextRowid(packages);
    assert m == 1 || exists p :: p in packages && packages[p].rowid == m - 1;
  }

  class Store {
    const limits: Limits
    var accounts: map<Did, Time>
    var keylist: map<Did, KeyEntry>
    var messages: map<Id, Message>
    var replicaAccounts: map<Did, Account>
    var replicas: map<Did, Replica>
    var recipients: map<Did, Recipient>
    var packages: map<Id, Package>
    var deliveries: map<Id, Delivery>
    var executions: map<Id, Execution>
    var registrations: map<Slot, nat>
    var blobs: map<Id, Blob>
    var ended: set<Id>
    var uploads: map<Id, Upload>
    /** The run so far. */
    ghost var world: World

    function Now(): Db
      reads this
    {
      Db(accounts, keylist, messages, replicaAccounts, replicas, recipients, packages, deliveries, executions, registrations, blobs, ended, uploads)
    }

    ghost predicate Valid()
      reads this
    {
      world.db == Now() && Sound(limits, world)
    }

    constructor (limits: Limits)
      ensures Valid() && this.limits == limits && world == INITIAL
    {
      this.limits := limits;
      accounts, keylist, messages := map[], map[], map[];
      replicaAccounts, replicas, recipients := map[], map[], map[];
      packages, deliveries, executions, registrations := map[], map[], map[], map[];
      blobs, ended, uploads := map[], {}, map[];
      world := INITIAL;
      new;
      InitialSound(limits);
    }

    /** The call may be made now: its ids are new and the clock has not gone back. */
    ghost predicate MayCall(op: Op, now: Time)
      reads this
    {
      Valid() && Admissible(world, op, now)
    }

    /** The call was one step of the run. */
    ghost predicate Stepped(before: World, op: Op, now: Time)
      reads this
    {
      Valid() && Admissible(before, op, now) && world == Next(limits, before, op, now)
    }

    /** The transaction's statements have run: what they left is what the step is. */
    ghost method Commit(op: Op, now: Time)
      requires Sound(limits, world) && Admissible(world, op, now) && Now() == Step(limits, world.db, op, now)
      modifies this`world
      ensures Stepped(old(world), op, now)
    {
      hide Sound, Step, Recorded, Usable, NewIds;
      world := Next(limits, world, op, now);
      SoundKept(limits, old(world), op, now);
    }

    // ---- ordinary mediation ----

    method GrantMediation(did: Did, now: Time) returns (held: bool)
      requires MayCall(Ordinary(Grant(did)), now)
      modifies this
      ensures Stepped(old(world), Ordinary(Grant(did)), now)
      ensures held <==> did in accounts
    {
      hide Sound, Admissible, Next;
      if did !in accounts && Spec.NotReplicaMediation(Now(), did) {
        accounts := accounts[did := now];
      }
      held := did in accounts;
      Commit(Ordinary(Grant(did)), now);
    }

    /** Moves the blobs' ids out of the table; their upload tokens go with the rows. */
    method EndBlobs(which: set<Id>)
      modifies this`blobs, this`ended, this`uploads
      ensures blobs == old(blobs) - which && ended == old(ended) + which && uploads == Spec.UploadsWithout(old(uploads), which)
    {
      ended := ended + which;
      blobs := blobs - which;
      uploads := map t | t in uploads && uploads[t].blob !in which :: uploads[t];
    }

    /** The account's blobs, then the account, its recipients and messages with it. */
    method RevokeAll(did: Did)
      modifies this`blobs, this`ended, this`uploads, this`accounts, this`keylist, this`messages
      ensures Revoked(old(Now()), did, Now())
    {
      hide BlobsOf, Spec.UploadsWithout, Spec.KeysWithout, Spec.MessagesWithout;
      EndBlobs(BlobsOf(blobs, did));
      accounts := accounts - {did};
      keylist := Spec.KeysWithout(keylist, did);
      messages := Spec.MessagesWithout(messages, did);
    }

    method RevokeRows(did: Did)
      modifies this`blobs, this`ended, this`uploads, this`accounts, this`keylist, this`messages
      ensures Now() == Spec.RevokeMediation(old(Now()), did)
    {
      hide Spec.RevokeMediation, Revoked;
      ghost var db := Now();
      if did in accounts {
        RevokeAll(did);
      }
      RevocationDoes(db, did, Now());
    }

    method RevokeMediation(did: Did, now: Time)
      requires MayCall(Ordinary(Revoke(did)), now)
      modifies this
      ensures Stepped(old(world), Ordinary(Revoke(did)), now)
    {
      hide Sound, Admissible, Next, Spec.RevokeMediation;
      RevokeRows(did);
      Commit(Ordinary(Revoke(did)), now);
    }

    /** The answer is read off the owner before and after the insert; a row naming no account is refused at commit. */
    method AddRecipient(owner: Did, recipient: Did, now: Time) returns (r: Spec.AddRecipientResult)
      requires MayCall(Ordinary(AddKey(owner, recipient)), now)
      modifies this
      ensures Stepped(old(world), Ordinary(AddKey(owner, recipient)), now)
      ensures r == Spec.AddRecipientResultOf(old(Now()), owner, recipient)
    {
      hide Sound, Admissible, Next;
      var before := if recipient in keylist then Some(keylist[recipient].owner) else None;
      if Spec.NotReplicaMediation(Now(), recipient) && recipient !in keylist {
        if owner !in accounts {
          r := Spec.NoSuchOwner;
          Commit(Ordinary(AddKey(owner, recipient)), now);
          return;
        }
        keylist := keylist[recipient := KeyEntry(owner, now)];
      }
      var after := if recipient in keylist then Some(keylist[recipient].owner) else None;
      r := if after != Some(owner) then Spec.Taken else if before == Some(owner) then Spec.AlreadyYours else Spec.RecipientAdded;
      Commit(Ordinary(AddKey(owner, recipient)), now);
    }

    method RemoveRecipient(owner: Did, recipient: Did, now: Time) returns (removed: bool)
      requires MayCall(Ordinary(RemoveKey(owner, recipient)), now)
      modifies this
      ensures Stepped(old(world), Ordinary(RemoveKey(owner, recipient)), now)
      ensures removed <==> recipient in old(keylist) && old(keylist)[recipient].owner == owner
    {
      hide Sound, Admissible, Next;
      removed := recipient in keylist && keylist[recipient].owner == owner;
      if removed {
        keylist := keylist - {recipient};
      }
      Commit(Ordinary(RemoveKey(owner, recipient)), now);
    }

    method StoreMessage(owner: Did, packed: Text, id: Id, now: Time) returns (outcome: Spec.StoreOutcome)
      requires MayCall(Ordinary(OrdinaryOp.Store(owner, packed, id)), now)
      modifies this
      ensures Stepped(old(world), Ordinary(OrdinaryOp.Store(owner, packed, id)), now)
      ensures outcome == Spec.StoreOutcomeOf(limits, old(Now()), owner, now)
    {
      hide Sound, Admissible, Next, UnexpiredMessages;
      if |UnexpiredMessages(messages, owner, now)| >= limits.maxMessages {
        outcome := Spec.Full;
      } else if owner !in accounts {
        outcome := Spec.NoAccount;
      } else {
        messages := messages[id := Message(owner, packed, now, now + limits.ttl)];
        outcome := Spec.Stored;
      }
      Commit(Ordinary(OrdinaryOp.Store(owner, packed, id)), now);
    }

    /** One statement for each id, reporting in order those that deleted a row. */
    method DeleteEach(owner: Did, ids: seq<Id>) returns (deleted: seq<Id>)
      modifies this`messages
      ensures messages == old(messages) - Spec.Named(old(messages), owner, Spec.Asked(ids))
      ensures deleted == Spec.Reported(old(messages), owner, ids)
    {
      ghost var were := messages;
      assert Spec.Named(were, owner, Spec.Asked(ids[..0])) == {};
      deleted := [];
      for k := 0 to |ids|
        modifies this`messages
        invariant messages == were - Spec.Named(were, owner, Spec.Asked(ids[..k]))
        invariant deleted == Spec.Reported(were, owner, ids[..k])
      {
        hide Spec.Named, Spec.Reported, Spec.Asked;
        OneMoreAsked(were, owner, ids, k);
        if ids[k] in messages && messages[ids[k]].owner == owner {
          deleted := deleted + [ids[k]];
          messages := messages - {ids[k]};
        }
      }
      assert ids[..|ids|] == ids;
    }

    method DeleteMessages(owner: Did, ids: seq<Id>, now: Time) returns (deleted: seq<Id>)
      requires MayCall(Ordinary(Delete(owner, Spec.Asked(ids))), now)
      modifies this
      ensures Stepped(old(world), Ordinary(Delete(owner, Spec.Asked(ids))), now)
      ensures deleted == Spec.Reported(old(messages), owner, ids)
    {
      hide Sound, Admissible, Next, Spec.Named, Spec.Reported;
      deleted := DeleteEach(owner, ids);
      Commit(Ordinary(Delete(owner, Spec.Asked(ids))), now);
    }

    // ---- replica-mediation accounts, replicas and recipients ----

    method RegisterReplicaAccount(did: Did, longForm: Did, mediator: Did, create: bool, id: Id, now: Time) returns (outcome: Spec.RegisterOutcome)
      requires MayCall(Membership(Register(did, longForm, mediator, create, id)), now)
      modifies this
      ensures Stepped(old(world), Membership(Register(did, longForm, mediator, create, id)), now)
      ensures outcome == Spec.RegisterOutcomeOf(Now(), did, mediator, create)
    {
      hide Sound, Admissible, Next;
      if create && Spec.MayRegister(Now(), did, longForm) {
        replicaAccounts := replicaAccounts[did := Account(mediator, longForm, now, id)];
      }
      if did !in replicaAccounts {
        outcome := if create then Spec.AccountConflict else Spec.Refused;
      } else if replicaAccounts[did].mediator == mediator {
        outcome := Spec.Registered(replicaAccounts[did].createdAt / 1000);
      } else {
        outcome := Spec.AccountConflict;
      }
      Commit(Membership(Register(did, longForm, mediator, create, id)), now);
    }

    /** The account's mail and recipients, the deliveries found while the packages and replicas still say which. */
    method DeleteMail(account: Did)
      modifies this`deliveries, this`packages, this`recipients
      ensures deliveries == Spec.DeliveriesWithout(old(deliveries), PackagesOf(old(packages), account), Members(replicas, account))
      ensures packages == old(packages) - PackagesOf(old(packages), account)
      ensures recipients == old(recipients) - RecipientsOf(old(recipients), account)
    {
      hide *;
      deliveries := Spec.DeliveriesWithout(deliveries, PackagesOf(packages, account), Members(replicas, account));
      packages := packages - PackagesOf(packages, account);
      recipients := recipients - RecipientsOf(recipients, account);
    }

    /** Its executions, their listings with them. */
    method DeleteExecutions(account: Did)
      modifies this`executions, this`registrations
      ensures executions == old(executions) - ExecutionsOf(old(executions), account)
      ensures registrations == Spec.SlotsWithout(old(registrations), ExecutionsOf(old(executions), account))
    {
      hide *;
      var gone := ExecutionsOf(executions, account);
      executions := executions - gone;
      registrations := Spec.SlotsWithout(registrations, gone);
    }

    /** Its replicas with their blobs, and the account itself. */
    method DeleteMembers(account: Did)
      modifies this`blobs, this`ended, this`uploads, this`replicas, this`replicaAccounts
      ensures blobs == old(blobs) - Spec.BlobsOfAny(old(blobs), Members(old(replicas), account))
      ensures ended == old(ended) + Spec.BlobsOfAny(old(blobs), Members(old(replicas), account))
      ensures uploads == Spec.UploadsWithout(old(uploads), Spec.BlobsOfAny(old(blobs), Members(old(replicas), account)))
      ensures replicas == old(replicas) - Members(old(replicas), account) && replicaAccounts == old(replicaAccounts) - {account}
    {
      hide *;
      EndBlobs(Spec.BlobsOfAny(blobs, Members(replicas, account)));
      replicas := replicas - Members(replicas, account);
      replicaAccounts := replicaAccounts - {account};
    }

    /** All of it, in the order of the statements. */
    method DeleteAll(account: Did)
      modifies this`deliveries, this`packages, this`recipients, this`executions, this`registrations,
        this`blobs, this`ended, this`uploads, this`replicas, this`replicaAccounts
      ensures Deleted(old(Now()), account, Now())
    {
      hide PackagesOf, Members, ExecutionsOf, RecipientsOf, Spec.BlobsOfAny, Spec.DeliveriesWithout, Spec.SlotsWithout, Spec.UploadsWithout;
      DeleteMail(account);
      DeleteExecutions(account);
      DeleteMembers(account);
    }

    method DeleteRows(account: Did, mediator: Did)
      modifies this`deliveries, this`packages, this`recipients, this`executions, this`registrations,
        this`blobs, this`ended, this`uploads, this`replicas, this`replicaAccounts
      ensures Now() == Spec.DeleteReplicaAccount(old(Now()), account, mediator)
    {
      hide Spec.DeleteReplicaAccount, Spec.IsAccount, Deleted;
      ghost var db := Now();
      if Spec.IsAccount(Now(), account, mediator) {
        DeleteAll(account);
      }
      DeletionDoes(db, account, mediator, Now());
    }

    method DeleteReplicaAccount(account: Did, mediator: Did, now: Time) returns (bound: bool)
      requires MayCall(Membership(DeleteAccount(account, mediator)), now)
      modifies this
      ensures Stepped(old(world), Membership(DeleteAccount(account, mediator)), now)
      ensures bound == Spec.IsAccount(old(Now()), account, mediator)
    {
      hide Sound, Admissible, Next, Spec.DeleteReplicaAccount, Spec.IsAccount;
      bound := Spec.IsAccount(Now(), account, mediator);
      DeleteRows(account, mediator);
      Commit(Membership(DeleteAccount(account, mediator)), now);
    }

    method EnrollRow(account: Did, mediator: Did, replica: Did, longForm: Did, grant: Text, now: Time)
      modifies this`replicas
      ensures Now() == Spec.AddReplica(limits, old(Now()), account, mediator, replica, longForm, grant, now)
    {
      hide Ordinals, Spec.MayEnroll;
      ghost var db := Now();
      if Spec.MayEnroll(limits, Now(), account, mediator, replica, longForm) {
        replicas := replicas[replica := Replica(account, |Ordinals(replicas, account)| + 1, longForm, grant, now / 1000, None)];
        assert Now() == Spec.AddReplica(limits, db, account, mediator, replica, longForm, grant, now);
      } else {
        assert Now() == Spec.AddReplica(limits, db, account, mediator, replica, longForm, grant, now);
      }
    }

    /** Tells the outcomes apart by the rows there afterwards. */
    method ReadEnrollment(account: Did, mediator: Did, replica: Did) returns (outcome: Spec.AddOutcome)
      ensures outcome == Spec.AddReplicaOutcome(limits, Now(), account, mediator, replica)
    {
      hide ActiveMembers;
      if account !in replicaAccounts {
        outcome := Spec.UnknownAccount;
      } else if replicaAccounts[account].mediator != mediator {
        outcome := Spec.Conflict;
      } else if replica in replicas {
        outcome := if replicas[replica].account == account && replicas[replica].removedAt.None?
                   then Spec.Added(replicas[replica].registeredAt) else Spec.Conflict;
      } else {
        outcome := if |ActiveMembers(replicas, account)| >= limits.maxReplicas then Spec.AtLimit else Spec.Conflict;
      }
    }

    method AddReplica(account: Did, mediator: Did, replica: Did, longForm: Did, grant: Text, now: Time) returns (outcome: Spec.AddOutcome)
      requires MayCall(Membership(Enroll(account, mediator, replica, longForm, grant)), now)
      modifies this
      ensures Stepped(old(world), Membership(Enroll(account, mediator, replica, longForm, grant)), now)
      ensures outcome == Spec.AddReplicaOutcome(limits, Now(), account, mediator, replica)
    {
      hide Sound, Admissible, Next, Spec.AddReplica, Spec.AddReplicaOutcome;
      EnrollRow(account, mediator, replica, longForm, grant, now);
      outcome := ReadEnrollment(account, mediator, replica);
      Commit(Membership(Enroll(account, mediator, replica, longForm, grant)), now);
    }

    /** Two deletes: first every package all of whose deliveries are selected, which only the rows still there can tell, then those deliveries. */
    method EndDeliveries(which: set<Id>)
      modifies this`packages, this`deliveries
      ensures packages == old(packages) - Spec.LastAmong(old(deliveries), which)
      ensures deliveries == old(deliveries) - which
    {
      var ending := set d | d in deliveries && d in which :: deliveries[d].package;
      var staying := set d | d in deliveries && d !in which :: deliveries[d].package;
      packages := packages - (ending - staying);
      deliveries := deliveries - which;
      EndsLast(old(deliveries), which, ending, staying);
    }

    /** The row of a replica still active is marked as removed. */
    method MarkRemoved(replica: Did, now: Time)
      requires replica in replicas
      modifies this`replicas
      ensures replicas == old(replicas)[replica := Spec.RowRemoved(old(replicas)[replica], now)]
    {
      if replicas[replica].removedAt.None? {
        replicas := replicas[replica := replicas[replica].(removedAt := Some(now / 1000))];
      }
    }

    /** The replica's deliveries and blobs, and then its row as removed. */
    method RemoveAll(replica: Did, now: Time)
      requires replica in replicas
      modifies this`packages, this`deliveries, this`blobs, this`ended, this`uploads, this`replicas
      ensures Removed(old(Now()), replica, now, Now())
    {
      hide Spec.LastAmong, Spec.UploadsWithout, Spec.DeliveriesTo, BlobsOf, Spec.RowRemoved;
      EndDeliveries(Spec.DeliveriesTo(deliveries, replica));
      EndBlobs(BlobsOf(blobs, replica));
      MarkRemoved(replica, now);
    }

    method RemoveRow(account: Did, mediator: Did, replica: Did, now: Time)
      modifies this`packages, this`deliveries, this`blobs, this`ended, this`uploads, this`replicas
      ensures Now() == Spec.RemoveReplica(old(Now()), account, mediator, replica, now)
    {
      hide Spec.RemoveReplica, Removed;
      ghost var db := Now();
      if Spec.IsMember(Now(), account, mediator, replica) {
        RemoveAll(replica, now);
      }
      RemovalDoes(db, account, mediator, replica, now, Now());
    }

    method ReadRemoval(account: Did, mediator: Did, replica: Did) returns (outcome: Spec.RemoveOutcome)
      ensures outcome == Spec.RemoveOutcomeOf(Now(), account, mediator, replica)
    {
      if !Spec.IsAccount(Now(), account, mediator) {
        outcome := Spec.NoAccountBound;
      } else if replica in replicas && replicas[replica].account == account && replicas[replica].removedAt.Some? {
        outcome := Spec.Removed(replicas[replica].removedAt.value);
      } else {
        outcome := Spec.NotEnrolled;
      }
    }

    method RemoveReplica(account: Did, mediator: Did, replica: Did, now: Time) returns (outcome: Spec.RemoveOutcome)
      requires MayCall(Membership(RemoveMember(account, mediator, replica)), now)
      modifies this
      ensures Stepped(old(world), Membership(RemoveMember(account, mediator, replica)), now)
      ensures outcome == Spec.RemoveOutcomeOf(Now(), account, mediator, replica)
    {
      hide Sound, Admissible, Next, Spec.RemoveReplica, Spec.RemoveOutcomeOf;
      RemoveRow(account, mediator, replica, now);
      outcome := ReadRemoval(account, mediator, replica);
      Commit(Membership(RemoveMember(account, mediator, replica)), now);
    }

    method ShareRow(account: Did, mediator: Did, recipient: Did, longForm: Did, now: Time)
      modifies this`recipients
      ensures Now() == Spec.AddSharedRecipient(limits, old(Now()), account, mediator, recipient, longForm, now)
    {
      hide Spec.MayShare;
      ghost var db := Now();
      if Spec.MayShare(limits, Now(), account, mediator, recipient, longForm) {
        recipients := recipients[recipient := Recipient(account, longForm, now)];
        assert Now() == Spec.AddSharedRecipient(limits, db, account, mediator, recipient, longForm, now);
      } else {
        assert Now() == Spec.AddSharedRecipient(limits, db, account, mediator, recipient, longForm, now);
      }
    }

    method ReadSharing(account: Did, mediator: Did, recipient: Did, longForm: Did) returns (outcome: Spec.AddOutcome)
      ensures outcome == Spec.ShareOutcomeOf(Now(), account, mediator, recipient, longForm)
    {
      hide Spec.Unbound;
      if !Spec.IsAccount(Now(), account, mediator) {
        outcome := Spec.UnknownAccount;
      } else if recipient in recipients {
        outcome := if recipients[recipient].account == account then Spec.Added(recipients[recipient].createdAt / 1000) else Spec.Conflict;
      } else {
        outcome := if Spec.Unbound(Now(), recipient, longForm) then Spec.AtLimit else Spec.Conflict;
      }
    }

    method AddSharedRecipient(account: Did, mediator: Did, recipient: Did, longForm: Did, now: Time) returns (outcome: Spec.AddOutcome)
      requires MayCall(Membership(Share(account, mediator, recipient, longForm)), now)
      modifies this
      ensures Stepped(old(world), Membership(Share(account, mediator, recipient, longForm)), now)
      ensures outcome == Spec.ShareOutcomeOf(Now(), account, mediator, recipient, longForm)
    {
      hide Sound, Admissible, Next, Spec.AddSharedRecipient, Spec.ShareOutcomeOf;
      ShareRow(account, mediator, recipient, longForm, now);
      outcome := ReadSharing(account, mediator, recipient, longForm);
      Commit(Membership(Share(account, mediator, recipient, longForm)), now);
    }

    method RemoveSharedRecipient(account: Did, mediator: Did, recipient: Did, now: Time) returns (outcome: Spec.UnshareOutcome)
      requires MayCall(Membership(Unshare(account, mediator, recipient)), now)
      modifies this
      ensures Stepped(old(world), Membership(Unshare(account, mediator, recipient)), now)
      ensures outcome == Spec.UnshareOutcomeOf(old(Now()), account, mediator, recipient)
    {
      hide Sound, Admissible, Next;
      outcome := if Spec.IsAccount(Now(), account, mediator) then Spec.NoChange else Spec.NoSuchAccount;
      if Spec.IsAccount(Now(), account, mediator) && recipient in recipients && recipients[recipient].account == account {
        recipients := recipients - {recipient};
        outcome := Spec.Unshared;
      }
      Commit(Membership(Unshare(account, mediator, recipient)), now);
    }

    // ---- mail for replicas ----

    method AcknowledgeDeliveries(replica: Did, ids: set<Id>, now: Time)
      requires MayCall(Mail(Acknowledge(replica, ids)), now)
      modifies this
      ensures Stepped(old(world), Mail(Acknowledge(replica, ids)), now)
    {
      hide Sound, Admissible, Next, Spec.LastAmong, Spec.FreshFor;
      EndDeliveries(Spec.Acknowledged(deliveries, replica, ids));
      Commit(Mail(Acknowledge(replica, ids)), now);
    }

    method PurgeRows(now: Time) returns (purged: nat)
      modifies this`messages, this`deliveries, this`packages
      ensures Now() == Spec.PurgeExpired(old(Now()), now)
      ensures purged == Spec.PurgeCount(old(Now()), now)
    {
      hide Spec.DeliveriesWithout, Spec.MessagesAfter, Spec.LapsedPackages, Spec.ExpiredMessages;
      purged := |Spec.ExpiredMessages(messages, now)|;
      messages := Spec.MessagesAfter(messages, now);
      var lapsed := Spec.LapsedPackages(packages, now);
      deliveries := Spec.DeliveriesWithout(deliveries, lapsed, {});
      packages := packages - lapsed;
      purged := purged + |lapsed|;
    }

    method PurgeExpired(now: Time) returns (purged: nat)
      requires MayCall(Mail(PurgeMail), now)
      modifies this
      ensures Stepped(old(world), Mail(PurgeMail), now)
      ensures purged == Spec.PurgeCount(old(Now()), now)
    {
      hide Sound, Admissible, Next, Spec.FreshFor, Spec.PurgeExpired, Spec.PurgeCount;
      purged := PurgeRows(now);
      Commit(Mail(PurgeMail), now);
    }

    /** The accounts the DID routes to, the one sharing it and the one it is an active replica of: one row at most, the two kinds being apart. */
    function AccountRows(next: Did): (rows: seq<Did>)
      reads this
    {
      (if next in recipients then [recipients[next].account] else []) +
      (if IsActive(replicas, next) then [replicas[next].account] else [])
    }

    /** The insert of the package, once for every account row with room. */
    method InsertPackage(parcel: Spec.Parcel, id: Id, expiresAt: nat, now: Time)
      requires Exclusive(accounts, keylist, replicaAccounts, replicas, recipients) && id !in packages
      modifies this`packages
      ensures packages == InsertedPackage(limits, old(Now()), parcel, id, expiresAt, now)
    {
      hide Exclusive, RetainedBytes;
      RowsAreRoute(Now(), parcel.next);
      var rows := AccountRows(parcel.next);
      for k := 0 to |rows|
        modifies this`packages
        invariant k == 0 ==> packages == old(packages)
        invariant k == 1 ==> packages == InsertedPackage(limits, old(Now()), parcel, id, expiresAt, now)
      {
        var retained := RetainedBytes(packages, rows[k], now);
        var bytes := SumOf(retained);
        if |retained| < limits.maxMessages && bytes + parcel.bytes <= limits.maxRetainedBytes {
          var rowid := NextRow(packages);
          packages := packages[id := Package(rows[k], parcel.next, parcel.packed, parcel.bytes, now, expiresAt, rowid)];
        }
      }
    }

    method FanOutRows(parcel: Spec.Parcel, id: Id, ids: map<Did, Id>, now: Time) returns (outcome: Spec.FanOutOutcome)
      requires Exclusive(accounts, keylist, replicaAccounts, replicas, recipients) && Addressed(packages, deliveries, replicas)
      requires Spec.FreshFor(Now(), parcel.next, ids) && id !in packages
      modifies this`packages, this`deliveries
      ensures Now() == Spec.FanOut(limits, old(Now()), parcel, id, ids, now)
      ensures outcome == Spec.FanOutOutcomeOf(limits, old(Now()), parcel, id, ids, now)
    {
      hide Exclusive, Addressed, Spec.FanOut, Spec.FanOutOutcomeOf, Spec.NewDeliveries, InsertedPackage, TargetRows, RowsOf, Spec.Targets, Spec.Accepts;
      var expiresAt := Spec.ExpiryOf(limits, now, parcel.deadline);
      if expiresAt <= now {
        outcome := Spec.Lapsed;
        LapsedDoes(limits, Now(), parcel, id, ids, now);
        return;
      }
      ghost var db := Now();
      FanOutDoes(limits, db, parcel, id, ids, now);
      TargetRowsAreTargets(db, parcel.next);
      AddedAreOf(Spec.Targets(db, parcel.next), id, ids);
      RowsAreNew(packages, deliveries, replicas, Spec.NewDeliveries(Spec.Targets(db, parcel.next), id, ids), id);
      InsertPackage(parcel, id, expiresAt, now);
      if id in packages {
        deliveries := deliveries + Spec.NewDeliveries(TargetRows(replicas, recipients, parcel.next), id, ids);
        outcome := Spec.FannedOut(RowsOf(deliveries, id));
      } else {
        outcome := if AccountRows(parcel.next) == [] then Spec.Unknown else Spec.AccountFull;
      }
    }

    method FanOut(parcel: Spec.Parcel, id: Id, ids: map<Did, Id>, now: Time) returns (outcome: Spec.FanOutOutcome)
      requires MayCall(Mail(Fan(parcel, id, ids)), now)
      modifies this
      ensures Stepped(old(world), Mail(Fan(parcel, id, ids)), now)
      ensures Spec.FreshFor(old(Now()), parcel.next, ids) && outcome == Spec.FanOutOutcomeOf(limits, old(Now()), parcel, id, ids, now)
    {
      hide Sound, Next, Spec.FanOut, Spec.FanOutOutcomeOf, Exclusive, Addressed, Spec.FreshFor;
      FanOutMayRun(limits, world);
      outcome := FanOutRows(parcel, id, ids, now);
      Commit(Mail(Fan(parcel, id, ids)), now);
    }

    // ---- listings ----

    /** The account's replicas past one ordinal and up to another, by ordinal, the first `limit` of them. */
    method ReplicaRoster(account: Did, mediator: Did, after: nat, through: Option<int>, limit: nat) returns (r: Option<RosterPages.Roster>)
      requires Valid()
      ensures Rosters.Rostered(replicas) && r == RosterPages.RosterPage(Now(), account, mediator, after, through, limit)
    {
      hide Sound, Rosters.Rostered, Ordinals, Precedes, StrictTotalOn, Numbered, IsNumbering, Wanted, RosterPages.EntriesOf;
      RosterPages.RosteredIn(limits, world);
      if !Spec.IsAccount(Now(), account, mediator) {
        return None;
      }
      var ordinals := Ordinals(replicas, account);
      RosterIsNumbered(replicas, account);
      WantedIsSlice(ordinals, after, through, limit);
      var order := OrderBy(Wanted(ordinals, after, through), (a, b) => Precedes(ordinals, a, b));
      RowsAreEntries(Now(), account, after, through, limit);
      var entries := RowsFor(Now(), First(order, limit));
      NumberingCounts(ordinals, RosterPages.RosterOrder(Now(), account));
      r := Some(RosterPages.Roster(replicaAccounts[account].registration, |ordinals|, entries));
    }

    /** The account's recipients past a place, in order, the first `limit`, and whether there is one more. */
    method ListSharedRecipients(account: Did, mediator: Did, after: Option<RecipientPages.Place>, limit: nat) returns (r: Option<RecipientPages.SharedPage>)
      ensures r == RecipientPages.SharedRecipients(Now(), account, mediator, after, limit)
    {
      if !Spec.IsAccount(Now(), account, mediator) {
        return None;
      }
      hide RecipientPages.Before, RecipientPages.PlacesAfter, StrictTotalOn;
      var keys := RecipientPages.PlacesAfter(recipients, account, after);
      RecipientPages.PlacesAreTotal(keys);
      var rows := OrderBy(keys, RecipientPages.Before);
      r := Some(RecipientPages.SharedPage(replicaAccounts[account].registration, First(rows, limit), |rows| > limit));
    }

    // ---- execution registrations ----

    method SelectExecution(account: Did, executionId: Text) returns (found: Option<Id>)
      requires OnePerExecution(executions)
      ensures found == Spec.FindExecution(executions, account, executionId)
    {
      if e :| e in executions && Spec.Names(executions, e, account, executionId) {
        FoundOnce(executions, account, executionId, e);
        found := Some(e);
      } else {
        found := None;
      }
    }

    method InsertExecution(account: Did, executionId: Text, id: Id, now: Time)
      requires OnePerExecution(executions)
      modifies this`executions
      ensures executions == Spec.WithExecution(limits, old(executions), account, executionId, id, now)
    {
      hide OnePerExecution, ExecutionsOf;
      var found := SelectExecution(account, executionId);
      if |ExecutionsOf(executions, account)| < limits.maxRetained && found.None? {
        executions := executions[id := Execution(account, executionId, now / 1000, now / 1000 + limits.retainSeconds)];
      }
    }

    method RegisterRows(replica: Did, mediator: Did, executionId: Text, id: Id, now: Time)
      requires OnePerExecution(executions)
      modifies this`executions, this`registrations
      ensures Now() == Spec.RegisterExecution(limits, old(Now()), replica, mediator, executionId, id, now)
    {
      hide OnePerExecution, Spec.RegisterExecution, Spec.WithExecution, Spec.FindExecution, Spec.CallerAccount, Places;
      ghost var db := Now();
      RegistrationDoes(limits, db, replica, mediator, executionId, id, now);
      var account := Spec.CallerAccount(Now(), replica, mediator);
      if account.None? {
        return;
      }
      InsertExecution(account.value, executionId, id, now);
      OneAfterExecution(limits, db.executions, account.value, executionId, id, now);
      NotFoundNotMade(limits, db.executions, account.value, executionId, id, now);
      var found := SelectExecution(account.value, executionId);
      if found.Some? {
        var listed := |Places(registrations, found.value)|;
        if listed < limits.maxListed && Slot(found.value, replica) !in registrations {
          registrations := registrations[Slot(found.value, replica) := listed + 1];
        }
      }
    }

    /** The registration as it now stands, its replicas by their places. */
    method ReadRegistration(replica: Did, mediator: Did, executionId: Text) returns (outcome: Spec.ExecutionOutcome)
      requires OnePerExecution(executions) && PlacesNumbered(registrations)
      ensures outcome == Spec.ExecutionOutcomeOf(Now(), replica, mediator, executionId)
    {
      hide OnePerExecution, Spec.CallerAccount, Places, Numbered, StrictTotalOn, Precedes;
      var account := Spec.CallerAccount(Now(), replica, mediator);
      if account.None? {
        outcome := Spec.UnknownReplica;
        return;
      }
      var found := SelectExecution(account.value, executionId);
      if found.None? || Slot(found.value, replica) !in registrations {
        outcome := Spec.ExecutionFull;
        return;
      }
      var places := Places(registrations, found.value);
      NumberingIsListing(places);
      var order := OrderBy(places.Keys, (a, b) => Precedes(places, a, b));
      var row := executions[found.value];
      outcome := Spec.ExecutionRegistered(Spec.Snapshot(executionId, found.value, row.createdTime, row.retainUntil, order));
    }

    method RegisterExecution(replica: Did, mediator: Did, executionId: Text, id: Id, now: Time) returns (outcome: Spec.ExecutionOutcome)
      requires MayCall(Executions(Execute(replica, mediator, executionId, id)), now)
      modifies this
      ensures Stepped(old(world), Executions(Execute(replica, mediator, executionId, id)), now)
      ensures outcome == Spec.ExecutionOutcomeOf(Now(), replica, mediator, executionId)
    {
      hide Sound, Admissible, Next, Spec.RegisterExecution, Spec.ExecutionOutcomeOf, OnePerExecution, PlacesNumbered;
      ExecutionsMayRun(limits, world);
      RegisterRows(replica, mediator, executionId, id, now);
      Commit(Executions(Execute(replica, mediator, executionId, id)), now);
      ExecutionsMayRun(limits, world);
      outcome := ReadRegistration(replica, mediator, executionId);
    }

    method PurgeExecutions(now: Time) returns (purged: nat)
      requires MayCall(Executions(PurgeRegistrations), now)
      modifies this
      ensures Stepped(old(world), Executions(PurgeRegistrations), now)
      ensures purged == |Spec.LapsedExecutions(old(executions), now)|
    {
      hide Sound, Admissible, Next, Spec.LapsedExecutions, Spec.SlotsWithout;
      var lapsed := Spec.LapsedExecutions(executions, now);
      purged := |lapsed|;
      executions := executions - lapsed;
      registrations := Spec.SlotsWithout(registrations, lapsed);
      Commit(Executions(PurgeRegistrations), now);
    }

    // ---- blobs ----

    /** The insert of a new row, where there is room for it. */
    method InsertBlob(keep: Spec.Keep, owns: bool, now: Time)
      modifies this`blobs
      ensures blobs == if Spec.BlobNamed(old(blobs), keep.owner, keep.hash) == {} && owns && Spec.HasBlobRoom(limits, old(blobs), keep.owner, keep.size, now)
                       then old(blobs)[keep.id := Blob(keep.owner, keep.hash, keep.size, now, None, keep.retainUntil)] else old(blobs)
    {
      hide LiveBlobBytes, Spec.BlobNamed;
      var used := SumOf(LiveBlobBytes(blobs, keep.owner, now));
      if Spec.BlobNamed(blobs, keep.owner, keep.hash) == {} && owns && used + keep.size <= limits.quotaBytes {
        blobs := blobs[keep.id := Blob(keep.owner, keep.hash, keep.size, now, None, keep.retainUntil)];
      }
    }

    /** The update of the row there is, where its size agrees and it is live or there is room. */
    method RenewBlob(keep: Spec.Keep, owns: bool, now: Time) returns (agrees: bool, renews: bool)
      modifies this`blobs
      ensures agrees <==> forall b :: b in Spec.BlobNamed(old(blobs), keep.owner, keep.hash) ==> old(blobs)[b].size == keep.size
      ensures renews <==> agrees && owns && MayRenew(limits, old(blobs), keep, now)
      ensures blobs == if renews then Spec.RenewedBlobs(old(blobs), Spec.BlobNamed(old(blobs), keep.owner, keep.hash), keep.retainUntil) else old(blobs)
    {
      hide LiveBlobBytes, Spec.BlobNamed, Spec.RenewedBlobs;
      var named := Spec.BlobNamed(blobs, keep.owner, keep.hash);
      NamedAreHere(blobs, keep.owner, keep.hash);
      var used := SumOf(LiveBlobBytes(blobs, keep.owner, now));
      agrees := forall b :: b in named ==> blobs[b].size == keep.size;
      renews := agrees && owns && ((exists b :: b in named && blobs[b].retainUntil > now) || used + keep.size <= limits.quotaBytes);
      if renews {
        blobs := Spec.RenewedBlobs(blobs, named, keep.retainUntil);
      }
    }

    method KeepRow(keep: Spec.Keep, now: Time) returns (outcome: Spec.KeepOutcome)
      requires keep.id !in blobs
      modifies this`blobs
      ensures blobs == Spec.KeptBlobs(limits, old(Now()), keep, now)
      ensures outcome == Spec.KeepOutcomeOf(limits, old(Now()), Now(), keep, now)
    {
      hide HoldsBlobs, Spec.BlobNamed, Spec.RenewedBlobs, Spec.KeptBlobs, Spec.KeepOutcomeOf, MayRenew, Spec.HasBlobRoom;
      ghost var db := Now();
      var owns := HoldsBlobs(accounts, replicas, keep.owner);
      var known := Spec.BlobNamed(blobs, keep.owner, keep.hash) != {};
      InsertBlob(keep, owns, now);
      var created := !known && Spec.BlobNamed(blobs, keep.owner, keep.hash) != {};
      var agrees, renews := RenewBlob(keep, owns, now);
      var named := Spec.BlobNamed(blobs, keep.owner, keep.hash);
      if !owns {
        outcome := Spec.Ended;
      } else if named != {} && !agrees {
        outcome := Spec.Mismatch;
      } else if named == {} || !(created || renews) {
        outcome := Spec.QuotaFull;
      } else {
        outcome := Spec.Kept(named);
      }
      KeepDoes(limits, db, keep, now);
    }

    method KeepBlob(keep: Spec.Keep, now: Time) returns (outcome: Spec.KeepOutcome)
      requires MayCall(Blobs(KeepOne(keep)), now)
      modifies this
      ensures Stepped(old(world), Blobs(KeepOne(keep)), now)
      ensures outcome == Spec.KeepOutcomeOf(limits, old(Now()), Now(), keep, now)
    {
      hide Sound, Next, Spec.KeptBlobs, Spec.KeepOutcomeOf, Usable;
      BlobIdIsNew(limits, world, keep, now);
      outcome := KeepRow(keep, now);
      Commit(Blobs(KeepOne(keep)), now);
    }

    method DropBlob(owner: Did, hash: Text, now: Time) returns (dropped: set<Id>)
      requires MayCall(Blobs(DropOne(owner, hash)), now)
      modifies this
      ensures Stepped(old(world), Blobs(DropOne(owner, hash)), now)
      ensures dropped == Spec.BlobNamed(old(blobs), owner, hash)
    {
      hide Sound, Admissible, Next, Spec.BlobNamed, Spec.UploadsWithout;
      dropped := Spec.BlobNamed(blobs, owner, hash);
      blobs := blobs - dropped;
      uploads := Spec.UploadsWithout(uploads, dropped);
      Commit(Blobs(DropOne(owner, hash)), now);
    }

    method GrantUpload(blob: Id, expiresAt: Time, token: Id, now: Time)
      requires MayCall(Blobs(Token(blob, expiresAt, token)), now)
      modifies this
      ensures Stepped(old(world), Blobs(Token(blob, expiresAt, token)), now)
    {
      hide Sound, Admissible, Next;
      if blob in blobs {
        uploads := uploads[token := Upload(blob, expiresAt)];
      }
      Commit(Blobs(Token(blob, expiresAt, token)), now);
    }

    /** Read, then deleted whether it was live or not. */
    method ClaimUpload(token: Id, now: Time) returns (blob: Option<Id>)
      requires MayCall(Blobs(Claim(token)), now)
      modifies this
      ensures Stepped(old(world), Blobs(Claim(token)), now)
      ensures blob == Spec.ClaimOf(old(Now()), token, now)
    {
      hide Sound, Admissible, Next;
      blob := if token in uploads && uploads[token].expiresAt > now then Some(uploads[token].blob) else None;
      uploads := uploads - {token};
      Commit(Blobs(Claim(token)), now);
    }

    method MarkUploaded(blob: Id, now: Time)
      requires MayCall(Blobs(Mark(blob)), now)
      modifies this
      ensures Stepped(old(world), Blobs(Mark(blob)), now)
    {
      hide Sound, Admissible, Next;
      if blob in blobs && blobs[blob].uploadedAt.None? {
        blobs := blobs[blob := blobs[blob].(uploadedAt := Some(now))];
      }
      Commit(Blobs(Mark(blob)), now);
    }

    method PurgeBlobTables(now: Time) returns (gone: set<Id>)
      modifies this`blobs, this`ended, this`uploads
      ensures Now() == Spec.PurgeBlobs(old(Now()), now)
      ensures gone == Spec.PurgedBlobs(old(Now()), now)
    {
      hide Spec.LapsedBlobs, Spec.UploadsWithout, Spec.LiveUploads;
      var lapsed := Spec.LapsedBlobs(blobs, now);
      gone := lapsed + ended;
      blobs := blobs - lapsed;
      uploads := Spec.UploadsWithout(uploads, lapsed);
      ended := {};
      uploads := Spec.LiveUploads(uploads, now);
    }

    method PurgeBlobs(now: Time) returns (gone: set<Id>)
      requires MayCall(Blobs(PurgeBlobRows), now)
      modifies this
      ensures Stepped(old(world), Blobs(PurgeBlobRows), now)
      ensures gone == Spec.PurgedBlobs(old(Now()), now)
    {
      hide Sound, Admissible, Next, Spec.PurgeBlobs, Spec.PurgedBlobs;
      gone := PurgeBlobTables(now);
      Commit(Blobs(PurgeBlobRows), now);
    }

    // ---- what waits ----

    /** The first `limit` waiting, soonest first. */
    method DeliveriesFor(replica: Did, limit: nat, next: Option<Did>, now: Time) returns (r: seq<StoredMessage>)
      requires Valid()
      ensures Delivered(Now()) && r == Waiting.DeliveriesFor(Now(), replica, limit, next, now)
    {
      hide Sound, Sooner, StrictTotalOn, MessageOf, Delivered;
      var db := Now();
      DeliveredIn(limits, world);
      SoonerIsTotal(db, replica, next, now);
      OrderIsHere(db, replica, next, now);
      var order := OrderBy(WaitingFor(db, replica, next, now), (d, e) => Sooner(db, d, e));
      r := MessagesOf(db, First(order, limit));
    }

  }

  lemma ExecutionsMayRun(limits: Limits, w: World)
    requires Sound(limits, w)
    ensures OnePerExecution(w.db.executions) && PlacesNumbered(w.db.registrations)
  {
  }

  /** A replica before another by the place it has. */
  predicate Precedes(places: map<Did, nat>, a: Did, b: Did) {
    a in places && b in places && places[a] < places[b]
  }

  /** Rows numbered without a gap or a repeat are in strict order, and ordered are what the numbering lists. */
  lemma NumberingIsListing(places: map<Did, nat>)
    requires Numbered(places)
    ensures StrictTotalOn(places.Keys, (a, b) => Precedes(places, a, b))
    ensures Sorted(places.Keys, (a, b) => Precedes(places, a, b)) == OrderOf(places)
  {
    var order, less := OrderOf(places), (a, b) => Precedes(places, a, b);
    forall a, b | a in places && b in places && a != b ensures less(a, b) || less(b, a) {
      assert order[places[a] - 1] == a && order[places[b] - 1] == b;
    }
    assert Ascending(order, less);
    forall k ensures k in places.Keys <==> k in order {
      if k in places {
        assert order[places[k] - 1] == k;
      }
    }
    ListingUnique(Sorted(places.Keys, less), order, places.Keys, less, less);
  }

  /** The members whose ordinals a page is asked for. */
  function Wanted(ordinals: map<Did, nat>, after: nat, through: Option<int>): (r: set<Did>) {
    set d | d in ordinals && ordinals[d] > after && (through.None? || ordinals[d] <= through.value)
  }

  lemma RosterIsNumbered(replicas: map<Did, Replica>, account: Did)
    requires Rosters.Rostered(replicas)
    ensures Numbered(Ordinals(replicas, account))
  {
  }

  predicate AllMembers(db: Db, dids: seq<Did>) {
    forall i :: 0 <= i < |dids| ==> dids[i] in db.replicas
  }

  function RowsFor(db: Db, dids: seq<Did>): (r: seq<RosterPages.Entry>)
    requires AllMembers(db, dids)
  {
    seq(|dids|, i requires 0 <= i < |dids| => RosterPages.EntryOf(db, dids[i]))
  }

  /** The part of an order a page takes. */
  function Slice(order: seq<Did>, after: nat, upto: int): (r: seq<Did>)
    requires upto <= |order|
  {
    if after <= upto then order[after..upto] else []
  }

  lemma OrderIsOfMembers(db: Db, account: Did)
    requires Rosters.Rostered(db.replicas)
    ensures AllMembers(db, RosterPages.RosterOrder(db, account))
  {
    hide Rosters.Rostered;
    var order := RosterPages.RosterOrder(db, account);
    assert forall i :: 0 <= i < |order| ==> order[i] in Ordinals(db.replicas, account);
  }

  lemma RowsAreEntries(db: Db, account: Did, after: nat, through: Option<int>, limit: nat)
    requires Rosters.Rostered(db.replicas)
    ensures var order := RosterPages.RosterOrder(db, account); var upto := RosterPages.Upto(|order|, after, through, limit);
      var page := Slice(order, after, upto);
      AllMembers(db, page) && RowsFor(db, page) == RosterPages.EntriesOf(db, account, after, upto)
  {
    hide Rosters.Rostered, RosterPages.RosterOrder, IsNumbering, Ordinals, RosterPages.EntryOf;
    OrderIsOfMembers(db, account);
  }

  lemma WantedMembers(ordinals: map<Did, nat>, order: seq<Did>, after: nat, through: Option<int>, end: int)
    requires IsNumbering(ordinals, order) && end == if through.Some? && through.value < |order| then through.value else |order|
    ensures forall d :: d in Wanted(ordinals, after, through) <==> d in Slice(order, after, end)
  {
    var slice, wanted := Slice(order, after, end), Wanted(ordinals, after, through);
    forall d | d in wanted ensures d in slice {
      assert order[ordinals[d] - 1] == d;
      assert slice[ordinals[d] - 1 - after] == d;
    }
    forall d | d in slice ensures d in wanted {
      var i :| 0 <= i < |slice| && slice[i] == d;
      assert order[after + i] == d && ordinals[d] == after + i + 1;
    }
  }

  lemma SliceAscends(ordinals: map<Did, nat>, order: seq<Did>, after: nat, end: int)
    requires IsNumbering(ordinals, order) && end <= |order|
    ensures Ascending(Slice(order, after, end), (a, b) => Precedes(ordinals, a, b))
  {
    var slice := Slice(order, after, end);
    forall i, j | 0 <= i < j < |slice| ensures Precedes(ordinals, slice[i], slice[j]) {
      assert slice[i] == order[after + i] && slice[j] == order[after + j];
    }
  }

  lemma WantedIsTotal(ordinals: map<Did, nat>, after: nat, through: Option<int>)
    requires Numbered(ordinals)
    ensures StrictTotalOn(Wanted(ordinals, after, through), (a, b) => Precedes(ordinals, a, b))
  {
    NumberingIsListing(ordinals);
  }

  lemma FirstOfSlice(order: seq<Did>, after: nat, through: Option<int>, end: int, limit: nat)
    requires end == if through.Some? && through.value < |order| then through.value else |order|
    ensures First(Slice(order, after, end), limit) == Slice(order, after, RosterPages.Upto(|order|, after, through, limit))
  {
  }

  lemma WantedInOrder(ordinals: map<Did, nat>, order: seq<Did>, after: nat, through: Option<int>, end: int, less: (Did, Did) -> bool)
    requires IsNumbering(ordinals, order) && end == if through.Some? && through.value < |order| then through.value else |order|
    requires less == ((a, b) => Precedes(ordinals, a, b)) && StrictTotalOn(Wanted(ordinals, after, through), less)
    ensures Sorted(Wanted(ordinals, after, through), less) == Slice(order, after, end)
  {
    hide StrictTotalOn, Precedes, IsNumbering, Wanted, Slice, Ascending;
    WantedMembers(ordinals, order, after, through, end);
    SliceAscends(ordinals, order, after, end);
    ListingUnique(Sorted(Wanted(ordinals, after, through), less), Slice(order, after, end), Wanted(ordinals, after, through), less, less);
  }

  lemma WantedIsSlice(ordinals: map<Did, nat>, after: nat, through: Option<int>, limit: nat)
    requires Numbered(ordinals)
    ensures StrictTotalOn(Wanted(ordinals, after, through), (a, b) => Precedes(ordinals, a, b))
    ensures First(Sorted(Wanted(ordinals, after, through), (a, b) => Precedes(ordinals, a, b)), limit)
      == Slice(OrderOf(ordinals), after, RosterPages.Upto(|OrderOf(ordinals)|, after, through, limit))
  {
    hide StrictTotalOn, Precedes, IsNumbering, Numbered, Wanted, Slice, First, RosterPages.Upto;
    var order := OrderOf(ordinals);
    var end := if through.Some? && through.value < |order| then through.value else |order|;
    WantedIsTotal(ordinals, after, through);
    WantedInOrder(ordinals, order, after, through, end, (a, b) => Precedes(ordinals, a, b));
    FirstOfSlice(order, after, through, end, limit);
  }

  lemma OneMoreAsked(messages: map<Id, Message>, owner: Did, ids: seq<Id>, k: nat)
    requires k < |ids|
    ensures var id, left := ids[k], messages - Spec.Named(messages, owner, Spec.Asked(ids[..k]));
      var deletes := id in left && left[id].owner == owner;
      && messages - Spec.Named(messages, owner, Spec.Asked(ids[..k + 1])) == (if deletes then left - {id} else left)
      && Spec.Reported(messages, owner, ids[..k + 1]) == Spec.Reported(messages, owner, ids[..k]) + (if deletes then [id] else [])
  {
    assert ids[..k + 1] == ids[..k] + [ids[k]] && ids[..k + 1][..k] == ids[..k];
    assert Spec.Asked(ids[..k + 1]) == Spec.Asked(ids[..k]) + {ids[k]};
  }

  lemma DeliveredIn(limits: Limits, w: World)
    requires Sound(limits, w)
    ensures Delivered(w.db)
  {
  }

  lemma BlobIdIsNew(limits: Limits, w: World, keep: Spec.Keep, now: Time)
    requires Sound(limits, w) && Admissible(w, Blobs(KeepOne(keep)), now)
    ensures keep.id !in w.db.blobs
  {
    BlobRows.BlobsAreMade(w.db, w.history);
    assert keep.id in NewIds(Blobs(KeepOne(keep)));
  }

  lemma NamedAreHere(blobs: map<Id, Blob>, owner: Did, hash: Text)
    ensures forall b :: b in Spec.BlobNamed(blobs, owner, hash) ==> b in blobs && blobs[b].owner == owner && blobs[b].hash == hash
  {
  }

  /** A blob of the hash is still retained, or there is room for one as for a new one. */
  ghost predicate MayRenew(limits: Limits, blobs: map<Id, Blob>, keep: Spec.Keep, now: Time) {
    (exists b :: b in Spec.BlobNamed(blobs, keep.owner, keep.hash) && blobs[b].retainUntil > now) || Spec.HasBlobRoom(limits, blobs, keep.owner, keep.size, now)
  }

  /** A row renewed to no later than it is kept anyway stays as it is. */
  lemma RenewsNothing(blobs: map<Id, Blob>, held: set<Id>, retainUntil: Time)
    requires forall b :: b in held && b in blobs ==> blobs[b].retainUntil >= retainUntil
    ensures Spec.RenewedBlobs(blobs, held, retainUntil) == blobs
  {
  }

  lemma NewIsNamed(blobs: map<Id, Blob>, id: Id, row: Blob)
    requires id !in blobs && Spec.BlobNamed(blobs, row.owner, row.hash) == {}
    ensures Spec.BlobNamed(blobs[id := row], row.owner, row.hash) == {id}
  {
    assert forall b :: b in Spec.BlobNamed(blobs[id := row], row.owner, row.hash) && b != id ==> b in Spec.BlobNamed(blobs, row.owner, row.hash);
  }

  lemma RenewedAreNamed(blobs: map<Id, Blob>, held: set<Id>, retainUntil: Time, owner: Did, hash: Text)
    ensures Spec.BlobNamed(Spec.RenewedBlobs(blobs, held, retainUntil), owner, hash) == Spec.BlobNamed(blobs, owner, hash)
  {
  }

  /** The insert and the update together, as one rule. */
  lemma KeepDoes(limits: Limits, db: Db, keep: Spec.Keep, now: Time)
    requires keep.id !in db.blobs
    ensures var owns := HoldsBlobs(db.accounts, db.replicas, keep.owner);
      var known := Spec.BlobNamed(db.blobs, keep.owner, keep.hash) != {};
      var blobs := if !known && owns && Spec.HasBlobRoom(limits, db.blobs, keep.owner, keep.size, now)
                   then db.blobs[keep.id := Blob(keep.owner, keep.hash, keep.size, now, None, keep.retainUntil)] else db.blobs;
      var named := Spec.BlobNamed(blobs, keep.owner, keep.hash);
      var agrees := forall b :: b in named ==> blobs[b].size == keep.size;
      var renews := agrees && owns && MayRenew(limits, blobs, keep, now);
      var after := if renews then Spec.RenewedBlobs(blobs, named, keep.retainUntil) else blobs;
      && Spec.KeptBlobs(limits, db, keep, now) == after
      && (forall done: Db :: done.blobs == after ==>
            Spec.KeepOutcomeOf(limits, db, done, keep, now) ==
              if !owns then Spec.Ended
              else if Spec.BlobNamed(after, keep.owner, keep.hash) != {} && !agrees then Spec.Mismatch
              else if Spec.BlobNamed(after, keep.owner, keep.hash) == {} || !((!known && named != {}) || renews) then Spec.QuotaFull
              else Spec.Kept(Spec.BlobNamed(after, keep.owner, keep.hash)))
  {
    var held := Spec.BlobNamed(db.blobs, keep.owner, keep.hash);
    NamedAreHere(db.blobs, keep.owner, keep.hash);
    hide HoldsBlobs, Spec.BlobNamed, Spec.RenewedBlobs, Spec.HasBlobRoom;
    var row := Blob(keep.owner, keep.hash, keep.size, now, None, keep.retainUntil);
    RenewsNothing(db.blobs, {}, keep.retainUntil);
    RenewedAreNamed(db.blobs, held, keep.retainUntil, keep.owner, keep.hash);
    if held == {} {
      NewIsNamed(db.blobs, keep.id, row);
      RenewsNothing(db.blobs[keep.id := row], {keep.id}, keep.retainUntil);
    }
  }

  lemma NotFoundNotMade(limits: Limits, executions: map<Id, Execution>, account: Did, executionId: Text, id: Id, now: Time)
    ensures var executions' := Spec.WithExecution(limits, executions, account, executionId, id, now);
      Spec.FindExecution(executions', account, executionId).None? ==> executions' == executions
  {
    var executions' := Spec.WithExecution(limits, executions, account, executionId, id, now);
    assert executions' != executions ==> Spec.Names(executions', id, account, executionId);
  }

  lemma FoundOnce(executions: map<Id, Execution>, account: Did, executionId: Text, e: Id)
    requires OnePerExecution(executions) && Spec.Names(executions, e, account, executionId)
    ensures Spec.FindExecution(executions, account, executionId) == Some(e)
  {
  }

  lemma RegistrationDoes(limits: Limits, db: Db, replica: Did, mediator: Did, executionId: Text, id: Id, now: Time)
    ensures var account := Spec.CallerAccount(db, replica, mediator);
      Spec.RegisterExecution(limits, db, replica, mediator, executionId, id, now) ==
        if account.None? then db
        else
          var executions := Spec.WithExecution(limits, db.executions, account.value, executionId, id, now);
          var found := Spec.FindExecution(executions, account.value, executionId);
          Db(db.accounts, db.keylist, db.messages, db.replicaAccounts, db.replicas, db.recipients, db.packages, db.deliveries,
             if found.None? then db.executions else executions,
             if found.None? then db.registrations else Spec.WithCaller(limits, db.registrations, found.value, replica),
             db.blobs, db.ended, db.uploads)
  {
    hide Spec.WithExecution, Spec.WithCaller, Spec.FindExecution;
  }

  lemma FanOutMayRun(limits: Limits, w: World)
    requires Sound(limits, w)
    ensures Exclusive(w.db.accounts, w.db.keylist, w.db.replicaAccounts, w.db.replicas, w.db.recipients) && Addressed(w.db.packages, w.db.deliveries, w.db.replicas)
  {
  }

  /** Who the second statement inserts a delivery for: every active replica that is the DID or is of the account sharing it. */
  function TargetRows(replicas: map<Did, Replica>, recipients: map<Did, Recipient>, next: Did): (r: set<Did>) {
    set r | r in replicas && (r == next || (next in recipients && replicas[r].account == recipients[next].account)) && replicas[r].removedAt.None?
  }

  lemma TargetRowsAreTargets(db: Db, next: Did)
    requires Exclusive(db.accounts, db.keylist, db.replicaAccounts, db.replicas, db.recipients)
    ensures TargetRows(db.replicas, db.recipients, next) == Spec.Targets(db, next)
  {
  }

  /** The deliveries of a package. */
  function RowsOf(deliveries: map<Id, Delivery>, package: Id): (r: map<Id, Delivery>) {
    map d | d in deliveries && deliveries[d].package == package :: deliveries[d]
  }

  /** The deliveries read back are the ones just made. */
  lemma RowsAreNew(packages: map<Id, Package>, deliveries: map<Id, Delivery>, replicas: map<Did, Replica>, added: map<Id, Delivery>, id: Id)
    requires Addressed(packages, deliveries, replicas) && id !in packages
    requires forall d :: d in added ==> added[d].package == id
    ensures RowsOf(deliveries + added, id) == added
  {
  }

  lemma AddedAreOf(targets: set<Did>, id: Id, ids: map<Did, Id>)
    requires targets <= ids.Keys && Spec.OneToOne(ids)
    ensures forall d :: d in Spec.NewDeliveries(targets, id, ids) ==> Spec.NewDeliveries(targets, id, ids)[d].package == id
  {
  }

  /** The packages after the first statement of a fan-out. */
  ghost function InsertedPackage(limits: Limits, db: Db, parcel: Spec.Parcel, id: Id, expiresAt: nat, now: Time): (r: map<Id, Package>) {
    var account := Spec.Route(db, parcel.next);
    if account.None? || !Spec.HasRoom(limits, db.packages, account.value, parcel.bytes, now) then db.packages
    else db.packages[id := Package(account.value, parcel.next, parcel.packed, parcel.bytes, now, expiresAt, Spec.NextRowid(db.packages))]
  }

  lemma LapsedDoes(limits: Limits, db: Db, parcel: Spec.Parcel, id: Id, ids: map<Did, Id>, now: Time)
    requires Spec.FreshFor(db, parcel.next, ids) && Spec.ExpiryOf(limits, now, parcel.deadline) <= now
    ensures Spec.FanOut(limits, db, parcel, id, ids, now) == db && Spec.FanOutOutcomeOf(limits, db, parcel, id, ids, now) == Spec.Lapsed
  {
  }

  lemma FanOutDoes(limits: Limits, db: Db, parcel: Spec.Parcel, id: Id, ids: map<Did, Id>, now: Time)
    requires Spec.FreshFor(db, parcel.next, ids) && id !in db.packages
    requires Spec.ExpiryOf(limits, now, parcel.deadline) > now
    ensures var packages := InsertedPackage(limits, db, parcel, id, Spec.ExpiryOf(limits, now, parcel.deadline), now);
      && (id in packages <==> Spec.Accepts(limits, db, parcel, now))
      && Spec.FanOut(limits, db, parcel, id, ids, now) ==
           Db(db.accounts, db.keylist, db.messages, db.replicaAccounts, db.replicas, db.recipients, packages,
              if id in packages then db.deliveries + Spec.NewDeliveries(Spec.Targets(db, parcel.next), id, ids) else db.deliveries,
              db.executions, db.registrations, db.blobs, db.ended, db.uploads)
      && Spec.FanOutOutcomeOf(limits, db, parcel, id, ids, now) ==
           if id in packages then Spec.FannedOut(Spec.NewDeliveries(Spec.Targets(db, parcel.next), id, ids))
           else if Spec.Route(db, parcel.next).None? then Spec.Unknown else Spec.AccountFull
  {
    hide Spec.Route, Spec.Targets, Spec.HasRoom, Spec.NewDeliveries, Spec.NextRowid;
  }

  /** In every reachable state the account subquery yields one row at most: the account routed to. */
  lemma RowsAreRoute(db: Db, next: Did)
    requires Exclusive(db.accounts, db.keylist, db.replicaAccounts, db.replicas, db.recipients)
    ensures !(next in db.recipients && IsActive(db.replicas, next))
  {
  }

  /** Each table as the revocation's statements leave it. */
  ghost predicate Revoked(db: Db, did: Did, after: Db) {
    var held := BlobsOf(db.blobs, did);
    && after == db.(accounts := after.accounts, keylist := after.keylist, messages := after.messages, blobs := after.blobs, ended := after.ended, uploads := after.uploads)
    && after.accounts == db.accounts - {did} && after.keylist == Spec.KeysWithout(db.keylist, did) && after.messages == Spec.MessagesWithout(db.messages, did)
    && after.blobs == db.blobs - held && after.ended == db.ended + held && after.uploads == Spec.UploadsWithout(db.uploads, held)
  }

  lemma RevocationDoes(db: Db, did: Did, after: Db)
    requires if did in db.accounts then Revoked(db, did, after) else after == db
    ensures after == Spec.RevokeMediation(db, did)
  {
    hide BlobsOf, Spec.UploadsWithout, Spec.KeysWithout, Spec.MessagesWithout;
  }

  /** Each table as the removal's statements leave it. */
  ghost predicate Removed(db: Db, replica: Did, now: Time, after: Db)
    requires replica in db.replicas
  {
    var mail, held := Spec.DeliveriesTo(db.deliveries, replica), BlobsOf(db.blobs, replica);
    && after == db.(packages := after.packages, deliveries := after.deliveries, blobs := after.blobs, ended := after.ended, uploads := after.uploads, replicas := after.replicas)
    && after.packages == db.packages - Spec.LastAmong(db.deliveries, mail) && after.deliveries == db.deliveries - mail
    && after.blobs == db.blobs - held && after.ended == db.ended + held && after.uploads == Spec.UploadsWithout(db.uploads, held)
    && after.replicas == db.replicas[replica := Spec.RowRemoved(db.replicas[replica], now)]
  }

  lemma RemovalDoes(db: Db, account: Did, mediator: Did, replica: Did, now: Time, after: Db)
    requires if Spec.IsMember(db, account, mediator, replica) then Removed(db, replica, now, after) else after == db
    ensures after == Spec.RemoveReplica(db, account, mediator, replica, now)
  {
    hide Spec.LastAmong, Spec.UploadsWithout, Spec.DeliveriesTo, BlobsOf;
  }

  /** Each table as the deletion's statements leave it. */
  ghost predicate Deleted(db: Db, account: Did, after: Db) {
    var mail, members, executions := PackagesOf(db.packages, account), Members(db.replicas, account), ExecutionsOf(db.executions, account);
    var held := Spec.BlobsOfAny(db.blobs, members);
    && after.accounts == db.accounts && after.keylist == db.keylist && after.messages == db.messages
    && after.replicaAccounts == db.replicaAccounts - {account} && after.replicas == db.replicas - members
    && after.recipients == db.recipients - RecipientsOf(db.recipients, account)
    && after.packages == db.packages - mail && after.deliveries == Spec.DeliveriesWithout(db.deliveries, mail, members)
    && after.executions == db.executions - executions && after.registrations == Spec.SlotsWithout(db.registrations, executions)
    && after.blobs == db.blobs - held && after.ended == db.ended + held && after.uploads == Spec.UploadsWithout(db.uploads, held)
  }

  lemma DeletionDoes(db: Db, account: Did, mediator: Did, after: Db)
    requires if Spec.IsAccount(db, account, mediator) then Deleted(db, account, after) else after == db
    ensures after == Spec.DeleteReplicaAccount(db, account, mediator)
  {
    hide Spec.IsAccount, Members, PackagesOf, ExecutionsOf, RecipientsOf, Spec.BlobsOfAny, Spec.DeliveriesWithout, Spec.SlotsWithout, Spec.UploadsWithout;
  }

  lemma EndsLast(deliveries: map<Id, Delivery>, which: set<Id>, ending: set<Id>, staying: set<Id>)
    requires ending == set d | d in deliveries && d in which :: deliveries[d].package
    requires staying == set d | d in deliveries && d !in which :: deliveries[d].package
    ensures ending - staying == Spec.LastAmong(deliveries, which)
  {
    forall p ensures p in ending - staying <==> p in Spec.LastAmong(deliveries, which) {
      LastAmongMeans(deliveries, which, p);
    }
  }
}
