/** Packages and deliveries: a package accepted for someone lives exactly as long as a delivery of it. */
module Mail {
  import opened Dids
  import opened Tables
  import opened StoreSpec
  import opened StoreRuns
  import opened StoreFrames

  /** Every delivery names a package that is there and an active replica of the package's account. */
  ghost predicate Addressed(packages: map<Id, Package>, deliveries: map<Id, Delivery>, replicas: map<Did, Replica>) {
    forall d :: d in deliveries ==>
      && deliveries[d].package in packages
      && IsActive(replicas, deliveries[d].replica)
      && replicas[deliveries[d].replica].account == packages[deliveries[d].package].account
  }

  /** No replica has two deliveries of one package. */
  ghost predicate OneEach(deliveries: map<Id, Delivery>) {
    forall a, b :: a in deliveries && b in deliveries && deliveries[a] == deliveries[b] ==> a == b
  }

  ghost predicate RowidsUnique(packages: map<Id, Package>) {
    forall p, q :: p in packages && q in packages && packages[p].rowid == packages[q].rowid ==> p == q
  }

  /** A package accepted with a target still has a delivery, and one accepted with none has none. */
  ghost predicate KeptForTargets(packages: map<Id, Package>, deliveries: map<Id, Delivery>, targeted: set<Id>) {
    forall p :: p in packages ==> (p in targeted <==> HasDelivery(deliveries, p))
  }

  ghost predicate HasDelivery(deliveries: map<Id, Delivery>, p: Id) {
    exists d :: d in deliveries && deliveries[d].package == p
  }

  // ---- ending deliveries ----

  /** What ending deliveries leaves, in the simple form: of the packages, all but those that had a delivery and have none now. */
  lemma EndingLeaves(db: Db, which: set<Id>)
    ensures var r := EndDeliveries(db, which);
      && r.deliveries == db.deliveries - which
      && r.packages.Keys <= db.packages.Keys
      && (forall p :: p in r.packages ==> r.packages[p] == db.packages[p])
      && (forall p :: p in db.packages ==> (p !in r.packages <==> HasDelivery(db.deliveries, p) && !HasDelivery(r.deliveries, p)))
  {
    var r := EndDeliveries(db, which);
    forall p | p in db.packages
      ensures p !in r.packages <==> HasDelivery(db.deliveries, p) && !HasDelivery(r.deliveries, p)
    {
      LastAmongMeans(db.deliveries, which, p);
    }
  }

  lemma LastAmongMeans(deliveries: map<Id, Delivery>, which: set<Id>, p: Id)
    ensures p in LastAmong(deliveries, which) <==> HasDelivery(deliveries, p) && !HasDelivery(deliveries - which, p)
  {
    if HasDelivery(deliveries, p) && !HasDelivery(deliveries - which, p) {
      var d :| d in deliveries && deliveries[d].package == p;
      assert forall e :: e in DeliveriesOf(deliveries, p) && e !in which ==> e in deliveries - which;
      assert d in which && DeliveriesOf(deliveries, p) <= which;
    }
  }

  lemma AddressedAfterEnding(db: Db, which: set<Id>)
    requires Addressed(db.packages, db.deliveries, db.replicas)
    ensures var r := EndDeliveries(db, which); Addressed(r.packages, r.deliveries, db.replicas)
  {
    hide EndDeliveries;
    EndingLeaves(db, which);
    var r := EndDeliveries(db, which);
    forall d | d in r.deliveries ensures r.deliveries[d].package in r.packages {
      assert HasDelivery(r.deliveries, r.deliveries[d].package);
    }
  }

  lemma KeptAfterEnding(db: Db, which: set<Id>, targeted: set<Id>)
    requires KeptForTargets(db.packages, db.deliveries, targeted)
    ensures var r := EndDeliveries(db, which); KeptForTargets(r.packages, r.deliveries, targeted)
  {
    hide EndDeliveries, HasDelivery;
    EndingLeaves(db, which);
    var r := EndDeliveries(db, which);
    forall p | p in r.packages && HasDelivery(r.deliveries, p) ensures HasDelivery(db.deliveries, p) {
      StillHad(db.deliveries, which, p);
    }
  }

  lemma StillHad(deliveries: map<Id, Delivery>, which: set<Id>, p: Id)
    requires HasDelivery(deliveries - which, p)
    ensures HasDelivery(deliveries, p)
  {
  }

  // ---- fanning out ----

  lemma AddressedAfterFan(db: Db, next: Did, id: Id, row: Package, ids: map<Did, Id>)
    requires Addressed(db.packages, db.deliveries, db.replicas)
    requires FreshFor(db, next, ids) && id !in db.packages
    requires Route(db, next) == Some(row.account)
    ensures Addressed(db.packages[id := row], db.deliveries + NewDeliveries(Targets(db, next), id, ids), db.replicas)
  {
  }

  lemma OneEachAfterFan(db: Db, next: Did, id: Id, ids: map<Did, Id>)
    requires Addressed(db.packages, db.deliveries, db.replicas) && OneEach(db.deliveries)
    requires FreshFor(db, next, ids) && id !in db.packages
    ensures OneEach(db.deliveries + NewDeliveries(Targets(db, next), id, ids))
  {
  }

  /** The new package has a delivery iff it has a target, and no other package gains or loses one. */
  lemma DeliveriesAfterFan(db: Db, next: Did, id: Id, ids: map<Did, Id>, p: Id)
    requires Addressed(db.packages, db.deliveries, db.replicas)
    requires FreshFor(db, next, ids) && id !in db.packages
    ensures var deliveries := db.deliveries + NewDeliveries(Targets(db, next), id, ids);
      HasDelivery(deliveries, p) <==> if p == id then Targets(db, next) != {} else HasDelivery(db.deliveries, p)
  {
    hide Targets;
    var targets := Targets(db, next);
    var deliveries := db.deliveries + NewDeliveries(targets, id, ids);
    if p == id && targets != {} {
      var t :| t in targets;
      assert deliveries[ids[t]] == Delivery(id, t);
    }
    if p != id && HasDelivery(db.deliveries, p) {
      var d :| d in db.deliveries && db.deliveries[d].package == p;
      assert d in deliveries && deliveries[d].package == p;
    }
  }

  lemma KeptAfterFan(limits: Limits, db: Db, parcel: Parcel, id: Id, ids: map<Did, Id>, now: Time, targeted: set<Id>)
    requires FreshFor(db, parcel.next, ids) && id !in db.packages && id !in targeted
    requires Addressed(db.packages, db.deliveries, db.replicas)
    requires KeptForTargets(db.packages, db.deliveries, targeted)
    ensures var r := FanOut(limits, db, parcel, id, ids, now);
      KeptForTargets(r.packages, r.deliveries,
        if Accepts(limits, db, parcel, now) && Targets(db, parcel.next) != {} then targeted + {id} else targeted)
  {
    hide HasDelivery, Addressed, Targets, Accepts, NewDeliveries, FreshFor, NextRowid, ExpiryOf;
    var r := FanOut(limits, db, parcel, id, ids, now);
    if Accepts(limits, db, parcel, now) {
      forall p ensures HasDelivery(r.deliveries, p) <==> if p == id then Targets(db, parcel.next) != {} else HasDelivery(db.deliveries, p) {
        DeliveriesAfterFan(db, parcel.next, id, ids, p);
      }
    }
  }

  lemma RowidsAfterFan(packages: map<Id, Package>, id: Id, row: Package)
    requires RowidsUnique(packages) && id !in packages && row.rowid == NextRowid(packages)
    ensures RowidsUnique(packages[id := row])
  {
  }

  lemma RowidsWithFewer(packages: map<Id, Package>, packages': map<Id, Package>)
    requires RowidsUnique(packages)
    requires forall p :: p in packages' ==> p in packages && packages'[p] == packages[p]
    ensures RowidsUnique(packages')
  {
  }

  // ---- purging, and an account's deletion ----

  lemma AddressedAfterPurge(packages: map<Id, Package>, deliveries: map<Id, Delivery>, replicas: map<Did, Replica>, gone: set<Id>)
    requires Addressed(packages, deliveries, replicas)
    ensures Addressed(packages - gone, DeliveriesWithout(deliveries, gone, {}), replicas)
  {
  }

  lemma KeptAfterPurge(packages: map<Id, Package>, deliveries: map<Id, Delivery>, gone: set<Id>, targeted: set<Id>)
    requires KeptForTargets(packages, deliveries, targeted)
    ensures KeptForTargets(packages - gone, DeliveriesWithout(deliveries, gone, {}), targeted)
  {
    var deliveries' := DeliveriesWithout(deliveries, gone, {});
    forall p | p in packages && p !in gone ensures HasDelivery(deliveries, p) <==> HasDelivery(deliveries', p) {
      if HasDelivery(deliveries, p) {
        var d :| d in deliveries && deliveries[d].package == p;
        assert d in deliveries';
      }
    }
  }

  lemma AddressedAfterDeletion(packages: map<Id, Package>, deliveries: map<Id, Delivery>, replicas: map<Did, Replica>, account: Did)
    requires Addressed(packages, deliveries, replicas)
    ensures var members := Members(replicas, account);
      Addressed(packages - PackagesOf(packages, account), DeliveriesWithout(deliveries, PackagesOf(packages, account), members), replicas - members)
  {
  }

  lemma KeptAfterDeletion(packages: map<Id, Package>, deliveries: map<Id, Delivery>, replicas: map<Did, Replica>, account: Did, targeted: set<Id>)
    requires Addressed(packages, deliveries, replicas)
    requires KeptForTargets(packages, deliveries, targeted)
    ensures var mail := PackagesOf(packages, account);
      KeptForTargets(packages - mail, DeliveriesWithout(deliveries, mail, Members(replicas, account)), targeted)
  {
    var mail, members := PackagesOf(packages, account), Members(replicas, account);
    var deliveries' := DeliveriesWithout(deliveries, mail, members);
    forall p | p in packages && p !in mail ensures HasDelivery(deliveries, p) <==> HasDelivery(deliveries', p) {
      if HasDelivery(deliveries, p) {
        var d :| d in deliveries && deliveries[d].package == p;
        assert d in deliveries';
      }
    }
  }

  lemma AddressedWithReplicas(packages: map<Id, Package>, deliveries: map<Id, Delivery>, replicas: map<Did, Replica>, replicas': map<Did, Replica>)
    requires Addressed(packages, deliveries, replicas)
    requires forall d :: d in deliveries ==> var r := deliveries[d].replica;
      r in replicas ==> r in replicas' && replicas'[r].account == replicas[r].account && replicas'[r].removedAt == replicas[r].removedAt
    ensures Addressed(packages, deliveries, replicas')
  {
  }

  // ---- every call ----

  ghost predicate Delivered(db: Db) {
    && Addressed(db.packages, db.deliveries, db.replicas)
    && OneEach(db.deliveries)
    && RowidsUnique(db.packages)
  }

  lemma OneEachWithFewer(deliveries: map<Id, Delivery>, deliveries': map<Id, Delivery>)
    requires OneEach(deliveries)
    requires forall d :: d in deliveries' ==> d in deliveries && deliveries'[d] == deliveries[d]
    ensures OneEach(deliveries')
  {
  }

  lemma DeliveredAfterFan(limits: Limits, db: Db, parcel: Parcel, id: Id, ids: map<Did, Id>, now: Time)
    requires FreshFor(db, parcel.next, ids) && id !in db.packages
    requires Delivered(db)
    ensures Delivered(FanOut(limits, db, parcel, id, ids, now))
  {
    hide Addressed, OneEach, RowidsUnique, NewDeliveries, FreshFor, ExpiryOf, Targets, Route, HasRoom;
    var r := FanOut(limits, db, parcel, id, ids, now);
    if Accepts(limits, db, parcel, now) {
      AddressedAfterFan(db, parcel.next, id, r.packages[id], ids);
      OneEachAfterFan(db, parcel.next, id, ids);
      RowidsAfterFan(db.packages, id, r.packages[id]);
    }
  }

  lemma DeliveredAfterEnding(db: Db, which: set<Id>)
    requires Delivered(db)
    ensures Delivered(EndDeliveries(db, which))
  {
    hide Addressed, OneEach, RowidsUnique, LastAmong;
    var r := EndDeliveries(db, which);
    AddressedAfterEnding(db, which);
    OneEachWithFewer(db.deliveries, r.deliveries);
    RowidsWithFewer(db.packages, r.packages);
  }

  lemma DeliveredAfterMail(limits: Limits, db: Db, op: MailOp, now: Time)
    requires IdsUsable(db, op)
    requires Delivered(db)
    ensures Delivered(MailStep(limits, db, op, now))
  {
    hide Addressed, OneEach, RowidsUnique, FanOut, EndDeliveries, FreshFor, MessagesAfter;
    match op
    case Fan(parcel, id, ids) => DeliveredAfterFan(limits, db, parcel, id, ids, now);
    case Acknowledge(replica, ids) => DeliveredAfterEnding(db, Acknowledged(db.deliveries, replica, ids));
    case PurgeMail =>
      var r := PurgeExpired(db, now);
      AddressedAfterPurge(db.packages, db.deliveries, db.replicas, LapsedPackages(db.packages, now));
      OneEachWithFewer(db.deliveries, r.deliveries);
      RowidsWithFewer(db.packages, r.packages);
  }

  lemma DeliveredAfterRemoval(db: Db, account: Did, mediator: Did, replica: Did, now: Time)
    requires Delivered(db)
    ensures Delivered(RemoveReplica(db, account, mediator, replica, now))
  {
    hide Addressed, OneEach, RowidsUnique, LastAmong, UploadsWithout, BlobsOf;
    if IsMember(db, account, mediator, replica) {
      var which := DeliveriesTo(db.deliveries, replica);
      var r := RemoveReplica(db, account, mediator, replica, now);
      DeliveredAfterEnding(db, which);
      AddressedWithReplicas(r.packages, r.deliveries, db.replicas, r.replicas);
    }
  }

  lemma DeliveredAfterDeletion(db: Db, account: Did, mediator: Did)
    requires Delivered(db)
    ensures Delivered(DeleteReplicaAccount(db, account, mediator))
  {
    hide Addressed, OneEach, RowidsUnique, UploadsWithout, SlotsWithout, Members, PackagesOf;
    if IsAccount(db, account, mediator) {
      var r := DeleteReplicaAccount(db, account, mediator);
      AddressedAfterDeletion(db.packages, db.deliveries, db.replicas, account);
      OneEachWithFewer(db.deliveries, r.deliveries);
      RowidsWithFewer(db.packages, r.packages);
    }
  }

  lemma DeliveredAfterMembership(limits: Limits, db: Db, op: MembershipOp, now: Time)
    requires Delivered(db)
    ensures Delivered(MembershipStep(limits, db, op, now))
  {
    hide Addressed, OneEach, RowidsUnique, DeleteReplicaAccount, RemoveReplica, NotOrdinary, Ordinals, ActiveMembers;
    match op
    case DeleteAccount(account, mediator) => DeliveredAfterDeletion(db, account, mediator);
    case RemoveMember(account, mediator, replica) => DeliveredAfterRemoval(db, account, mediator, replica, now);
    case Enroll(account, mediator, replica, longForm, grant) =>
      AddressedWithReplicas(db.packages, db.deliveries, db.replicas, MembershipStep(limits, db, op, now).replicas);
    case _ =>
  }

  lemma DeliveredKept(limits: Limits, db: Db, op: Op, now: Time)
    requires Usable(db, op)
    requires Delivered(db)
    ensures Delivered(Step(limits, db, op, now))
  {
    hide Addressed, OneEach, RowidsUnique, OrdinaryStep, MembershipStep, MailStep, ExecutionStep, BlobStep;
    match op
    case Ordinary(o) => OrdinaryFrame(limits, db, o, now);
    case Membership(m) => DeliveredAfterMembership(limits, db, m, now);
    case Mail(m) => DeliveredAfterMail(limits, db, m, now);
    case Executions(e) => ExecutionFrame(limits, db, e, now);
    case Blobs(b) => BlobFrame(limits, db, b, now);
  }

  lemma KeptAfterMembership(limits: Limits, db: Db, op: MembershipOp, now: Time, targeted: set<Id>)
    requires Addressed(db.packages, db.deliveries, db.replicas)
    requires KeptForTargets(db.packages, db.deliveries, targeted)
    ensures var r := MembershipStep(limits, db, op, now); KeptForTargets(r.packages, r.deliveries, targeted)
  {
    hide Addressed, KeptForTargets, LastAmong, DeliveriesWithout, UploadsWithout, SlotsWithout, BlobsOf, Members, PackagesOf,
      RegisterReplicaAccount, AddReplica, AddSharedRecipient, RemoveSharedRecipient;
    match op
    case DeleteAccount(account, mediator) => KeptAfterDeletion(db.packages, db.deliveries, db.replicas, account, targeted);
    case RemoveMember(account, mediator, replica) => KeptAfterEnding(db, DeliveriesTo(db.deliveries, replica), targeted);
    case _ =>
  }

  lemma KeptAfterMail(limits: Limits, db: Db, op: MailOp, now: Time, targeted: set<Id>)
    requires IdsUsable(db, op) && (op.Fan? ==> op.id !in targeted)
    requires Addressed(db.packages, db.deliveries, db.replicas)
    requires KeptForTargets(db.packages, db.deliveries, targeted)
    ensures var r := MailStep(limits, db, op, now); KeptForTargets(r.packages, r.deliveries, TargetedAfter(limits, db, op, now, targeted))
  {
    hide Addressed, KeptForTargets, FanOut, EndDeliveries, DeliveriesWithout, FreshFor, MessagesAfter, Accepts, Targets, LapsedPackages;
    match op
    case Fan(parcel, id, ids) => KeptAfterFan(limits, db, parcel, id, ids, now, targeted);
    case Acknowledge(replica, ids) => KeptAfterEnding(db, Acknowledged(db.deliveries, replica, ids), targeted);
    case PurgeMail => KeptAfterPurge(db.packages, db.deliveries, LapsedPackages(db.packages, now), targeted);
  }

  ghost function TargetedAfter(limits: Limits, db: Db, op: MailOp, now: Time, targeted: set<Id>): set<Id> {
    if op.Fan? && Accepts(limits, db, op.parcel, now) && Targets(db, op.parcel.next) != {} then targeted + {op.id} else targeted
  }
}
