/**
 * The tables of replica mail, told by their rows: what a package holds when it
 * is accepted, whom it is delivered to, and when either goes.
 */
module MailRows {
  import opened Dids
  import opened Tables
  import opened Sums
  import opened StoreSpec
  import opened StoreRuns
  import opened StoreFrames
  import opened Exclusivity
  import opened Mail
  import opened Soundness
  import opened Rows

  // ---- acceptance ----

  /** Mail for the DID goes to the account: it shares the DID, or enrolled it and has not removed it. */
  predicate Forwards(db: Db, next: Did, account: Did) {
    || (next in db.recipients && db.recipients[next].account == account)
    || (next in db.replicas && db.replicas[next].removedAt.None? && db.replicas[next].account == account)
  }

  /** Mail for the DID is queued for the replica: it is active, and is the DID or belongs to the account sharing it. */
  predicate Receives(db: Db, next: Did, replica: Did) {
    && replica in db.replicas && db.replicas[replica].removedAt.None?
    && (replica == next || (next in db.recipients && db.replicas[replica].account == db.recipients[next].account))
  }

  /** The account's packages that have not expired, each with its bytes. */
  ghost predicate AreUnexpired(db: Db, account: Did, now: Time, sizes: map<Id, nat>) {
    && (forall p :: p in sizes <==> p in db.packages && db.packages[p].account == account && now < db.packages[p].expiresAt)
    && (forall p :: p in sizes ==> sizes[p] == db.packages[p].bytes)
  }

  /** There are fewer of them than the limit, and theirs and these bytes fit. */
  ghost predicate RoomFor(limits: Limits, db: Db, account: Did, bytes: nat, now: Time) {
    exists sizes: map<Id, nat> :: AreUnexpired(db, account, now, sizes) && |sizes| < limits.maxMessages && Total(sizes) + bytes <= limits.maxRetainedBytes
  }

  /** There is time left for it: a time to live, and a deadline, if given, that has not come. */
  predicate InTime(limits: Limits, parcel: Parcel, now: Time) {
    limits.ttl > 0 && (parcel.deadline.Some? ==> parcel.deadline.value > now)
  }

  ghost predicate Accepted(limits: Limits, db: Db, parcel: Parcel, now: Time) {
    InTime(limits, parcel, now) && exists account :: Forwards(db, parcel.next, account) && RoomFor(limits, db, account, parcel.bytes, now)
  }

  lemma OneRoute(db: Db, next: Did)
    requires DidsBound(db)
    ensures forall a :: Forwards(db, next, a) <==> Route(db, next) == Some(a)
    ensures forall x :: Receives(db, next, x) <==> x in Targets(db, next)
  {
  }

  lemma RetainedAreUnexpired(db: Db, account: Did, now: Time)
    ensures AreUnexpired(db, account, now, RetainedBytes(db.packages, account, now))
  {
  }

  lemma UnexpiredOnce(db: Db, account: Did, now: Time, a: map<Id, nat>, b: map<Id, nat>)
    requires AreUnexpired(db, account, now, a) && AreUnexpired(db, account, now, b)
    ensures a == b
  {
  }

  lemma RoomIsRoom(limits: Limits, db: Db, account: Did, bytes: nat, now: Time)
    ensures RoomFor(limits, db, account, bytes, now) <==> HasRoom(limits, db.packages, account, bytes, now)
  {
    hide AreUnexpired, Total, RetainedBytes;
    RetainedAreUnexpired(db, account, now);
    if RoomFor(limits, db, account, bytes, now) {
      var sizes: map<Id, nat> :| AreUnexpired(db, account, now, sizes) && |sizes| < limits.maxMessages && Total(sizes) + bytes <= limits.maxRetainedBytes;
      UnexpiredOnce(db, account, now, sizes, RetainedBytes(db.packages, account, now));
    }
  }

  lemma AcceptedIsAccepts(limits: Limits, db: Db, parcel: Parcel, now: Time)
    requires DidsBound(db)
    ensures Accepted(limits, db, parcel, now) <==> Accepts(limits, db, parcel, now)
  {
    hide Forwards, Route, RoomFor, HasRoom, DidsBound;
    OneRoute(db, parcel.next);
    if Route(db, parcel.next).Some? {
      RoomIsRoom(limits, db, Route(db, parcel.next).value, parcel.bytes, now);
    }
  }

  /**
   * What a fan-out is answered: lapsed iff no time is left for it, unknown iff
   * nobody has the DID, full iff its account has no room; otherwise every
   * replica it is for has one delivery of it, under the id made for it.
   */
  lemma FanOutAnswered(limits: Limits, w: World, parcel: Parcel, id: Id, ids: map<Did, Id>, now: Time)
    requires Sound(limits, w) && Admissible(w, Op.Mail(Fan(parcel, id, ids)), now)
    ensures var db := w.db; var outcome := FanOutOutcomeOf(limits, db, parcel, id, ids, now);
      && (outcome == Lapsed <==> limits.ttl == 0 || (parcel.deadline.Some? && parcel.deadline.value <= now))
      && (outcome == Unknown <==> InTime(limits, parcel, now) && forall a :: !Forwards(db, parcel.next, a))
      && (outcome == AccountFull <==> InTime(limits, parcel, now) && exists a :: Forwards(db, parcel.next, a) && !RoomFor(limits, db, a, parcel.bytes, now))
      && (outcome.FannedOut? <==> Accepted(limits, db, parcel, now))
      && (outcome.FannedOut? ==> forall d :: d in outcome.deliveries <==> exists x :: Receives(db, parcel.next, x) && x in ids && ids[x] == d)
      && (outcome.FannedOut? ==> forall d :: d in outcome.deliveries ==>
            var x := outcome.deliveries[d].replica; outcome.deliveries[d].package == id && Receives(db, parcel.next, x) && x in ids && ids[x] == d)
  {
    hide Sound, DidsBound, HasRoom, RoomFor, Forwards, Receives, Targets, Route;
    SoundTables(limits, w);
    OneRoute(w.db, parcel.next);
    if Route(w.db, parcel.next).Some? {
      RoomIsRoom(limits, w.db, Route(w.db, parcel.next).value, parcel.bytes, now);
    }
    assert InTime(limits, parcel, now) <==> ExpiryOf(limits, now, parcel.deadline) > now;
  }

  // ---- packages ----

  /** It expires at the end of the time to live or at its deadline, whichever comes first. */
  predicate ExpiresFirst(limits: Limits, parcel: Parcel, now: Time, expiresAt: int) {
    && expiresAt <= now + limits.ttl
    && (parcel.deadline.Some? ==> expiresAt <= parcel.deadline.value)
    && (expiresAt == now + limits.ttl || Some(expiresAt) == parcel.deadline)
  }

  /** What an accepted package holds. */
  ghost predicate PackedAs(limits: Limits, db: Db, parcel: Parcel, now: Time, row: Package) {
    && Forwards(db, parcel.next, row.account)
    && row.next == parcel.next && row.packed == parcel.packed && row.bytes == parcel.bytes && row.createdAt == now
    && ExpiresFirst(limits, parcel, now, row.expiresAt)
    && forall p :: p in db.packages ==> db.packages[p].rowid < row.rowid
  }

  /** Gone past its expiry, with its account, or with its last delivery. */
  ghost predicate PackageRow(limits: Limits, db: Db, op: Op, now: Time, r: Db, p: Id) {
    if p in db.packages then
      && (p in r.packages <==>
            && !(op == Op.Mail(PurgeMail) && db.packages[p].expiresAt <= now)
            && !Deletes(db, op, db.packages[p].account)
            && (HasDelivery(db.deliveries, p) ==> HasDelivery(r.deliveries, p)))
      && (p in r.packages ==> r.packages[p] == db.packages[p])
    else
      && (p in r.packages <==> op.Mail? && op.mail.Fan? && op.mail.id == p && Accepted(limits, db, op.mail.parcel, now))
      && (p in r.packages ==> PackedAs(limits, db, op.mail.parcel, now, r.packages[p]))
  }

  lemma PackagesByFan(limits: Limits, db: Db, op: MailOp, now: Time, p: Id)
    requires DidsBound(db) && IdsUsable(db, op) && op.Fan?
    ensures PackageRow(limits, db, Op.Mail(op), now, MailStep(limits, db, op, now), p)
  {
    hide DidsBound, FreshFor, Targets, RoomFor, HasRoom, Forwards, Route, Accepted, NewDeliveries, HasDelivery;
    AcceptedIsAccepts(limits, db, op.parcel, now);
    OneRoute(db, op.parcel.next);
    FanAddsDeliveries(limits, db, op.parcel, op.id, op.deliveryIds, now);
    StillDelivered(db.deliveries, MailStep(limits, db, op, now).deliveries, p);
  }

  lemma StillDelivered(deliveries: map<Id, Delivery>, deliveries': map<Id, Delivery>, p: Id)
    requires forall d :: d in deliveries ==> d in deliveries' && deliveries'[d] == deliveries[d]
    ensures HasDelivery(deliveries, p) ==> HasDelivery(deliveries', p)
  {
    if d :| d in deliveries && deliveries[d].package == p {
      assert d in deliveries' && deliveries'[d].package == p;
    }
  }

  lemma FanAddsDeliveries(limits: Limits, db: Db, parcel: Parcel, id: Id, ids: map<Did, Id>, now: Time)
    requires FreshFor(db, parcel.next, ids)
    ensures var r := FanOut(limits, db, parcel, id, ids, now);
      forall d :: d in db.deliveries ==> d in r.deliveries && r.deliveries[d] == db.deliveries[d]
  {
    hide Accepts, NextRowid, Targets, Route;
  }

  lemma PackagesByMail(limits: Limits, db: Db, op: MailOp, now: Time, p: Id)
    requires DidsBound(db) && Delivered(db) && IdsUsable(db, op)
    ensures PackageRow(limits, db, Op.Mail(op), now, MailStep(limits, db, op, now), p)
  {
    hide DidsBound, Delivered, FanOut, EndDeliveries, HasDelivery, Accepted, IdsUsable, LapsedPackages, DeliveriesWithout;
    match op
    case Fan(_, _, _) => PackagesByFan(limits, db, op, now, p);
    case Acknowledge(replica, ids) => EndingLeaves(db, Acknowledged(db.deliveries, replica, ids));
    case PurgeMail => OthersKeepDeliveries(db, LapsedPackages(db.packages, now), p); LapsedMeans(db.packages, now, p);
  }

  lemma LapsedMeans(packages: map<Id, Package>, now: Time, p: Id)
    ensures p in LapsedPackages(packages, now) <==> p in packages && packages[p].expiresAt <= now
  {
  }

  lemma OthersKeepDeliveries(db: Db, gone: set<Id>, p: Id)
    ensures p !in gone ==> HasDelivery(db.deliveries, p) ==> HasDelivery(DeliveriesWithout(db.deliveries, gone, {}), p)
  {
    if d :| p !in gone && d in db.deliveries && db.deliveries[d].package == p {
      assert d in DeliveriesWithout(db.deliveries, gone, {});
    }
  }

  lemma PackagesByMembership(limits: Limits, db: Db, op: MembershipOp, now: Time, p: Id)
    requires Delivered(db)
    ensures PackageRow(limits, db, Membership(op), now, MembershipStep(limits, db, op, now), p)
  {
    hide Delivered, HasDelivery, LastAmong, DeliveriesWithout, UploadsWithout, SlotsWithout, ExecutionsOf, RecipientsOf, BlobsOfAny, BlobsOf, DeliveriesTo,
      RegisterReplicaAccount, AddReplica, AddSharedRecipient, RemoveSharedRecipient, RowRemoved;
    match op
    case RemoveMember(account, mediator, replica) => EndingLeaves(db, DeliveriesTo(db.deliveries, replica));
    case DeleteAccount(account, mediator) =>
      if p in db.packages && db.packages[p].account != account {
        OtherAccountsKeepDeliveries(db, account, p);
      }
    case _ =>
  }

  /** Deliveries are to replicas of their package's account, so those of another account's packages stay. */
  lemma OtherAccountsKeepDeliveries(db: Db, account: Did, p: Id)
    requires Delivered(db) && p in db.packages && db.packages[p].account != account
    ensures HasDelivery(db.deliveries, p) ==> HasDelivery(DeliveriesWithout(db.deliveries, PackagesOf(db.packages, account), Members(db.replicas, account)), p)
  {
    if d :| d in db.deliveries && db.deliveries[d].package == p {
      assert d in DeliveriesWithout(db.deliveries, PackagesOf(db.packages, account), Members(db.replicas, account));
    }
  }

  lemma PackageRows(limits: Limits, w: World, op: Op, now: Time, p: Id)
    requires Sound(limits, w) && Admissible(w, op, now)
    ensures PackageRow(limits, w.db, op, now, Step(limits, w.db, op, now), p)
  {
    hide Sound, DidsBound, Delivered, OrdinaryStep, MembershipStep, MailStep, ExecutionStep, BlobStep, NewIds, Accepted;
    SoundTables(limits, w);
    match op
    case Ordinary(o) => OrdinaryFrame(limits, w.db, o, now);
    case Membership(m) => PackagesByMembership(limits, w.db, m, now, p);
    case Mail(m) => PackagesByMail(limits, w.db, m, now, p);
    case Executions(e) => ExecutionFrame(limits, w.db, e, now);
    case Blobs(b) => BlobFrame(limits, w.db, b, now);
  }

  // ---- deliveries ----

  /** One for each replica an accepted package is for; gone once that replica acknowledges it or is removed, past its package's expiry, or with its account. */
  ghost predicate DeliveryRow(limits: Limits, db: Db, op: Op, now: Time, r: Db, d: Id) {
    if d in db.deliveries then
      db.deliveries[d].package in db.packages &&
      var row := db.deliveries[d]; var package := db.packages[row.package];
      && (d in r.deliveries <==>
            && !(op.Mail? && op.mail.Acknowledge? && op.mail.replica == row.replica && d in op.mail.ids)
            && !RemovesMember(db, op, row.replica)
            && !(op == Op.Mail(PurgeMail) && package.expiresAt <= now)
            && !Deletes(db, op, package.account))
      && (d in r.deliveries ==> r.deliveries[d] == row)
    else
      && (d in r.deliveries <==>
            && op.Mail? && op.mail.Fan? && Accepted(limits, db, op.mail.parcel, now)
            && exists x :: Receives(db, op.mail.parcel.next, x) && x in op.mail.deliveryIds && op.mail.deliveryIds[x] == d)
      && (d in r.deliveries ==>
            var x := r.deliveries[d].replica;
            r.deliveries[d].package == op.mail.id && Receives(db, op.mail.parcel.next, x) && x in op.mail.deliveryIds && op.mail.deliveryIds[x] == d)
  }

  lemma DeliveriesByFan(limits: Limits, db: Db, op: MailOp, now: Time, d: Id)
    requires DidsBound(db) && Delivered(db) && IdsUsable(db, op) && op.Fan?
    ensures DeliveryRow(limits, db, Op.Mail(op), now, MailStep(limits, db, op, now), d)
  {
    hide DidsBound, Targets, Accepts, Accepted, Receives, Route, NextRowid;
    AcceptedIsAccepts(limits, db, op.parcel, now);
    OneRoute(db, op.parcel.next);
  }

  lemma DeliveriesByMail(limits: Limits, db: Db, op: MailOp, now: Time, d: Id)
    requires DidsBound(db) && Delivered(db) && IdsUsable(db, op)
    ensures DeliveryRow(limits, db, Op.Mail(op), now, MailStep(limits, db, op, now), d)
  {
    hide DidsBound, FanOut, LastAmong, Accepted, Receives, IdsUsable, MessagesAfter;
    match op
    case Fan(_, _, _) => DeliveriesByFan(limits, db, op, now, d);
    case Acknowledge(_, _) =>
    case PurgeMail =>
  }

  lemma DeliveriesByMembership(limits: Limits, db: Db, op: MembershipOp, now: Time, d: Id)
    requires Delivered(db)
    ensures DeliveryRow(limits, db, Membership(op), now, MembershipStep(limits, db, op, now), d)
  {
    hide Delivered, LastAmong, UploadsWithout, SlotsWithout, ExecutionsOf, RecipientsOf, BlobsOfAny, BlobsOf, DeliveriesWithout, PackagesOf, Members, DeliveriesTo, Accepted, Receives,
      RegisterReplicaAccount, AddReplica, AddSharedRecipient, RemoveSharedRecipient, RowRemoved;
    PackageIsHere(db, d);
    match op
    case RemoveMember(_, _, replica) => ToOthersStay(db.deliveries, replica, d);
    case DeleteAccount(account, _) => OtherAccountsStay(db, account, d);
    case _ =>
  }

  lemma PackageIsHere(db: Db, d: Id)
    requires Delivered(db)
    ensures d in db.deliveries ==> db.deliveries[d].package in db.packages
  {
  }

  lemma ToOthersStay(deliveries: map<Id, Delivery>, replica: Did, d: Id)
    ensures d in DeliveriesTo(deliveries, replica) <==> d in deliveries && deliveries[d].replica == replica
  {
  }

  lemma OtherAccountsStay(db: Db, account: Did, d: Id)
    requires Delivered(db)
    ensures var left := DeliveriesWithout(db.deliveries, PackagesOf(db.packages, account), Members(db.replicas, account));
      && (d in left <==> d in db.deliveries && db.deliveries[d].package in db.packages && db.packages[db.deliveries[d].package].account != account)
      && (d in left ==> left[d] == db.deliveries[d])
  {
  }

  lemma DeliveryRows(limits: Limits, w: World, op: Op, now: Time, d: Id)
    requires Sound(limits, w) && Admissible(w, op, now)
    ensures DeliveryRow(limits, w.db, op, now, Step(limits, w.db, op, now), d)
  {
    hide Sound, DidsBound, Delivered, OrdinaryStep, MembershipStep, MailStep, ExecutionStep, BlobStep, NewIds, Accepted, Receives;
    SoundTables(limits, w);
    PackageIsHere(w.db, d);
    match op
    case Ordinary(o) => OrdinaryFrame(limits, w.db, o, now);
    case Membership(m) => DeliveriesByMembership(limits, w.db, m, now, d);
    case Mail(m) => DeliveriesByMail(limits, w.db, m, now, d);
    case Executions(e) => ExecutionFrame(limits, w.db, e, now);
    case Blobs(b) => BlobFrame(limits, w.db, b, now);
  }
}
