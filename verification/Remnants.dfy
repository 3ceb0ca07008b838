/**
 * What a purge does show in: the ids a deletion reports and the count a later
 * purge does. In any continuation the purged database is the other without
 * exactly the rows that purge took, so each answer differs by those of them
 * still there.
 */
module Remnants {
  import opened Dids
  import opened Tables
  import opened Sums
  import opened StoreSpec
  import opened StoreRuns
  import opened StoreFrames
  import opened Mail
  import opened Purging
  import Quotas

  /** The packages but for those, each as it was but for its rowid, and the deliveries of the others. */
  ghost predicate MailWithout(ps: map<Id, Package>, ds: map<Id, Delivery>, qs: map<Id, Package>, es: map<Id, Delivery>, gone: set<Id>) {
    && qs.Keys == ps.Keys - gone
    && (forall p :: p in qs ==> qs[p].(rowid := 0) == ps[p].(rowid := 0))
    && es == DeliveriesWithout(ds, gone, {})
  }

  /** The one database is the other without those messages and those packages. */
  ghost predicate Without(a: Db, b: Db, messages: set<Id>, packages: set<Id>) {
    b.messages == a.messages - messages && MailWithout(a.packages, a.deliveries, b.packages, b.deliveries, packages)
  }

  /** What is left of them is past its expiry. */
  ghost predicate Past(messages: map<Id, Message>, packages: map<Id, Package>, ms: set<Id>, ps: set<Id>, t: Time) {
    && (forall m :: m in messages && m in ms ==> messages[m].expiresAt <= t)
    && (forall p :: p in packages && p in ps ==> packages[p].expiresAt <= t)
  }

  lemma PurgeIsWithout(db: Db, t: Time)
    ensures Without(db, PurgeExpired(db, t), ExpiredMessages(db.messages, t), LapsedPackages(db.packages, t))
    ensures Past(db.messages, db.packages, ExpiredMessages(db.messages, t), LapsedPackages(db.packages, t), t)
  {
    var r := PurgeExpired(db, t);
    assert r.messages == db.messages - ExpiredMessages(db.messages, t);
  }

  // ---- messages ----

  lemma MessagesAfterStore(ms: map<Id, Message>, gone: set<Id>, id: Id, row: Message)
    requires id !in gone
    ensures (ms - gone)[id := row] == ms[id := row] - gone
  {
  }

  lemma MessagesAfterDelete(ms: map<Id, Message>, gone: set<Id>, owner: Did, ids: set<Id>)
    ensures (ms - gone) - Named(ms - gone, owner, ids) == (ms - Named(ms, owner, ids)) - gone
    ensures MessagesWithout(ms - gone, owner) == MessagesWithout(ms, owner) - gone
  {
  }

  lemma MessagesAfterPurge(ms: map<Id, Message>, gone: set<Id>, now: Time)
    ensures MessagesAfter(ms - gone, now) == MessagesAfter(ms, now) - gone
  {
  }

  lemma MessagesAfterOrdinary(limits: Limits, a: Db, b: Db, op: OrdinaryOp, now: Time, gone: set<Id>)
    requires Alike(a, b, now) && b.messages == a.messages - gone && NewIds(Ordinary(op)) !! gone
    ensures OrdinaryStep(limits, b, op, now).messages == OrdinaryStep(limits, a, op, now).messages - gone
  {
    hide Alike, GrantMediation, AddRecipient, RemoveRecipient, KeysWithout, MessagesWithout, UploadsWithout, BlobsOf, Named, StoreOutcomeOf;
    AlikeParts(a, b, now);
    match op
    case Store(owner, packed, id) =>
      assert id in NewIds(Ordinary(op));
      StoreOutcomeAlike(limits, a, b, owner, now);
      MessagesAfterStore(a.messages, gone, id, Message(owner, packed, now, now + limits.ttl));
    case Delete(owner, ids) => MessagesAfterDelete(a.messages, gone, owner, ids);
    case Revoke(did) => MessagesAfterDelete(a.messages, gone, did, {});
    case _ =>
  }

  // ---- packages and deliveries ----

  lemma MailAfterFan(a: Db, b: Db, gone: set<Id>, id: Id, row: Package, row': Package, added: map<Id, Delivery>)
    requires MailWithout(a.packages, a.deliveries, b.packages, b.deliveries, gone)
    requires id !in gone && row.(rowid := 0) == row'.(rowid := 0) && forall d :: d in added ==> added[d].package == id
    requires added.Keys !! a.deliveries.Keys
    ensures MailWithout(a.packages[id := row], a.deliveries + added, b.packages[id := row'], b.deliveries + added, gone)
  {
    assert DeliveriesWithout(a.deliveries + added, gone, {}) == DeliveriesWithout(a.deliveries, gone, {}) + added;
  }

  lemma LastAlike(a: Db, b: Db, gone: set<Id>, which: set<Id>, which': set<Id>, p: Id)
    requires MailWithout(a.packages, a.deliveries, b.packages, b.deliveries, gone)
    requires forall d :: d in b.deliveries ==> (d in which <==> d in which')
    requires p !in gone
    ensures p in LastAmong(a.deliveries, which) <==> p in LastAmong(b.deliveries, which')
  {
    var those := DeliveriesOf(b.deliveries, p);
    assert those == DeliveriesOf(a.deliveries, p);
    assert those <= which <==> those <= which';
    LastAmongOf(a.deliveries, which, p);
    LastAmongOf(b.deliveries, which', p);
  }

  lemma MailAfterEnding(a: Db, b: Db, gone: set<Id>, which: set<Id>, which': set<Id>)
    requires MailWithout(a.packages, a.deliveries, b.packages, b.deliveries, gone)
    requires forall d :: d in b.deliveries ==> (d in which <==> d in which')
    ensures MailWithout(a.packages - LastAmong(a.deliveries, which), a.deliveries - which, b.packages - LastAmong(b.deliveries, which'), b.deliveries - which', gone)
  {
    hide LastAmong;
    forall p | p !in gone ensures p in LastAmong(a.deliveries, which) <==> p in LastAmong(b.deliveries, which') {
      LastAlike(a, b, gone, which, which', p);
    }
    assert b.deliveries - which' == DeliveriesWithout(a.deliveries - which, gone, {});
  }

  lemma MailAfterDropping(a: Db, b: Db, gone: set<Id>, dropped: set<Id>, dropped': set<Id>, members: set<Did>)
    requires MailWithout(a.packages, a.deliveries, b.packages, b.deliveries, gone) && Addressed(b.packages, b.deliveries, b.replicas)
    requires forall p :: p in b.packages ==> (p in dropped <==> p in dropped')
    ensures MailWithout(a.packages - dropped, DeliveriesWithout(a.deliveries, dropped, members), b.packages - dropped', DeliveriesWithout(b.deliveries, dropped', members), gone)
  {
    var ds, es := DeliveriesWithout(a.deliveries, dropped, members), DeliveriesWithout(b.deliveries, dropped', members);
    forall d ensures d in es <==> d in DeliveriesWithout(ds, gone, {}) {
      assert d in b.deliveries <==> d in a.deliveries && a.deliveries[d].package !in gone;
    }
    assert es == DeliveriesWithout(ds, gone, {});
  }

  lemma MailAfterMail(limits: Limits, a: Db, b: Db, op: MailOp, now: Time, gone: set<Id>)
    requires IdsUsable(a, op) && IdsUsable(b, op) && Alike(a, b, now) && Delivered(a) && Delivered(b)
    requires MailWithout(a.packages, a.deliveries, b.packages, b.deliveries, gone) && NewIds(Op.Mail(op)) !! gone
    ensures var r, s := MailStep(limits, a, op, now), MailStep(limits, b, op, now); MailWithout(r.packages, r.deliveries, s.packages, s.deliveries, gone)
  {
    match op
    case Fan(parcel, id, ids) => MailAfterFanOut(limits, a, b, parcel, id, ids, now, gone);
    case Acknowledge(replica, ids) =>
      hide LastAmong, Alike, Delivered;
      MailAfterEnding(a, b, gone, Acknowledged(a.deliveries, replica, ids), Acknowledged(b.deliveries, replica, ids));
    case PurgeMail =>
      hide DeliveriesWithout, MessagesAfter, Alike, OneEach, RowidsUnique, Addressed;
      RowsSameBut(a.packages, b.packages, a.deliveries, b.deliveries, gone);
      MailAfterDropping(a, b, gone, LapsedPackages(a.packages, now), LapsedPackages(b.packages, now), {});
  }

  lemma RowsSameBut(ps: map<Id, Package>, qs: map<Id, Package>, ds: map<Id, Delivery>, es: map<Id, Delivery>, gone: set<Id>)
    requires MailWithout(ps, ds, qs, es, gone)
    ensures forall p :: p in qs ==> p in ps && qs[p].account == ps[p].account && qs[p].expiresAt == ps[p].expiresAt
  {
    forall p | p in qs ensures qs[p].account == ps[p].account && qs[p].expiresAt == ps[p].expiresAt {
      assert qs[p].(rowid := 0).account == ps[p].(rowid := 0).account && qs[p].(rowid := 0).expiresAt == ps[p].(rowid := 0).expiresAt;
    }
  }

  lemma MailAfterFanOut(limits: Limits, a: Db, b: Db, parcel: Parcel, id: Id, ids: map<Did, Id>, now: Time, gone: set<Id>)
    requires Alike(a, b, now) && MailWithout(a.packages, a.deliveries, b.packages, b.deliveries, gone)
    requires FreshFor(a, parcel.next, ids) && FreshFor(b, parcel.next, ids) && id !in gone
    ensures var r, s := FanOut(limits, a, parcel, id, ids, now), FanOut(limits, b, parcel, id, ids, now);
      MailWithout(r.packages, r.deliveries, s.packages, s.deliveries, gone)
  {
    hide Alike, MailWithout, NewDeliveries, Targets, Route, Accepts, ExpiryOf, NextRowid;
    AlikeParts(a, b, now);
    RoutesAlike(a, b, parcel.next);
    AcceptsAlike(limits, a, b, parcel, now);
    if Accepts(limits, a, parcel, now) {
      var r, s := FanOut(limits, a, parcel, id, ids, now), FanOut(limits, b, parcel, id, ids, now);
      AddedIsNew(a, parcel.next, id, ids);
      AddedIsFresh(a, parcel.next, id, ids);
      MailAfterFan(a, b, gone, id, r.packages[id], s.packages[id], NewDeliveries(Targets(a, parcel.next), id, ids));
    }
  }

  lemma AddedIsFresh(db: Db, next: Did, id: Id, ids: map<Did, Id>)
    requires FreshFor(db, next, ids)
    ensures NewDeliveries(Targets(db, next), id, ids).Keys !! db.deliveries.Keys
  {
    hide Targets;
  }

  lemma MailAfterMembership(limits: Limits, a: Db, b: Db, op: MembershipOp, now: Time, gone: set<Id>)
    requires Alike(a, b, now) && Delivered(b) && MailWithout(a.packages, a.deliveries, b.packages, b.deliveries, gone)
    ensures var r, s := MembershipStep(limits, a, op, now), MembershipStep(limits, b, op, now); MailWithout(r.packages, r.deliveries, s.packages, s.deliveries, gone)
  {
    hide Alike, LastAmong, DeliveriesWithout, UploadsWithout, SlotsWithout, BlobsOf, BlobsOfAny, ExecutionsOf, RecipientsOf, OneEach, RowidsUnique, Addressed,
      RegisterReplicaAccount, AddReplica, AddSharedRecipient, RemoveSharedRecipient, MailWithout;
    AlikeParts(a, b, now);
    match op
    case RemoveMember(account, mediator, replica) =>
      DeliveriesSame(a, b, gone);
      MailAfterEnding(a, b, gone, DeliveriesTo(a.deliveries, replica), DeliveriesTo(b.deliveries, replica));
    case DeleteAccount(account, mediator) =>
      RowsSameBut(a.packages, b.packages, a.deliveries, b.deliveries, gone);
      MailAfterDropping(a, b, gone, PackagesOf(a.packages, account), PackagesOf(b.packages, account), Members(a.replicas, account));
    case _ =>
  }

  lemma DeliveriesSame(a: Db, b: Db, gone: set<Id>)
    requires MailWithout(a.packages, a.deliveries, b.packages, b.deliveries, gone)
    ensures forall d :: d in b.deliveries ==> d in a.deliveries && b.deliveries[d] == a.deliveries[d]
  {
  }

  // ---- every call ----

  lemma WithoutKept(limits: Limits, a: Db, b: Db, op: Op, now: Time, ms: set<Id>, ps: set<Id>)
    requires Usable(a, op) && Usable(b, op) && Alike(a, b, now) && Delivered(a) && Delivered(b)
    requires Without(a, b, ms, ps) && NewIds(op) !! ms + ps
    ensures Without(Step(limits, a, op, now), Step(limits, b, op, now), ms, ps)
  {
    hide Alike, Delivered, MailWithout, IdsUsable, OrdinaryStep, MembershipStep, MailStep, ExecutionStep, BlobStep, NewIds;
    match op
    case Ordinary(o) =>
      OrdinaryFrame(limits, a, o, now);
      OrdinaryFrame(limits, b, o, now);
      MessagesAfterOrdinary(limits, a, b, o, now, ms);
    case Membership(m) =>
      MembershipFrame(limits, a, m, now);
      MembershipFrame(limits, b, m, now);
      MailAfterMembership(limits, a, b, m, now, ps);
    case Mail(m) =>
      MailAfterMail(limits, a, b, m, now, ps);
      MessagesAfterMail(limits, a, b, m, now, ms);
    case Executions(e) => ExecutionFrame(limits, a, e, now); ExecutionFrame(limits, b, e, now);
    case Blobs(x) => BlobFrame(limits, a, x, now); BlobFrame(limits, b, x, now);
  }

  lemma MessagesAfterMail(limits: Limits, a: Db, b: Db, op: MailOp, now: Time, gone: set<Id>)
    requires IdsUsable(a, op) && IdsUsable(b, op) && b.messages == a.messages - gone
    ensures MailStep(limits, b, op, now).messages == MailStep(limits, a, op, now).messages - gone
  {
    hide FanOut, AcknowledgeDeliveries, DeliveriesWithout, MessagesAfter, FreshFor;
    MessagesAfterPurge(a.messages, gone, now);
  }

  lemma MessagesKeptByOrdinary(limits: Limits, db: Db, op: OrdinaryOp, now: Time, m: Id)
    ensures var r := OrdinaryStep(limits, db, op, now); m in r.messages ==> m in NewIds(Ordinary(op)) || (m in db.messages && r.messages[m] == db.messages[m])
  {
    hide GrantMediation, AddRecipient, RemoveRecipient, KeysWithout, UploadsWithout, BlobsOf, StoreOutcomeOf;
  }

  lemma MessagesKeptByMail(limits: Limits, db: Db, op: MailOp, now: Time, m: Id)
    requires IdsUsable(db, op)
    ensures var r := MailStep(limits, db, op, now); m in r.messages ==> m in db.messages && r.messages[m] == db.messages[m]
  {
    hide FanOut, AcknowledgeDeliveries, DeliveriesWithout, FreshFor;
  }

  /** A row is as it was, or newly made. */
  lemma MessagesKeptOrNew(limits: Limits, db: Db, op: Op, now: Time, m: Id)
    requires Usable(db, op)
    ensures var r := Step(limits, db, op, now); m in r.messages ==> m in NewIds(op) || (m in db.messages && r.messages[m] == db.messages[m])
  {
    hide OrdinaryStep, MembershipStep, MailStep, ExecutionStep, BlobStep, NewIds;
    match op
    case Ordinary(o) => MessagesKeptByOrdinary(limits, db, o, now, m);
    case Membership(x) => MembershipFrame(limits, db, x, now);
    case Mail(x) => MessagesKeptByMail(limits, db, x, now, m);
    case Executions(e) => ExecutionFrame(limits, db, e, now);
    case Blobs(b) => BlobFrame(limits, db, b, now);
  }

  lemma PackagesKeptByMail(limits: Limits, db: Db, op: MailOp, now: Time, p: Id)
    requires IdsUsable(db, op)
    ensures var r := MailStep(limits, db, op, now); p in r.packages ==> p in NewIds(Op.Mail(op)) || (p in db.packages && r.packages[p] == db.packages[p])
  {
    hide FanOut, LastAmong, DeliveriesWithout, MessagesAfter, FreshFor;
    if op.Fan? && p != op.id {
      FanAddsOne(limits, db, op.parcel, op.id, op.deliveryIds, now, p);
    }
  }

  lemma FanAddsOne(limits: Limits, db: Db, parcel: Parcel, id: Id, ids: map<Did, Id>, now: Time, p: Id)
    requires FreshFor(db, parcel.next, ids) && p != id
    ensures var r := FanOut(limits, db, parcel, id, ids, now); p in r.packages ==> p in db.packages && r.packages[p] == db.packages[p]
  {
    hide Accepts, NewDeliveries, FreshFor, NextRowid, ExpiryOf, Route, Targets;
    if Accepts(limits, db, parcel, now) {
      var row := FanOut(limits, db, parcel, id, ids, now).packages[id];
      assert FanOut(limits, db, parcel, id, ids, now).packages == db.packages[id := row];
    }
  }

  lemma PackagesKeptOrNew(limits: Limits, db: Db, op: Op, now: Time, p: Id)
    requires Usable(db, op)
    ensures var r := Step(limits, db, op, now); p in r.packages ==> p in NewIds(op) || (p in db.packages && r.packages[p] == db.packages[p])
  {
    hide OrdinaryStep, MembershipStep, MailStep, ExecutionStep, BlobStep, NewIds;
    match op
    case Ordinary(o) => OrdinaryFrame(limits, db, o, now);
    case Membership(m) => Quotas.FewerPackagesAfterMembership(limits, db, m, now);
    case Mail(m) => PackagesKeptByMail(limits, db, m, now, p);
    case Executions(e) => ExecutionFrame(limits, db, e, now);
    case Blobs(b) => BlobFrame(limits, db, b, now);
  }

  lemma PastKept(limits: Limits, db: Db, op: Op, now: Time, ms: set<Id>, ps: set<Id>, t: Time)
    requires Usable(db, op) && Past(db.messages, db.packages, ms, ps, t) && NewIds(op) !! ms + ps
    ensures var r := Step(limits, db, op, now); Past(r.messages, r.packages, ms, ps, t)
  {
    hide Step, Usable, NewIds;
    var r := Step(limits, db, op, now);
    forall m | m in r.messages && m in ms ensures r.messages[m].expiresAt <= t {
      MessagesKeptOrNew(limits, db, op, now, m);
    }
    forall p | p in r.packages && p in ps ensures r.packages[p].expiresAt <= t {
      PackagesKeptOrNew(limits, db, op, now, p);
    }
  }

  // ---- every continuation ----

  /** The calls generate none of the ids again. */
  ghost predicate NeverAgain(calls: seq<Call>, ids: set<Id>) {
    forall i :: 0 <= i < |calls| ==> NewIds(calls[i].op) !! ids
  }

  ghost predicate PurgedApart(limits: Limits, dbs: seq<Db>, dbs': seq<Db>, calls: seq<Call>, t: Time) {
    && Continuation(limits, dbs, calls, t) && Continuation(limits, dbs', calls, t)
    && Delivered(dbs[0]) && dbs'[0] == PurgeExpired(dbs[0], t)
    && NeverAgain(calls, ExpiredMessages(dbs[0].messages, t) + LapsedPackages(dbs[0].packages, t))
  }

  lemma StepsOf(limits: Limits, dbs: seq<Db>, dbs': seq<Db>, calls: seq<Call>, t: Time, i: nat)
    requires PurgedApart(limits, dbs, dbs', calls, t) && i < |calls|
    ensures |dbs| == |calls| + 1 == |dbs'| && TimeBefore(calls, t, i) <= calls[i].now
    ensures Usable(dbs[i], calls[i].op) && dbs[i + 1] == Step(limits, dbs[i], calls[i].op, calls[i].now)
    ensures Usable(dbs'[i], calls[i].op) && dbs'[i + 1] == Step(limits, dbs'[i], calls[i].op, calls[i].now)
    ensures NewIds(calls[i].op) !! ExpiredMessages(dbs[0].messages, t) + LapsedPackages(dbs[0].packages, t)
  {
    hide Usable, Step, NewIds, Delivered, PurgeExpired, ExpiredMessages, LapsedPackages;
  }

  lemma ApartParts(limits: Limits, dbs: seq<Db>, dbs': seq<Db>, calls: seq<Call>, t: Time)
    requires PurgedApart(limits, dbs, dbs', calls, t)
    ensures |dbs| == |calls| + 1 == |dbs'| && dbs'[0] == PurgeExpired(dbs[0], t) && Delivered(dbs[0])
    ensures Continuation(limits, dbs, calls, t) && Continuation(limits, dbs', calls, t)
  {
    hide Usable, Step, NewIds, Delivered, PurgeExpired, ExpiredMessages, LapsedPackages;
  }

  /** In any continuation the purged database is the other without what the purge took, all of it past its expiry. */
  lemma {:induction false} StaysWithout(limits: Limits, dbs: seq<Db>, dbs': seq<Db>, calls: seq<Call>, t: Time, n: nat)
    requires PurgedApart(limits, dbs, dbs', calls, t) && n <= |calls|
    ensures |dbs| == |calls| + 1 == |dbs'|
    ensures Without(dbs[n], dbs'[n], ExpiredMessages(dbs[0].messages, t), LapsedPackages(dbs[0].packages, t))
    ensures Past(dbs[n].messages, dbs[n].packages, ExpiredMessages(dbs[0].messages, t), LapsedPackages(dbs[0].packages, t), t)
  {
    hide PurgedApart, Continuation, Without, Past, Alike, Delivered, Usable, Step, NewIds, PurgeExpired, ExpiredMessages, LapsedPackages;
    ApartParts(limits, dbs, dbs', calls, t);
    var ms, ps := ExpiredMessages(dbs[0].messages, t), LapsedPackages(dbs[0].packages, t);
    if n == 0 {
      PurgeIsWithout(dbs[0], t);
    } else {
      var op, now := calls[n - 1].op, calls[n - 1].now;
      StepsOf(limits, dbs, dbs', calls, t, n - 1);
      StaysWithout(limits, dbs, dbs', calls, t, n - 1);
      ContinuationsAlike(limits, dbs, dbs', calls, t, n - 1);
      AlikeLater(dbs[n - 1], dbs'[n - 1], TimeBefore(calls, t, n - 1), now);
      WithoutKept(limits, dbs[n - 1], dbs'[n - 1], op, now, ms, ps);
      PastKept(limits, dbs[n - 1], op, now, ms, ps, t);
    }
  }

  // ---- what shows ----

  lemma {:induction false} ReportedAlike(ms: map<Id, Message>, ns: map<Id, Message>, owner: Did, ids: seq<Id>)
    requires Named(ms, owner, Asked(ids)) == Named(ns, owner, Asked(ids))
    ensures Reported(ms, owner, ids) == Reported(ns, owner, ids)
  {
    if ids != [] {
      var before, id := ids[..|ids| - 1], ids[|ids| - 1];
      assert ids == before + [id];
      assert id in Named(ms, owner, Asked(ids)) <==> id in ms && ms[id].owner == owner;
      assert id in Named(ns, owner, Asked(ids)) <==> id in ns && ns[id].owner == owner;
      forall i ensures i in Named(ms, owner, Asked(before)) <==> i in Named(ns, owner, Asked(before)) {
        assert i in Asked(before) ==> i in Asked(ids);
        assert i in Named(ms, owner, Asked(ids)) <==> i in Named(ns, owner, Asked(ids));
      }
      ReportedAlike(ms, ns, owner, before);
    }
  }

  /** In any continuation, a deletion reports the same ids of both iff it names no message of the owner's that the purge took and that is still there. */
  lemma DeletionTellsApart(limits: Limits, dbs: seq<Db>, dbs': seq<Db>, calls: seq<Call>, t: Time, n: nat, owner: Did, ids: seq<Id>)
    requires PurgedApart(limits, dbs, dbs', calls, t) && n <= |calls|
    ensures |dbs| == |calls| + 1 == |dbs'|
    ensures Reported(dbs[n].messages, owner, ids) == Reported(dbs'[n].messages, owner, ids)
      <==> Named(dbs[n].messages, owner, Asked(ids)) !! ExpiredMessages(dbs[0].messages, t)
  {
    hide PurgedApart, Past, MailWithout, ExpiredMessages, LapsedPackages, Reported;
    StaysWithout(limits, dbs, dbs', calls, t, n);
    var a, b, gone := dbs[n].messages, dbs'[n].messages, ExpiredMessages(dbs[0].messages, t);
    NamedWithout(a, gone, owner, Asked(ids));
    ReportedIsNamed(a, owner, ids);
    ReportedIsNamed(b, owner, ids);
    if Named(a, owner, Asked(ids)) !! gone {
      ReportedAlike(a, b, owner, ids);
    } else {
      var m :| m in Named(a, owner, Asked(ids)) && m in gone;
      assert m in Reported(a, owner, ids) && m !in Reported(b, owner, ids);
    }
  }

  lemma NamedWithout(ms: map<Id, Message>, gone: set<Id>, owner: Did, ids: set<Id>)
    ensures Named(ms - gone, owner, ids) == Named(ms, owner, ids) - gone
  {
  }

  /** How much of what the purge took is still there. */
  function StillThere(db: Db, ms: set<Id>, ps: set<Id>): (n: nat) {
    |db.messages.Keys * ms| + |db.packages.Keys * ps|
  }

  lemma ExpiredSplit(ms: map<Id, Message>, gone: set<Id>, t: Time, now: Time)
    requires t <= now && forall m :: m in ms && m in gone ==> ms[m].expiresAt <= t
    ensures |ExpiredMessages(ms, now)| == |ExpiredMessages(ms - gone, now)| + |ms.Keys * gone|
  {
    assert ExpiredMessages(ms, now) == ExpiredMessages(ms - gone, now) + ms.Keys * gone;
    assert ExpiredMessages(ms - gone, now) !! ms.Keys * gone;
  }

  lemma LapsedSplit(ps: map<Id, Package>, qs: map<Id, Package>, gone: set<Id>, t: Time, now: Time)
    requires t <= now && qs.Keys == ps.Keys - gone && (forall p :: p in qs ==> qs[p].expiresAt == ps[p].expiresAt)
    requires forall p :: p in ps && p in gone ==> ps[p].expiresAt <= t
    ensures |LapsedPackages(ps, now)| == |LapsedPackages(qs, now)| + |ps.Keys * gone|
  {
    assert LapsedPackages(ps, now) == LapsedPackages(qs, now) + ps.Keys * gone;
    assert LapsedPackages(qs, now) !! ps.Keys * gone;
  }

  /** In any continuation, a later purge counts of the other exactly what the first took and is still there, and no more: the counts are the same iff nothing of it is. */
  lemma PurgeCountTellsApart(limits: Limits, dbs: seq<Db>, dbs': seq<Db>, calls: seq<Call>, t: Time, n: nat, now: Time)
    requires PurgedApart(limits, dbs, dbs', calls, t) && n <= |calls| && t <= now
    ensures |dbs| == |calls| + 1 == |dbs'|
    ensures PurgeCount(dbs[n], now) == PurgeCount(dbs'[n], now) + StillThere(dbs[n], ExpiredMessages(dbs[0].messages, t), LapsedPackages(dbs[0].packages, t))
    ensures PurgeCount(dbs[n], now) == PurgeCount(dbs'[n], now)
      <==> dbs[n].messages.Keys !! ExpiredMessages(dbs[0].messages, t) && dbs[n].packages.Keys !! LapsedPackages(dbs[0].packages, t)
  {
    hide PurgedApart, ExpiredMessages, LapsedPackages, DeliveriesWithout;
    StaysWithout(limits, dbs, dbs', calls, t, n);
    var a, b, ms, ps := dbs[n], dbs'[n], ExpiredMessages(dbs[0].messages, t), LapsedPackages(dbs[0].packages, t);
    RowsSameBut(a.packages, b.packages, a.deliveries, b.deliveries, ps);
    ExpiredSplit(a.messages, ms, t, now);
    LapsedSplit(a.packages, b.packages, ps, t, now);
    NoneMeansEmpty(a.messages.Keys, ms);
    NoneMeansEmpty(a.packages.Keys, ps);
  }

  lemma NoneMeansEmpty(a: set<Id>, b: set<Id>)
    ensures |a * b| == 0 <==> a !! b
  {
    assert forall x :: x in a && x in b <==> x in a * b;
    assert |a * b| == 0 <==> a * b == {};
  }

  // ---- a purge that shows in both ----

  const LIMITS := Limits(1, 1, 1, 1, 1, 1, 1, 1, 1)
  const OWNER := Short(1)
  const GRANTED := EMPTY.(accounts := map[OWNER := 0])
  const UNPURGED := GRANTED.(messages := map[7 := Message(OWNER, 0, 0, 1)])
  const NOTHING := History({}, {}, [], [])

  const CALLS := [Call(Ordinary(Grant(OWNER)), 0), Call(Ordinary(Store(OWNER, 0, 7)), 0)]
  const WORLDS := [INITIAL, World(GRANTED, 0, {}, NOTHING), World(UNPURGED, 0, {7}, NOTHING)]

  lemma Grants()
    ensures Follows(LIMITS, WORLDS[0], CALLS[0], WORLDS[1])
  {
  }

  lemma Stores()
    ensures Follows(LIMITS, WORLDS[1], CALLS[1], WORLDS[2])
  {
    assert UnexpiredMessages(GRANTED.messages, OWNER, 0) == {};
  }

  lemma AnswersDiffer()
    ensures var purged := PurgeExpired(UNPURGED, 1);
      && Reported(UNPURGED.messages, OWNER, [7]) == [7] && Reported(purged.messages, OWNER, [7]) == []
      && PurgeCount(UNPURGED, 1) == 1 && PurgeCount(purged, 1) == 0
  {
    var purged := PurgeExpired(UNPURGED, 1);
    assert purged.messages == map[];
    assert ExpiredMessages(UNPURGED.messages, 1) == {7} && LapsedPackages(UNPURGED.packages, 1) == {};
    assert ExpiredMessages(purged.messages, 1) == {} && LapsedPackages(purged.packages, 1) == {};
    assert [7][..0] == [];
    assert Reported(UNPURGED.messages, OWNER, []) == [];
  }

  /** A run that leaves a message past its expiry: purged or not, a deletion of it reports nothing or it, and the next purge counts none or one. */
  lemma BothShow()
    ensures IsRun(LIMITS, WORLDS, CALLS)
    ensures var db := WORLDS[2].db; var purged := PurgeExpired(db, 1);
      && Reported(db.messages, OWNER, [7]) == [7] && Reported(purged.messages, OWNER, [7]) == []
      && PurgeCount(db, 1) == 1 && PurgeCount(purged, 1) == 0
  {
    hide Follows;
    Grants();
    Stores();
    AnswersDiffer();
    forall i | 0 <= i < |CALLS| ensures Follows(LIMITS, WORLDS[i], CALLS[i], WORLDS[i + 1]) {
      assert i == 0 || i == 1;
    }
  }
}
