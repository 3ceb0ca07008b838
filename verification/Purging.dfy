/**
 * A purge of expired mail shows in nothing that waits: states that differ
 * only in rows past their expiry, and in rowids that order the rest alike,
 * deliver, count and accept alike and stay so through every call.
 */
module Purging {
  import opened Dids
  import opened Tables
  import opened Sums
  import opened Listing
  import opened StoreSpec
  import opened StoreRuns
  import opened StoreFrames
  import opened Mail
  import opened Waiting

  predicate LiveIn(packages: map<Id, Package>, p: Id, t: Time) {
    p in packages && packages[p].expiresAt > t
  }

  /** The unexpired packages are the same but for rowids, which order them alike. */
  ghost predicate SamePackages(ps: map<Id, Package>, qs: map<Id, Package>, t: Time) {
    && (forall p :: LiveIn(ps, p, t) <==> LiveIn(qs, p, t))
    && (forall p :: LiveIn(ps, p, t) ==> ps[p].(rowid := 0) == qs[p].(rowid := 0))
    && (forall p, q :: LiveIn(ps, p, t) && LiveIn(ps, q, t) ==> (ps[p].rowid < ps[q].rowid <==> qs[p].rowid < qs[q].rowid))
  }

  predicate WaitsIn(packages: map<Id, Package>, deliveries: map<Id, Delivery>, d: Id, t: Time) {
    d in deliveries && LiveIn(packages, deliveries[d].package, t)
  }

  /** The deliveries of unexpired packages are the same. */
  ghost predicate SameDeliveries(ps: map<Id, Package>, ds: map<Id, Delivery>, qs: map<Id, Package>, es: map<Id, Delivery>, t: Time) {
    && (forall d :: WaitsIn(ps, ds, d, t) <==> WaitsIn(qs, es, d, t))
    && (forall d :: WaitsIn(ps, ds, d, t) ==> ds[d] == es[d])
  }

  predicate MessageLiveIn(messages: map<Id, Message>, m: Id, t: Time) {
    m in messages && messages[m].expiresAt > t
  }

  /** The unexpired messages are the same. */
  ghost predicate SameMessages(ms: map<Id, Message>, ns: map<Id, Message>, t: Time) {
    && (forall m :: MessageLiveIn(ms, m, t) <==> MessageLiveIn(ns, m, t))
    && (forall m :: MessageLiveIn(ms, m, t) ==> ms[m] == ns[m])
  }

  ghost predicate SameRest(a: Db, b: Db) {
    b == a.(messages := b.messages, packages := b.packages, deliveries := b.deliveries)
  }

  /** From `t` on no delivery, no count of what waits and no outcome tells the two apart. */
  ghost predicate Alike(a: Db, b: Db, t: Time) {
    && SameRest(a, b)
    && SameMessages(a.messages, b.messages, t)
    && SamePackages(a.packages, b.packages, t)
    && SameDeliveries(a.packages, a.deliveries, b.packages, b.deliveries, t)
  }

  // ---- time passes, a purge runs ----

  lemma AlikeLater(a: Db, b: Db, t: Time, t': Time)
    requires Alike(a, b, t) && t <= t'
    ensures Alike(a, b, t')
  {
    SameMessagesLater(a.messages, b.messages, t, t');
    SamePackagesLater(a.packages, b.packages, t, t');
    assert forall d :: WaitsIn(a.packages, a.deliveries, d, t') ==> WaitsIn(a.packages, a.deliveries, d, t);
    assert forall d :: WaitsIn(b.packages, b.deliveries, d, t') ==> WaitsIn(b.packages, b.deliveries, d, t);
  }

  lemma SameMessagesLater(ms: map<Id, Message>, ns: map<Id, Message>, t: Time, t': Time)
    requires SameMessages(ms, ns, t) && t <= t'
    ensures SameMessages(ms, ns, t')
  {
    assert forall m :: MessageLiveIn(ms, m, t') ==> MessageLiveIn(ms, m, t);
    assert forall m :: MessageLiveIn(ns, m, t') ==> MessageLiveIn(ns, m, t);
  }

  lemma SamePackagesLater(ps: map<Id, Package>, qs: map<Id, Package>, t: Time, t': Time)
    requires SamePackages(ps, qs, t) && t <= t'
    ensures SamePackages(ps, qs, t')
  {
    assert forall p :: LiveIn(ps, p, t') ==> LiveIn(ps, p, t);
    assert forall p :: LiveIn(qs, p, t') ==> LiveIn(qs, p, t);
  }

  lemma PurgeIsAlike(db: Db, t: Time)
    ensures Alike(db, PurgeExpired(db, t), t)
  {
    var r := PurgeExpired(db, t);
    assert forall m :: MessageLiveIn(r.messages, m, t) <==> MessageLiveIn(db.messages, m, t);
    assert forall p :: LiveIn(r.packages, p, t) <==> LiveIn(db.packages, p, t);
    assert forall d :: WaitsIn(r.packages, r.deliveries, d, t) <==> WaitsIn(db.packages, db.deliveries, d, t);
  }

  lemma AlikeSymmetric(a: Db, b: Db, t: Time)
    requires Alike(a, b, t)
    ensures Alike(b, a, t)
  {
  }

  lemma AlikeTransitive(a: Db, b: Db, c: Db, t: Time)
    requires Alike(a, b, t) && Alike(b, c, t)
    ensures Alike(a, c, t)
  {
  }

  // ---- answers ----

  lemma RetainedAlike(ps: map<Id, Package>, qs: map<Id, Package>, account: Did, now: Time)
    requires SamePackages(ps, qs, now)
    ensures RetainedBytes(ps, account, now) == RetainedBytes(qs, account, now)
  {
    var r, s := RetainedBytes(ps, account, now), RetainedBytes(qs, account, now);
    forall p ensures p in r <==> p in s {
      assert p in r ==> LiveIn(ps, p, now);
      assert p in s ==> LiveIn(qs, p, now);
      assert LiveIn(ps, p, now) ==> ps[p].(rowid := 0).account == qs[p].(rowid := 0).account;
    }
    forall p | p in r ensures r[p] == s[p] {
      assert LiveIn(ps, p, now);
      assert ps[p].(rowid := 0).bytes == qs[p].(rowid := 0).bytes;
    }
  }

  lemma RoutesAlike(a: Db, b: Db, next: Did)
    requires SameRest(a, b)
    ensures Route(a, next) == Route(b, next) && Targets(a, next) == Targets(b, next)
  {
  }

  lemma AcceptsAlike(limits: Limits, a: Db, b: Db, parcel: Parcel, now: Time)
    requires Alike(a, b, now)
    ensures Accepts(limits, a, parcel, now) == Accepts(limits, b, parcel, now)
  {
    hide Alike, Route, Targets, ExpiryOf, RetainedBytes;
    AlikeParts(a, b, now);
    RoutesAlike(a, b, parcel.next);
    if Route(a, parcel.next).Some? {
      RetainedAlike(a.packages, b.packages, Route(a, parcel.next).value, now);
    }
  }

  lemma AlikeParts(a: Db, b: Db, t: Time)
    requires Alike(a, b, t)
    ensures SameRest(a, b) && SameMessages(a.messages, b.messages, t)
    ensures SamePackages(a.packages, b.packages, t) && SameDeliveries(a.packages, a.deliveries, b.packages, b.deliveries, t)
  {
  }

  lemma FanOutOutcomeAlike(limits: Limits, a: Db, b: Db, parcel: Parcel, id: Id, ids: map<Did, Id>, now: Time)
    requires Alike(a, b, now)
    requires Targets(a, parcel.next) <= ids.Keys && Targets(b, parcel.next) <= ids.Keys && OneToOne(ids)
    ensures FanOutOutcomeOf(limits, a, parcel, id, ids, now) == FanOutOutcomeOf(limits, b, parcel, id, ids, now)
  {
    hide Alike, Route, Targets, ExpiryOf, RetainedBytes;
    AlikeParts(a, b, now);
    RoutesAlike(a, b, parcel.next);
    if Route(a, parcel.next).Some? {
      RetainedAlike(a.packages, b.packages, Route(a, parcel.next).value, now);
    }
  }

  lemma UnexpiredAlike(ms: map<Id, Message>, ns: map<Id, Message>, owner: Did, now: Time)
    requires SameMessages(ms, ns, now)
    ensures UnexpiredMessages(ms, owner, now) == UnexpiredMessages(ns, owner, now)
  {
    forall m ensures m in UnexpiredMessages(ms, owner, now) <==> m in UnexpiredMessages(ns, owner, now) {
      assert m in UnexpiredMessages(ms, owner, now) ==> MessageLiveIn(ms, m, now);
      assert m in UnexpiredMessages(ns, owner, now) ==> MessageLiveIn(ns, m, now);
    }
  }

  lemma StoreOutcomeAlike(limits: Limits, a: Db, b: Db, owner: Did, now: Time)
    requires Alike(a, b, now)
    ensures StoreOutcomeOf(limits, a, owner, now) == StoreOutcomeOf(limits, b, owner, now)
    ensures MessageCount(a, owner, now) == MessageCount(b, owner, now)
  {
    UnexpiredAlike(a.messages, b.messages, owner, now);
  }

  lemma WaitingAlike(a: Db, b: Db, replica: Did, next: Option<Did>, now: Time)
    requires Alike(a, b, now)
    ensures WaitingFor(a, replica, next, now) == WaitingFor(b, replica, next, now)
    ensures DeliveryCount(a, replica, next, now) == DeliveryCount(b, replica, next, now)
  {
    forall d ensures d in WaitingFor(a, replica, next, now) <==> d in WaitingFor(b, replica, next, now) {
      assert d in WaitingFor(a, replica, next, now) ==> WaitsIn(a.packages, a.deliveries, d, now);
      assert d in WaitingFor(b, replica, next, now) ==> WaitsIn(b.packages, b.deliveries, d, now);
      if WaitsIn(a.packages, a.deliveries, d, now) {
        var p := a.deliveries[d].package;
        assert a.packages[p].(rowid := 0).next == b.packages[p].(rowid := 0).next;
      }
    }
  }

  lemma SoonerAlike(a: Db, b: Db, d: Id, e: Id, now: Time)
    requires Alike(a, b, now)
    requires WaitsIn(a.packages, a.deliveries, d, now) && WaitsIn(a.packages, a.deliveries, e, now)
    ensures Sooner(a, d, e) == Sooner(b, d, e)
    ensures MessageOf(a, d) == MessageOf(b, d)
  {
    assert WaitsIn(b.packages, b.deliveries, d, now) && WaitsIn(b.packages, b.deliveries, e, now);
    var p, q := a.deliveries[d].package, a.deliveries[e].package;
    assert a.packages[p].(rowid := 0).createdAt == b.packages[p].(rowid := 0).createdAt;
    assert a.packages[q].(rowid := 0).createdAt == b.packages[q].(rowid := 0).createdAt;
    assert a.packages[p].(rowid := 0).packed == b.packages[p].(rowid := 0).packed;
  }

  lemma OrderAlike(a: Db, b: Db, replica: Did, next: Option<Did>, now: Time)
    requires Alike(a, b, now) && Delivered(a) && Delivered(b)
    ensures InOrder(a, replica, next, now) == InOrder(b, replica, next, now)
  {
    hide Alike, Delivered, Sooner, StrictTotalOn, IsListing;
    WaitingAlike(a, b, replica, next, now);
    SoonerIsTotal(a, replica, next, now);
    var keys := WaitingFor(a, replica, next, now);
    var less, less' := (d, e) => Sooner(a, d, e), (d, e) => Sooner(b, d, e);
    forall d, e | d in keys && e in keys ensures less(d, e) == less'(d, e) {
      SoonerAlike(a, b, d, e, now);
    }
    ListingUnique(InOrder(a, replica, next, now), InOrder(b, replica, next, now), keys, less, less');
  }

  lemma MessagesOfAlike(a: Db, b: Db, ids: seq<Id>, now: Time)
    requires Alike(a, b, now)
    requires AllHere(a, ids) && AllHere(b, ids)
    requires forall i :: 0 <= i < |ids| ==> WaitsIn(a.packages, a.deliveries, ids[i], now)
    ensures MessagesOf(a, ids) == MessagesOf(b, ids)
  {
    hide Alike, Sooner, MessageOf;
    forall i | 0 <= i < |ids| ensures MessageOf(a, ids[i]) == MessageOf(b, ids[i]) {
      SoonerAlike(a, b, ids[i], ids[i], now);
    }
  }

  lemma OrderWaits(db: Db, replica: Did, next: Option<Did>, now: Time)
    requires Delivered(db)
    ensures var order := InOrder(db, replica, next, now); forall i :: 0 <= i < |order| ==> WaitsIn(db.packages, db.deliveries, order[i], now)
  {
    hide Delivered, Sooner;
    var order := InOrder(db, replica, next, now);
    forall i | 0 <= i < |order| ensures WaitsIn(db.packages, db.deliveries, order[i], now) {
      assert order[i] in order;
    }
  }

  /** The same deliveries, in the same order. */
  lemma DeliveriesForAlike(a: Db, b: Db, replica: Did, limit: nat, next: Option<Did>, now: Time)
    requires Alike(a, b, now) && Delivered(a) && Delivered(b)
    ensures DeliveriesFor(a, replica, limit, next, now) == DeliveriesFor(b, replica, limit, next, now)
  {
    hide Alike, Delivered, MessagesOf, InOrder, WaitsIn, WaitingFor, IsListing, Sooner;
    OrderAlike(a, b, replica, next, now);
    OrderIsHere(a, replica, next, now);
    OrderIsHere(b, replica, next, now);
    OrderWaits(a, replica, next, now);
    MessagesOfAlike(a, b, First(InOrder(a, replica, next, now), limit), now);
  }

  // ---- calls: ordinary mediation ----

  lemma SameAfterStoring(ms: map<Id, Message>, ns: map<Id, Message>, id: Id, row: Message, t: Time)
    requires SameMessages(ms, ns, t)
    ensures SameMessages(ms[id := row], ns[id := row], t)
  {
    var ms', ns' := ms[id := row], ns[id := row];
    assert forall m :: m != id ==> (MessageLiveIn(ms', m, t) <==> MessageLiveIn(ms, m, t)) && (MessageLiveIn(ns', m, t) <==> MessageLiveIn(ns, m, t));
  }

  lemma SameAfterDeleting(ms: map<Id, Message>, ns: map<Id, Message>, owner: Did, ids: set<Id>, t: Time)
    requires SameMessages(ms, ns, t)
    ensures SameMessages(ms - Named(ms, owner, ids), ns - Named(ns, owner, ids), t)
    ensures SameMessages(MessagesWithout(ms, owner), MessagesWithout(ns, owner), t)
  {
    var ms', ns' := ms - Named(ms, owner, ids), ns - Named(ns, owner, ids);
    assert forall m :: MessageLiveIn(ms', m, t) <==> MessageLiveIn(ms, m, t) && !(m in ids && ms[m].owner == owner);
    assert forall m :: MessageLiveIn(ns', m, t) <==> MessageLiveIn(ns, m, t) && !(m in ids && ns[m].owner == owner);
    var ms'', ns'' := MessagesWithout(ms, owner), MessagesWithout(ns, owner);
    assert forall m :: MessageLiveIn(ms'', m, t) <==> MessageLiveIn(ms, m, t) && ms[m].owner != owner;
    assert forall m :: MessageLiveIn(ns'', m, t) <==> MessageLiveIn(ns, m, t) && ns[m].owner != owner;
  }

  lemma OrdinaryAlike(limits: Limits, a: Db, b: Db, op: OrdinaryOp, now: Time)
    requires Alike(a, b, now)
    ensures Alike(OrdinaryStep(limits, a, op, now), OrdinaryStep(limits, b, op, now), now)
  {
    hide SameMessages, SamePackages, SameDeliveries, UploadsWithout, KeysWithout, MessagesWithout, Named;
    match op
    case Store(owner, packed, id) =>
      StoreOutcomeAlike(limits, a, b, owner, now);
      SameAfterStoring(a.messages, b.messages, id, Message(owner, packed, now, now + limits.ttl), now);
    case Delete(owner, ids) => SameAfterDeleting(a.messages, b.messages, owner, ids, now);
    case Revoke(did) => SameAfterDeleting(a.messages, b.messages, did, {}, now);
    case _ =>
  }

  // ---- calls: mail ----

  lemma SameAfterFan(a: Db, b: Db, id: Id, row: Package, row': Package, now: Time)
    requires SamePackages(a.packages, b.packages, now)
    requires id !in a.packages && id !in b.packages && row.(rowid := 0) == row'.(rowid := 0)
    requires row.rowid == NextRowid(a.packages) && row'.rowid == NextRowid(b.packages)
    ensures SamePackages(a.packages[id := row], b.packages[id := row'], now)
  {
    var ps, qs := a.packages[id := row], b.packages[id := row'];
    assert forall p :: p != id ==> (LiveIn(ps, p, now) <==> LiveIn(a.packages, p, now)) && (LiveIn(qs, p, now) <==> LiveIn(b.packages, p, now));
    assert row.expiresAt == row.(rowid := 0).expiresAt == row'.expiresAt;
  }

  /** A new delivery waits iff its package is unexpired, and every other as before. */
  lemma WaitsAfterFan(packages: map<Id, Package>, deliveries: map<Id, Delivery>, replicas: map<Did, Replica>, added: map<Id, Delivery>, id: Id, row: Package, d: Id, now: Time)
    requires Addressed(packages, deliveries, replicas) && id !in packages
    requires forall e :: e in added ==> added[e].package == id
    ensures WaitsIn(packages[id := row], deliveries + added, d, now) <==> if d in added then row.expiresAt > now else WaitsIn(packages, deliveries, d, now)
  {
  }

  lemma AddedIsNew(db: Db, next: Did, id: Id, ids: map<Did, Id>)
    requires FreshFor(db, next, ids)
    ensures forall d :: d in NewDeliveries(Targets(db, next), id, ids) ==> NewDeliveries(Targets(db, next), id, ids)[d].package == id
  {
    hide Targets;
  }

  lemma DeliveriesSameAfterFan(a: Db, b: Db, id: Id, row: Package, row': Package, added: map<Id, Delivery>, now: Time)
    requires SameDeliveries(a.packages, a.deliveries, b.packages, b.deliveries, now)
    requires forall e :: e in added ==> added[e].package == id
    requires Addressed(a.packages, a.deliveries, a.replicas) && Addressed(b.packages, b.deliveries, b.replicas)
    requires id !in a.packages && id !in b.packages && row.expiresAt == row'.expiresAt
    ensures SameDeliveries(a.packages[id := row], a.deliveries + added, b.packages[id := row'], b.deliveries + added, now)
  {
    hide WaitsIn, Addressed;
    var ps, qs, ds, es := a.packages[id := row], b.packages[id := row'], a.deliveries + added, b.deliveries + added;
    forall d ensures WaitsIn(ps, ds, d, now) <==> WaitsIn(qs, es, d, now)
      ensures WaitsIn(ps, ds, d, now) && d !in added ==> WaitsIn(a.packages, a.deliveries, d, now) {
      WaitsAfterFan(a.packages, a.deliveries, a.replicas, added, id, row, d, now);
      WaitsAfterFan(b.packages, b.deliveries, b.replicas, added, id, row', d, now);
    }
    forall d | WaitsIn(ps, ds, d, now) ensures d in ds && d in es && ds[d] == es[d] {
      WaitsMeans(ps, ds, d, now);
      WaitsMeans(qs, es, d, now);
    }
  }

  lemma WaitsMeans(packages: map<Id, Package>, deliveries: map<Id, Delivery>, d: Id, now: Time)
    requires WaitsIn(packages, deliveries, d, now)
    ensures d in deliveries && LiveIn(packages, deliveries[d].package, now)
  {
  }

  lemma FanAlike(limits: Limits, a: Db, b: Db, parcel: Parcel, id: Id, ids: map<Did, Id>, now: Time)
    requires Alike(a, b, now) && Delivered(a) && Delivered(b)
    requires FreshFor(a, parcel.next, ids) && FreshFor(b, parcel.next, ids) && id !in a.packages && id !in b.packages
    ensures Alike(FanOut(limits, a, parcel, id, ids, now), FanOut(limits, b, parcel, id, ids, now), now)
  {
    hide SamePackages, SameDeliveries, SameMessages, NewDeliveries, Addressed, OneEach, RowidsUnique, Targets, Route, Accepts, ExpiryOf;
    var r, s := FanOut(limits, a, parcel, id, ids, now), FanOut(limits, b, parcel, id, ids, now);
    RoutesAlike(a, b, parcel.next);
    AcceptsAlike(limits, a, b, parcel, now);
    if Accepts(limits, a, parcel, now) {
      SameAfterFan(a, b, id, r.packages[id], s.packages[id], now);
      AddedIsNew(a, parcel.next, id, ids);
      DeliveriesSameAfterFan(a, b, id, r.packages[id], s.packages[id], NewDeliveries(Targets(a, parcel.next), id, ids), now);
    }
  }

  /** Two selections agree on the deliveries of unexpired packages. */
  ghost predicate SelectAlike(a: Db, b: Db, which: set<Id>, which': set<Id>, now: Time) {
    forall d :: WaitsIn(a.packages, a.deliveries, d, now) ==> (d in which <==> d in which')
  }

  lemma LastAmongAlike(a: Db, b: Db, which: set<Id>, which': set<Id>, p: Id, now: Time)
    requires SamePackages(a.packages, b.packages, now) && SameDeliveries(a.packages, a.deliveries, b.packages, b.deliveries, now)
    requires SelectAlike(a, b, which, which', now)
    requires LiveIn(a.packages, p, now)
    ensures p in LastAmong(a.deliveries, which) <==> p in LastAmong(b.deliveries, which')
  {
    forall d ensures d in DeliveriesOf(a.deliveries, p) <==> d in DeliveriesOf(b.deliveries, p) {
      assert d in DeliveriesOf(a.deliveries, p) ==> WaitsIn(a.packages, a.deliveries, d, now);
      assert d in DeliveriesOf(b.deliveries, p) ==> WaitsIn(b.packages, b.deliveries, d, now);
    }
    var those := DeliveriesOf(a.deliveries, p);
    assert those == DeliveriesOf(b.deliveries, p);
    assert forall d :: d in those ==> WaitsIn(a.packages, a.deliveries, d, now);
    assert those <= which <==> those <= which';
    LastAmongOf(a.deliveries, which, p);
    LastAmongOf(b.deliveries, which', p);
  }

  lemma LastAmongOf(deliveries: map<Id, Delivery>, which: set<Id>, p: Id)
    ensures p in LastAmong(deliveries, which) <==> DeliveriesOf(deliveries, p) != {} && DeliveriesOf(deliveries, p) <= which
  {
    var those := DeliveriesOf(deliveries, p);
    if those != {} && those <= which {
      var d :| d in those;
      assert deliveries[d].package == p;
    }
    if p in LastAmong(deliveries, which) {
      var d :| d in deliveries && d in which && DeliveriesOf(deliveries, deliveries[d].package) <= which && deliveries[d].package == p;
      assert d in those;
    }
  }

  /** The same ones of both are left, as they were. */
  lemma SameOfFewer(ps: map<Id, Package>, qs: map<Id, Package>, gone: set<Id>, gone': set<Id>, t: Time)
    requires SamePackages(ps, qs, t)
    requires forall p :: LiveIn(ps, p, t) ==> (p in gone <==> p in gone')
    ensures SamePackages(ps - gone, qs - gone', t)
  {
    var ps', qs' := ps - gone, qs - gone';
    assert forall p :: LiveIn(ps', p, t) <==> LiveIn(ps, p, t) && p !in gone;
    assert forall p :: LiveIn(qs', p, t) <==> LiveIn(qs, p, t) && p !in gone';
  }

  lemma EndingAlike(a: Db, b: Db, which: set<Id>, which': set<Id>, now: Time)
    requires SamePackages(a.packages, b.packages, now) && SameDeliveries(a.packages, a.deliveries, b.packages, b.deliveries, now)
    requires SelectAlike(a, b, which, which', now)
    ensures var r, s := EndDeliveries(a, which), EndDeliveries(b, which');
      SamePackages(r.packages, s.packages, now) && SameDeliveries(r.packages, r.deliveries, s.packages, s.deliveries, now)
  {
    hide LastAmong, LiveIn, WaitsIn, SamePackages;
    forall p | LiveIn(a.packages, p, now) ensures p in LastAmong(a.deliveries, which) <==> p in LastAmong(b.deliveries, which') {
      LastAmongAlike(a, b, which, which', p, now);
    }
    SameOfFewer(a.packages, b.packages, LastAmong(a.deliveries, which), LastAmong(b.deliveries, which'), now);
    var r, s := EndDeliveries(a, which), EndDeliveries(b, which');
    forall d ensures WaitsIn(r.packages, r.deliveries, d, now) <==> WaitsIn(a.packages, a.deliveries, d, now) && d !in which {
      StillPlaced(a, which, d, now);
    }
    forall d ensures WaitsIn(s.packages, s.deliveries, d, now) <==> WaitsIn(b.packages, b.deliveries, d, now) && d !in which' {
      StillPlaced(b, which', d, now);
    }
    forall d | WaitsIn(r.packages, r.deliveries, d, now) ensures d in r.deliveries && d in s.deliveries && r.deliveries[d] == s.deliveries[d] {
      WaitsMeans(r.packages, r.deliveries, d, now);
      WaitsMeans(s.packages, s.deliveries, d, now);
    }
  }

  /** A delivery that stays keeps its package. */
  lemma StillPlaced(db: Db, which: set<Id>, d: Id, now: Time)
    ensures var r := EndDeliveries(db, which);
      WaitsIn(r.packages, r.deliveries, d, now) <==> WaitsIn(db.packages, db.deliveries, d, now) && d !in which
  {
    hide EndDeliveries;
    EndingLeaves(db, which);
    var r := EndDeliveries(db, which);
    assert d in r.deliveries ==> HasDelivery(r.deliveries, r.deliveries[d].package);
  }

  lemma MailAlike(limits: Limits, a: Db, b: Db, op: MailOp, now: Time)
    requires IdsUsable(a, op) && IdsUsable(b, op)
    requires Alike(a, b, now) && Delivered(a) && Delivered(b)
    ensures Alike(MailStep(limits, a, op, now), MailStep(limits, b, op, now), now)
  {
    hide FanOut, EndDeliveries, FreshFor, SamePackages, Addressed, OneEach, RowidsUnique, SameMessages, PurgeExpired, Alike;
    AlikeParts(a, b, now);
    match op
    case Fan(parcel, id, ids) => FanAlike(limits, a, b, parcel, id, ids, now);
    case Acknowledge(replica, ids) =>
      var which, which' := Acknowledged(a.deliveries, replica, ids), Acknowledged(b.deliveries, replica, ids);
      assert SelectAlike(a, b, which, which', now);
      EndingAlike(a, b, which, which', now);
      AlikeWhole(EndDeliveries(a, which), EndDeliveries(b, which'), now);
    case PurgeMail =>
      PurgeIsAlike(a, now);
      PurgeIsAlike(b, now);
      AlikeSymmetric(a, PurgeExpired(a, now), now);
      AlikeTransitive(PurgeExpired(a, now), a, b, now);
      AlikeTransitive(PurgeExpired(a, now), b, PurgeExpired(b, now), now);
  }

  lemma AlikeWhole(a: Db, b: Db, t: Time)
    requires SameRest(a, b) && SameMessages(a.messages, b.messages, t)
    requires SamePackages(a.packages, b.packages, t) && SameDeliveries(a.packages, a.deliveries, b.packages, b.deliveries, t)
    ensures Alike(a, b, t)
  {
  }

  // ---- calls: replica-mediation accounts ----

  lemma RemovalAlike(a: Db, b: Db, account: Did, mediator: Did, replica: Did, now: Time)
    requires Alike(a, b, now) && Delivered(a) && Delivered(b)
    ensures Alike(RemoveReplica(a, account, mediator, replica, now), RemoveReplica(b, account, mediator, replica, now), now)
  {
    hide SamePackages, SameMessages, LastAmong, UploadsWithout, BlobsOf, Addressed, OneEach, RowidsUnique;
    if IsMember(a, account, mediator, replica) {
      var which, which' := DeliveriesTo(a.deliveries, replica), DeliveriesTo(b.deliveries, replica);
      assert SelectAlike(a, b, which, which', now);
      EndingAlike(a, b, which, which', now);
    }
  }

  lemma SameAfterDeletion(a: Db, b: Db, account: Did, now: Time)
    requires SamePackages(a.packages, b.packages, now)
    ensures SamePackages(a.packages - PackagesOf(a.packages, account), b.packages - PackagesOf(b.packages, account), now)
  {
    assert forall p :: LiveIn(a.packages, p, now) ==> a.packages[p].(rowid := 0).account == b.packages[p].(rowid := 0).account;
    SameOfFewer(a.packages, b.packages, PackagesOf(a.packages, account), PackagesOf(b.packages, account), now);
  }

  /** A delivery waits on iff it did and neither its package nor its replica is the account's. */
  lemma WaitsAfterDeletion(packages: map<Id, Package>, deliveries: map<Id, Delivery>, account: Did, members: set<Did>, d: Id, now: Time)
    ensures var mail := PackagesOf(packages, account);
      WaitsIn(packages - mail, DeliveriesWithout(deliveries, mail, members), d, now) <==>
        WaitsIn(packages, deliveries, d, now) && deliveries[d].replica !in members && packages[deliveries[d].package].account != account
  {
  }

  lemma DeliveriesSameAfterDeletion(a: Db, b: Db, account: Did, members: set<Did>, now: Time)
    requires SamePackages(a.packages, b.packages, now)
    requires SameDeliveries(a.packages, a.deliveries, b.packages, b.deliveries, now)
    ensures var mail, mail' := PackagesOf(a.packages, account), PackagesOf(b.packages, account);
      SameDeliveries(a.packages - mail, DeliveriesWithout(a.deliveries, mail, members), b.packages - mail', DeliveriesWithout(b.deliveries, mail', members), now)
  {
    hide PackagesOf;
    var mail, mail' := PackagesOf(a.packages, account), PackagesOf(b.packages, account);
    assert forall p :: LiveIn(a.packages, p, now) ==> a.packages[p].(rowid := 0).account == b.packages[p].(rowid := 0).account;
    forall d ensures WaitsIn(a.packages - mail, DeliveriesWithout(a.deliveries, mail, members), d, now)
      <==> WaitsIn(b.packages - mail', DeliveriesWithout(b.deliveries, mail', members), d, now)
    {
      WaitsAfterDeletion(a.packages, a.deliveries, account, members, d, now);
      WaitsAfterDeletion(b.packages, b.deliveries, account, members, d, now);
    }
    forall d | WaitsIn(a.packages - mail, DeliveriesWithout(a.deliveries, mail, members), d, now)
      ensures DeliveriesWithout(a.deliveries, mail, members)[d] == DeliveriesWithout(b.deliveries, mail', members)[d]
    {
      WaitsAfterDeletion(a.packages, a.deliveries, account, members, d, now);
    }
  }

  lemma DeletionAlike(a: Db, b: Db, account: Did, mediator: Did, now: Time)
    requires Alike(a, b, now)
    ensures Alike(DeleteReplicaAccount(a, account, mediator), DeleteReplicaAccount(b, account, mediator), now)
  {
    hide SamePackages, SameDeliveries, SameMessages, DeliveriesWithout, UploadsWithout, SlotsWithout, BlobsOfAny, PackagesOf, RecipientsOf, ExecutionsOf, Members;
    SameAfterDeletion(a, b, account, now);
    DeliveriesSameAfterDeletion(a, b, account, Members(a.replicas, account), now);
  }

  lemma JoiningAlike(limits: Limits, a: Db, b: Db, op: MembershipOp, now: Time)
    requires op.Register? || op.Enroll? || op.Share? || op.Unshare?
    requires Alike(a, b, now)
    ensures Alike(MembershipStep(limits, a, op, now), MembershipStep(limits, b, op, now), now)
  {
    hide SamePackages, SameDeliveries, SameMessages, Ordinals, ActiveMembers, RecipientsOf;
  }

  lemma MembershipAlike(limits: Limits, a: Db, b: Db, op: MembershipOp, now: Time)
    requires Alike(a, b, now) && Delivered(a) && Delivered(b)
    ensures Alike(MembershipStep(limits, a, op, now), MembershipStep(limits, b, op, now), now)
  {
    hide Alike, Delivered, RemoveReplica, DeleteReplicaAccount;
    match op
    case RemoveMember(account, mediator, replica) => RemovalAlike(a, b, account, mediator, replica, now);
    case DeleteAccount(account, mediator) => DeletionAlike(a, b, account, mediator, now);
    case _ => JoiningAlike(limits, a, b, op, now);
  }

  // ---- calls: executions and blobs ----

  lemma ExecutionsAlike(limits: Limits, a: Db, b: Db, op: ExecutionOp, now: Time)
    requires Alike(a, b, now)
    ensures Alike(ExecutionStep(limits, a, op, now), ExecutionStep(limits, b, op, now), now)
  {
    hide SamePackages, SameDeliveries, SameMessages, FindExecution, WithExecution, WithCaller, SlotsWithout, LapsedExecutions;
  }

  lemma BlobsAlike(limits: Limits, a: Db, b: Db, op: BlobOp, now: Time)
    requires Alike(a, b, now)
    ensures Alike(BlobStep(limits, a, op, now), BlobStep(limits, b, op, now), now)
  {
    hide SamePackages, SameDeliveries, SameMessages, HasBlobRoom, BlobNamed, RenewedBlobs, HoldsBlobs, UploadsWithout, LiveUploads, LapsedBlobs, MarkedBlobs;
  }

  /** Every call, made of both with the same ids. */
  lemma StepsAlike(limits: Limits, a: Db, b: Db, op: Op, now: Time)
    requires Usable(a, op) && Usable(b, op)
    requires Alike(a, b, now) && Delivered(a) && Delivered(b)
    ensures Alike(Step(limits, a, op, now), Step(limits, b, op, now), now)
  {
    hide Alike, Delivered, IdsUsable, OrdinaryStep, MembershipStep, MailStep, ExecutionStep, BlobStep;
    match op
    case Ordinary(o) => OrdinaryAlike(limits, a, b, o, now);
    case Membership(m) => MembershipAlike(limits, a, b, m, now);
    case Mail(m) => MailAlike(limits, a, b, m, now);
    case Executions(e) => ExecutionsAlike(limits, a, b, e, now);
    case Blobs(x) => BlobsAlike(limits, a, b, x, now);
  }

  // ---- every continuation ----

  /** The states a database goes through as the calls are made of it, none before `t` and none before an earlier one. */
  ghost predicate Continuation(limits: Limits, dbs: seq<Db>, calls: seq<Call>, t: Time) {
    && |dbs| == |calls| + 1
    && (forall i :: 0 <= i < |calls| ==> Usable(dbs[i], calls[i].op) && dbs[i + 1] == Step(limits, dbs[i], calls[i].op, calls[i].now))
    && (forall i :: 0 <= i < |calls| ==> TimeBefore(calls, t, i) <= calls[i].now)
  }

  /** When the call before the i-th was made. */
  function TimeBefore(calls: seq<Call>, t: Time, i: nat): (r: Time)
    requires i <= |calls|
  {
    if i == 0 then t else calls[i - 1].now
  }

  lemma PurgedIsDelivered(limits: Limits, db: Db, t: Time)
    requires Delivered(db)
    ensures Delivered(PurgeExpired(db, t))
  {
    hide Delivered, Step, Usable, PurgeExpired;
    UsablePurge(db);
    DeliveredKept(limits, db, Mail(PurgeMail), t);
    PurgeIsAStep(limits, db, t);
  }

  lemma BothGoOn(limits: Limits, a: Db, b: Db, call: Call, before: Time)
    requires Usable(a, call.op) && Usable(b, call.op) && before <= call.now
    requires Delivered(a) && Delivered(b) && Alike(a, b, before)
    ensures var a', b' := Step(limits, a, call.op, call.now), Step(limits, b, call.op, call.now);
      Delivered(a') && Delivered(b') && Alike(a', b', call.now)
  {
    hide Alike, Delivered, Step, Usable;
    AlikeLater(a, b, before, call.now);
    StepsAlike(limits, a, b, call.op, call.now);
    DeliveredKept(limits, a, call.op, call.now);
    DeliveredKept(limits, b, call.op, call.now);
  }

  lemma {:induction false} ContinuationsAlike(limits: Limits, dbs: seq<Db>, dbs': seq<Db>, calls: seq<Call>, t: Time, n: nat)
    requires Continuation(limits, dbs, calls, t) && Continuation(limits, dbs', calls, t) && n <= |calls|
    requires Delivered(dbs[0]) && dbs'[0] == PurgeExpired(dbs[0], t)
    ensures Delivered(dbs[n]) && Delivered(dbs'[n])
    ensures Alike(dbs[n], dbs'[n], TimeBefore(calls, t, n))
  {
    hide Alike, Delivered, Step, Usable, PurgeExpired;
    if n == 0 {
      PurgeIsAlike(dbs[0], t);
      PurgedIsDelivered(limits, dbs[0], t);
    } else {
      ContinuationsAlike(limits, dbs, dbs', calls, t, n - 1);
      BothGoOn(limits, dbs[n - 1], dbs'[n - 1], calls[n - 1], TimeBefore(calls, t, n - 1));
    }
  }

  lemma UsablePurge(db: Db)
    ensures Usable(db, Mail(PurgeMail))
  {
  }

  lemma PurgeIsAStep(limits: Limits, db: Db, t: Time)
    requires Usable(db, Mail(PurgeMail))
    ensures Step(limits, db, Mail(PurgeMail), t) == PurgeExpired(db, t)
  {
    hide PurgeExpired;
  }

  /**
   * Whatever is called after a purge at `t`, or after none, at every moment
   * from then on: the same deliveries in the same order, the same counts, and
   * the same outcomes of a fan-out and of a message to store.
   */
  lemma PurgeIsUnobservable(limits: Limits, dbs: seq<Db>, dbs': seq<Db>, calls: seq<Call>, t: Time, n: nat, now: Time,
                            replica: Did, limit: nat, next: Option<Did>, owner: Did, parcel: Parcel, id: Id, ids: map<Did, Id>)
    requires Continuation(limits, dbs, calls, t) && Continuation(limits, dbs', calls, t) && n <= |calls|
    requires Delivered(dbs[0]) && dbs'[0] == PurgeExpired(dbs[0], t)
    requires TimeBefore(calls, t, n) <= now
    requires Targets(dbs[n], parcel.next) <= ids.Keys && OneToOne(ids)
    ensures Delivered(dbs[n]) && Delivered(dbs'[n]) && Targets(dbs'[n], parcel.next) <= ids.Keys
    ensures DeliveriesFor(dbs[n], replica, limit, next, now) == DeliveriesFor(dbs'[n], replica, limit, next, now)
    ensures DeliveryCount(dbs[n], replica, next, now) == DeliveryCount(dbs'[n], replica, next, now)
    ensures MessageCount(dbs[n], owner, now) == MessageCount(dbs'[n], owner, now)
    ensures StoreOutcomeOf(limits, dbs[n], owner, now) == StoreOutcomeOf(limits, dbs'[n], owner, now)
    ensures FanOutOutcomeOf(limits, dbs[n], parcel, id, ids, now) == FanOutOutcomeOf(limits, dbs'[n], parcel, id, ids, now)
  {
    assert |dbs| == |calls| + 1 == |dbs'|;
    hide Continuation, Alike, Delivered, Targets, DeliveriesFor, DeliveryCount, MessageCount, StoreOutcomeOf, FanOutOutcomeOf, PurgeExpired;
    ContinuationsAlike(limits, dbs, dbs', calls, t, n);
    AlikeLater(dbs[n], dbs'[n], TimeBefore(calls, t, n), now);
    AlikeParts(dbs[n], dbs'[n], now);
    RoutesAlike(dbs[n], dbs'[n], parcel.next);
    DeliveriesForAlike(dbs[n], dbs'[n], replica, limit, next, now);
    WaitingAlike(dbs[n], dbs'[n], replica, next, now);
    StoreOutcomeAlike(limits, dbs[n], dbs'[n], owner, now);
    FanOutOutcomeAlike(limits, dbs[n], dbs'[n], parcel, id, ids, now);
  }
}
