/** What one replica's acknowledgement leaves as it was: every other replica's waiting list, and every package that waits for no one. */
module Acknowledging {
  import opened Dids
  import opened Tables
  import opened Listing
  import opened StoreSpec
  import opened Mail
  import opened Waiting

  lemma StaysWithPackage(db: Db, replica: Did, ids: set<Id>, d: Id)
    requires Addressed(db.packages, db.deliveries, db.replicas)
    ensures var r := AcknowledgeDeliveries(db, replica, ids);
      && (d in r.deliveries <==> d in db.deliveries && !(db.deliveries[d].replica == replica && d in ids))
      && (d in r.deliveries ==>
            && r.deliveries[d] == db.deliveries[d] && r.deliveries[d].package in r.packages
            && r.packages[r.deliveries[d].package] == db.packages[db.deliveries[d].package])
  {
    hide EndDeliveries;
    var which := Acknowledged(db.deliveries, replica, ids);
    EndingLeaves(db, which);
    var r := EndDeliveries(db, which);
    if d in r.deliveries {
      assert HasDelivery(r.deliveries, r.deliveries[d].package);
    }
  }

  /** The acknowledged ones no longer wait, and nothing else changes for anyone. */
  lemma WaitingAfter(db: Db, replica: Did, ids: set<Id>, other: Did, next: Option<Did>, now: Time)
    requires Addressed(db.packages, db.deliveries, db.replicas)
    ensures WaitingFor(AcknowledgeDeliveries(db, replica, ids), other, next, now)
      == WaitingFor(db, other, next, now) - (if other == replica then ids else {})
  {
    hide AcknowledgeDeliveries, Addressed;
    var r := AcknowledgeDeliveries(db, replica, ids);
    forall d ensures d in WaitingFor(r, other, next, now) <==> d in WaitingFor(db, other, next, now) && !(other == replica && d in ids) {
      StaysWithPackage(db, replica, ids, d);
      AddressedAt(db, d);
    }
  }

  lemma AddressedAt(db: Db, d: Id)
    requires Addressed(db.packages, db.deliveries, db.replicas)
    ensures d in db.deliveries ==> db.deliveries[d].package in db.packages
  {
  }

  lemma SoonerAfter(db: Db, replica: Did, ids: set<Id>, d: Id, e: Id)
    requires Addressed(db.packages, db.deliveries, db.replicas)
    requires d in AcknowledgeDeliveries(db, replica, ids).deliveries && e in AcknowledgeDeliveries(db, replica, ids).deliveries
    ensures var r := AcknowledgeDeliveries(db, replica, ids);
      && d in db.deliveries && db.deliveries[d].package in db.packages && r.deliveries[d].package in r.packages
      && Sooner(r, d, e) == Sooner(db, d, e) && MessageOf(r, d) == MessageOf(db, d)
  {
    hide AcknowledgeDeliveries, Addressed;
    StaysWithPackage(db, replica, ids, d);
    StaysWithPackage(db, replica, ids, e);
    AddressedAt(db, d);
    AddressedAt(db, e);
  }

  lemma AddressedIn(db: Db)
    requires Delivered(db)
    ensures Addressed(db.packages, db.deliveries, db.replicas)
  {
  }

  lemma WaitingIsHere(db: Db, replica: Did, next: Option<Did>, now: Time)
    ensures WaitingFor(db, replica, next, now) <= db.deliveries.Keys
  {
  }

  lemma DeliveredAfterAcknowledging(db: Db, replica: Did, ids: set<Id>)
    requires Delivered(db)
    ensures Delivered(AcknowledgeDeliveries(db, replica, ids))
  {
    hide Delivered, EndDeliveries, Acknowledged;
    DeliveredAfterEnding(db, Acknowledged(db.deliveries, replica, ids));
  }

  lemma OrderAfter(db: Db, replica: Did, ids: set<Id>, other: Did, next: Option<Did>, now: Time)
    requires Delivered(db) && Delivered(AcknowledgeDeliveries(db, replica, ids)) && other != replica
    ensures InOrder(AcknowledgeDeliveries(db, replica, ids), other, next, now) == InOrder(db, other, next, now)
  {
    hide AcknowledgeDeliveries, Delivered, Addressed, Sooner, StrictTotalOn, IsListing, WaitingFor;
    var r := AcknowledgeDeliveries(db, replica, ids);
    var keys := WaitingFor(r, other, next, now);
    AddressedIn(db);
    WaitingIsHere(r, other, next, now);
    WaitingAfter(db, replica, ids, other, next, now);
    assert keys == WaitingFor(db, other, next, now);
    SoonerIsTotal(r, other, next, now);
    var less, less' := (d, e) => Sooner(r, d, e), (d, e) => Sooner(db, d, e);
    forall d, e | d in keys && e in keys ensures less(d, e) == less'(d, e) {
      SoonerAfter(db, replica, ids, d, e);
    }
    ListingUnique(InOrder(r, other, next, now), InOrder(db, other, next, now), keys, less, less');
  }

  lemma MessagesAfterAcknowledging(db: Db, replica: Did, ids: set<Id>, order: seq<Id>)
    requires Addressed(db.packages, db.deliveries, db.replicas)
    requires AllHere(db, order) && AllHere(AcknowledgeDeliveries(db, replica, ids), order)
    ensures MessagesOf(AcknowledgeDeliveries(db, replica, ids), order) == MessagesOf(db, order)
  {
    hide AcknowledgeDeliveries, Addressed, Sooner, MessageOf;
    var r := AcknowledgeDeliveries(db, replica, ids);
    forall i | 0 <= i < |order| ensures MessageOf(r, order[i]) == MessageOf(db, order[i]) {
      SoonerAfter(db, replica, ids, order[i], order[i]);
    }
  }

  /** Every other replica is delivered what it would have been. */
  lemma OthersDeliveredAlike(db: Db, replica: Did, ids: set<Id>, other: Did, limit: nat, next: Option<Did>, now: Time)
    requires Delivered(db) && other != replica
    ensures Delivered(AcknowledgeDeliveries(db, replica, ids))
    ensures DeliveriesFor(AcknowledgeDeliveries(db, replica, ids), other, limit, next, now) == DeliveriesFor(db, other, limit, next, now)
  {
    hide AcknowledgeDeliveries, Delivered, Addressed, MessagesOf, InOrder, WaitingFor, IsListing, Sooner;
    var r := AcknowledgeDeliveries(db, replica, ids);
    AddressedIn(db);
    DeliveredAfterAcknowledging(db, replica, ids);
    OrderAfter(db, replica, ids, other, next, now);
    OrderIsHere(db, other, next, now);
    OrderIsHere(r, other, next, now);
    MessagesAfterAcknowledging(db, replica, ids, First(InOrder(db, other, next, now), limit));
  }

  /** A package no delivery names stays, whatever is acknowledged; one goes exactly when the last delivery of it is. */
  lemma PackagesAfterAcknowledging(db: Db, replica: Did, ids: set<Id>, p: Id)
    requires p in db.packages
    ensures var r := AcknowledgeDeliveries(db, replica, ids);
      && (p in r.packages ==> r.packages[p] == db.packages[p])
      && (p !in r.packages <==>
            && HasDelivery(db.deliveries, p)
            && forall d :: d in db.deliveries && db.deliveries[d].package == p ==> db.deliveries[d].replica == replica && d in ids)
  {
    hide EndDeliveries;
    var which := Acknowledged(db.deliveries, replica, ids);
    EndingLeaves(db, which);
    var r := EndDeliveries(db, which);
    assert forall d :: d in r.deliveries <==> d in db.deliveries && d !in which;
    if d :| d in db.deliveries && db.deliveries[d].package == p && d !in which {
      assert d in r.deliveries && r.deliveries[d].package == p;
      assert HasDelivery(r.deliveries, p);
    }
  }
}
