/** What waits: the answers the store gives about mail. */
module Waiting {
  import opened Dids
  import opened Tables
  import opened Listing
  import opened StoreSpec
  import opened Mail

  /** The replica's deliveries of unexpired packages, of one recipient's alone when `next` names it. */
  function WaitingFor(db: Db, replica: Did, next: Option<Did>, now: Time): (r: set<Id>) {
    set d | d in db.deliveries && db.deliveries[d].replica == replica && Unexpired(db, db.deliveries[d].package, now)
            && (next.None? || db.packages[db.deliveries[d].package].next == next.value)
  }

  predicate Unexpired(db: Db, package: Id, now: Time) {
    package in db.packages && db.packages[package].expiresAt > now
  }

  /** By when its package came in, and by rowid among those of one moment. */
  predicate Sooner(db: Db, d: Id, e: Id) {
    && d in db.deliveries && e in db.deliveries
    && db.deliveries[d].package in db.packages && db.deliveries[e].package in db.packages
    && var p, q := db.packages[db.deliveries[d].package], db.packages[db.deliveries[e].package];
       p.createdAt < q.createdAt || (p.createdAt == q.createdAt && p.rowid < q.rowid)
  }

  datatype StoredMessage = StoredMessage(id: Id, packed: Text, createdAt: Time)

  function MessageOf(db: Db, d: Id): (r: StoredMessage)
    requires d in db.deliveries && db.deliveries[d].package in db.packages
  {
    var p := db.packages[db.deliveries[d].package];
    StoredMessage(d, p.packed, p.createdAt)
  }

  /** No replica waits for one package twice, so rowids tell its deliveries apart. */
  lemma SoonerIsTotal(db: Db, replica: Did, next: Option<Did>, now: Time)
    requires Delivered(db)
    ensures StrictTotalOn(WaitingFor(db, replica, next, now), (d, e) => Sooner(db, d, e))
  {
    var keys := WaitingFor(db, replica, next, now);
    forall a, b | a in keys && b in keys && a != b ensures Sooner(db, a, b) || Sooner(db, b, a) {
      assert db.deliveries[a] != db.deliveries[b];
    }
  }

  ghost function InOrder(db: Db, replica: Did, next: Option<Did>, now: Time): (r: seq<Id>)
    requires Delivered(db)
    ensures IsListing(r, WaitingFor(db, replica, next, now), (d, e) => Sooner(db, d, e))
    ensures |r| == |WaitingFor(db, replica, next, now)|
  {
    SoonerIsTotal(db, replica, next, now);
    Sorted(WaitingFor(db, replica, next, now), (d, e) => Sooner(db, d, e))
  }

  predicate AllHere(db: Db, ids: seq<Id>) {
    forall i :: 0 <= i < |ids| ==> ids[i] in db.deliveries && db.deliveries[ids[i]].package in db.packages
  }

  function MessagesOf(db: Db, ids: seq<Id>): (r: seq<StoredMessage>)
    requires AllHere(db, ids)
  {
    seq(|ids|, i requires 0 <= i < |ids| => MessageOf(db, ids[i]))
  }

  function First<T>(s: seq<T>, limit: nat): (r: seq<T>) {
    if limit < |s| then s[..limit] else s
  }

  /** The first `limit` of what waits, soonest first. */
  ghost function DeliveriesFor(db: Db, replica: Did, limit: nat, next: Option<Did>, now: Time): (r: seq<StoredMessage>)
    requires Delivered(db)
  {
    OrderIsHere(db, replica, next, now);
    MessagesOf(db, First(InOrder(db, replica, next, now), limit))
  }

  lemma OrderIsHere(db: Db, replica: Did, next: Option<Did>, now: Time)
    requires Delivered(db)
    ensures AllHere(db, InOrder(db, replica, next, now))
  {
    var order := InOrder(db, replica, next, now);
    forall i | 0 <= i < |order| ensures order[i] in db.deliveries && db.deliveries[order[i]].package in db.packages {
      assert order[i] in order;
    }
  }

  function DeliveryCount(db: Db, replica: Did, next: Option<Did>, now: Time): nat {
    |WaitingFor(db, replica, next, now)|
  }

  function MessageCount(db: Db, owner: Did, now: Time): nat {
    |UnexpiredMessages(db.messages, owner, now)|
  }
}
