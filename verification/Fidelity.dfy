/**
 * What is delivered is what was sent: in every run, each answer about mail
 * goes back to the call that accepted it, whole, in time and in order.
 */
module Fidelity {
  import opened Dids
  import opened Tables
  import opened Listing
  import opened StoreSpec
  import opened StoreRuns
  import opened Mail
  import opened Waiting
  import opened Soundness
  import opened Rows
  import opened MailRows

  // ---- one row, from the call that made it ----

  /** The run's i-th call is a fan-out it accepted, of the parcel under the package's id, for the replica under the delivery's. */
  ghost predicate Sent(limits: Limits, worlds: seq<World>, calls: seq<Call>, i: nat, parcel: Parcel, replica: Did, d: Id)
    requires IsRun(limits, worlds, calls) && i < |calls|
  {
    && calls[i].op.Mail? && calls[i].op.mail.Fan? && calls[i].op.mail.parcel == parcel
    && replica in calls[i].op.mail.deliveryIds && calls[i].op.mail.deliveryIds[replica] == d
    && Receives(worlds[i].db, parcel.next, replica)
    && Accepted(limits, worlds[i].db, parcel, calls[i].now)
  }

  /** The delivery is of the package the call made, and that package is as it was made. */
  ghost predicate StillAsSent(limits: Limits, worlds: seq<World>, calls: seq<Call>, i: nat, n: nat, d: Id)
    requires IsRun(limits, worlds, calls) && i < |calls| && n < |worlds|
  {
    && calls[i].op.Mail? && calls[i].op.mail.Fan?
    && d in worlds[n].db.deliveries
    && worlds[n].db.deliveries[d].package == calls[i].op.mail.id
    && calls[i].op.mail.id in worlds[n].db.packages && calls[i].op.mail.id in worlds[i + 1].db.packages
    && worlds[n].db.packages[calls[i].op.mail.id] == worlds[i + 1].db.packages[calls[i].op.mail.id]
    && PackedAs(limits, worlds[i].db, calls[i].op.mail.parcel, calls[i].now, worlds[n].db.packages[calls[i].op.mail.id])
    && Sent(limits, worlds, calls, i, calls[i].op.mail.parcel, worlds[n].db.deliveries[d].replica, d)
  }

  lemma MadeByFan(limits: Limits, worlds: seq<World>, calls: seq<Call>, i: nat, d: Id)
    requires IsRun(limits, worlds, calls) && i < |calls|
    requires d !in worlds[i].db.deliveries && d in worlds[i + 1].db.deliveries
    ensures StillAsSent(limits, worlds, calls, i, i + 1, d)
  {
    hide Sound, Step, Recorded, Accepted, Receives, PackedAs, Deletes, RemovesMember, HasDelivery;
    var w, call := worlds[i], calls[i];
    assert Follows(limits, w, call, worlds[i + 1]);
    RunsAreSound(limits, worlds, calls, i);
    SoundTables(limits, w);
    DeliveryRows(limits, w, call.op, call.now, d);
    assert call.op.mail.id in NewIds(call.op);
    PackageRows(limits, w, call.op, call.now, call.op.mail.id);
  }

  lemma StaysAsSent(limits: Limits, worlds: seq<World>, calls: seq<Call>, i: nat, n: nat, d: Id)
    requires IsRun(limits, worlds, calls) && i < |calls| && n < |calls|
    requires StillAsSent(limits, worlds, calls, i, n, d) && d in worlds[n + 1].db.deliveries
    ensures StillAsSent(limits, worlds, calls, i, n + 1, d)
  {
    hide Sound, Step, Recorded, Usable, NewIds, Accepted, Receives, PackedAs, Deletes, RemovesMember, Sent, HasDelivery;
    assert Follows(limits, worlds[n], calls[n], worlds[n + 1]);
    RunsAreSound(limits, worlds, calls, n);
    RunsAreSound(limits, worlds, calls, n + 1);
    DeliveryRows(limits, worlds[n], calls[n].op, calls[n].now, d);
    DeliveryIsHere(limits, worlds[n + 1], d);
    PackageRows(limits, worlds[n], calls[n].op, calls[n].now, calls[i].op.mail.id);
  }

  lemma DeliveryIsHere(limits: Limits, w: World, d: Id)
    requires Sound(limits, w)
    ensures Delivered(w.db) && (d in w.db.deliveries ==> w.db.deliveries[d].package in w.db.packages)
  {
    hide Sound;
    SoundTables(limits, w);
  }

  /** In every run, every delivery goes back to the one call that sent it. */
  lemma {:induction false} EveryDeliveryWasSent(limits: Limits, worlds: seq<World>, calls: seq<Call>, n: nat, d: Id) returns (i: nat)
    requires IsRun(limits, worlds, calls) && n < |worlds| && d in worlds[n].db.deliveries
    ensures i < n && forall j :: i < j <= n ==> StillAsSent(limits, worlds, calls, i, j, d)
  {
    hide StillAsSent, Follows;
    if d in worlds[n - 1].db.deliveries {
      i := EveryDeliveryWasSent(limits, worlds, calls, n - 1, d);
      StaysAsSent(limits, worlds, calls, i, n - 1, d);
    } else {
      MadeByFan(limits, worlds, calls, n - 1, d);
      i := n - 1;
    }
  }

  lemma {:induction false} IdsStayMinted(limits: Limits, worlds: seq<World>, calls: seq<Call>, i: nat, n: nat)
    requires IsRun(limits, worlds, calls) && i < n < |worlds|
    ensures NewIds(calls[i].op) <= worlds[n].minted
    decreases n
  {
    hide Step, Recorded, Usable, NewIds;
    assert Follows(limits, worlds[n - 1], calls[n - 1], worlds[n]);
    if i < n - 1 {
      IdsStayMinted(limits, worlds, calls, i, n - 1);
    }
  }

  /** Ids are generated once, so the call is the only one it can be. */
  lemma SentOnce(limits: Limits, worlds: seq<World>, calls: seq<Call>, i: nat, j: nat, p: Parcel, q: Parcel, x: Did, y: Did, d: Id)
    requires IsRun(limits, worlds, calls) && i < |calls| && j < |calls|
    requires Sent(limits, worlds, calls, i, p, x, d) && Sent(limits, worlds, calls, j, q, y, d)
    ensures i == j && p == q
  {
    hide Step, Recorded, Accepted, Receives, Usable;
    assert d in NewIds(calls[i].op) && d in NewIds(calls[j].op);
    assert Follows(limits, worlds[i], calls[i], worlds[i + 1]) && Follows(limits, worlds[j], calls[j], worlds[j + 1]);
    if i < j {
      IdsStayMinted(limits, worlds, calls, i, j);
    } else if j < i {
      IdsStayMinted(limits, worlds, calls, j, i);
    }
  }

  // ---- what is answered ----

  /** The moment is before the end of the time to live and before the deadline. */
  predicate Timely(limits: Limits, parcel: Parcel, sentAt: Time, t: Time) {
    t < sentAt + limits.ttl && (parcel.deadline.Some? ==> t < parcel.deadline.value)
  }

  lemma UnexpiredIsTimely(limits: Limits, db: Db, parcel: Parcel, sentAt: Time, row: Package, t: Time)
    requires PackedAs(limits, db, parcel, sentAt, row)
    ensures t < row.expiresAt <==> Timely(limits, parcel, sentAt, t)
  {
  }

  /**
   * In every run, each message a replica is answered was sent to it by a call
   * of the run: it carries that call's text and moment, is for the recipient
   * asked about, and neither its time to live nor its deadline has come.
   */
  lemma EveryAnswerWasSent(limits: Limits, worlds: seq<World>, calls: seq<Call>, n: nat, replica: Did, limit: nat, next: Option<Did>, t: Time, k: nat) returns (i: nat)
    requires IsRun(limits, worlds, calls) && n < |worlds| && Delivered(worlds[n].db)
    requires k < |DeliveriesFor(worlds[n].db, replica, limit, next, t)|
    ensures var m := DeliveriesFor(worlds[n].db, replica, limit, next, t)[k];
      && i < n && calls[i].op.Mail? && calls[i].op.mail.Fan?
      && var parcel := calls[i].op.mail.parcel;
         && Sent(limits, worlds, calls, i, parcel, replica, m.id)
         && m.packed == parcel.packed && m.createdAt == calls[i].now
         && (next.Some? ==> parcel.next == next.value)
         && Timely(limits, parcel, calls[i].now, t)
    ensures forall j :: i < j <= n ==> StillAsSent(limits, worlds, calls, i, j, DeliveriesFor(worlds[n].db, replica, limit, next, t)[k].id)
  {
    hide IsRun, Delivered, Sent, PackedAs, Timely, DeliveriesFor;
    IsARun(limits, worlds, calls);
    AnswerIsRow(worlds[n].db, replica, limit, next, t, k);
    var d := DeliveriesFor(worlds[n].db, replica, limit, next, t)[k].id;
    i := EveryDeliveryWasSent(limits, worlds, calls, n, d);
    assert StillAsSent(limits, worlds, calls, i, n, d);
    var parcel, row := calls[i].op.mail.parcel, worlds[n].db.packages[calls[i].op.mail.id];
    UnexpiredIsTimely(limits, worlds[i].db, parcel, calls[i].now, row, t);
    PackedMeans(limits, worlds[i].db, parcel, calls[i].now, row);
  }

  lemma PackedMeans(limits: Limits, db: Db, parcel: Parcel, now: Time, row: Package)
    requires PackedAs(limits, db, parcel, now, row)
    ensures row.packed == parcel.packed && row.createdAt == now && row.next == parcel.next
    ensures forall p :: p in db.packages ==> db.packages[p].rowid < row.rowid
  {
  }

  /** An answer reads the row of a delivery to the replica and of its package. */
  lemma AnswerIsRow(db: Db, replica: Did, limit: nat, next: Option<Did>, t: Time, k: nat)
    requires Delivered(db) && k < |DeliveriesFor(db, replica, limit, next, t)|
    ensures var m := DeliveriesFor(db, replica, limit, next, t)[k];
      && k < |InOrder(db, replica, next, t)| && m.id == InOrder(db, replica, next, t)[k]
      && m.id in db.deliveries && db.deliveries[m.id].replica == replica && db.deliveries[m.id].package in db.packages
      && var row := db.packages[db.deliveries[m.id].package];
         m.packed == row.packed && m.createdAt == row.createdAt && t < row.expiresAt && (next.Some? ==> row.next == next.value)
  {
    hide Delivered;
    OrderIsHere(db, replica, next, t);
    var order := InOrder(db, replica, next, t);
    assert order[k] in order;
    assert order[k] in WaitingFor(db, replica, next, t);
  }

  // ---- and in order ----

  lemma {:induction false} TimesGrow(limits: Limits, worlds: seq<World>, calls: seq<Call>, i: nat, j: nat)
    requires IsRun(limits, worlds, calls) && i <= j < |calls|
    ensures calls[i].now <= calls[j].now
    decreases j
  {
    hide Step, Recorded, Usable, NewIds;
    if i < j {
      TimesGrow(limits, worlds, calls, i, j - 1);
      assert Follows(limits, worlds[j - 1], calls[j - 1], worlds[j]);
      assert Follows(limits, worlds[j], calls[j], worlds[j + 1]);
    }
  }

  /** In every run, a replica is answered its messages in the order they were sent. */
  lemma AnsweredInOrder(limits: Limits, worlds: seq<World>, calls: seq<Call>, n: nat, replica: Did, limit: nat, next: Option<Did>, t: Time, k: nat, l: nat, i: nat, j: nat)
    requires IsRun(limits, worlds, calls) && n < |worlds| && Delivered(worlds[n].db) && i < |calls| && j < |calls|
    requires k < l < |DeliveriesFor(worlds[n].db, replica, limit, next, t)|
    requires calls[i].op.Mail? && calls[i].op.mail.Fan? && calls[j].op.Mail? && calls[j].op.mail.Fan?
    requires Sent(limits, worlds, calls, i, calls[i].op.mail.parcel, replica, DeliveriesFor(worlds[n].db, replica, limit, next, t)[k].id)
    requires Sent(limits, worlds, calls, j, calls[j].op.mail.parcel, replica, DeliveriesFor(worlds[n].db, replica, limit, next, t)[l].id)
    ensures i < j
  {
    hide IsRun, Delivered, PackedAs, Timely, DeliveriesFor, Accepted, Receives;
    IsARun(limits, worlds, calls);
    var db, answer := worlds[n].db, DeliveriesFor(worlds[n].db, replica, limit, next, t);
    var d, e := answer[k].id, answer[l].id;
    var i' := EveryAnswerWasSent(limits, worlds, calls, n, replica, limit, next, t, k);
    var j' := EveryAnswerWasSent(limits, worlds, calls, n, replica, limit, next, t, l);
    SentOnce(limits, worlds, calls, i, i', calls[i].op.mail.parcel, calls[i'].op.mail.parcel, replica, replica, d);
    SentOnce(limits, worlds, calls, j, j', calls[j].op.mail.parcel, calls[j'].op.mail.parcel, replica, replica, e);
    AnswerIsRow(db, replica, limit, next, t, k);
    AnswerIsRow(db, replica, limit, next, t, l);
    SoonerInOrder(db, replica, next, t, k, l);
    if j < i {
      TimesGrow(limits, worlds, calls, j, i);
      assert StillAsSent(limits, worlds, calls, j, i, e) && StillAsSent(limits, worlds, calls, j, n, e) && StillAsSent(limits, worlds, calls, i, n, d);
      RowidsGrow(limits, worlds, calls, j, i, n, e, d);
    }
  }

  lemma SoonerInOrder(db: Db, replica: Did, next: Option<Did>, t: Time, k: nat, l: nat)
    requires Delivered(db) && k < l < |InOrder(db, replica, next, t)|
    ensures Sooner(db, InOrder(db, replica, next, t)[k], InOrder(db, replica, next, t)[l])
  {
    hide Delivered, Sooner;
  }

  /** A package accepted later, while another is there, has the larger rowid. */
  lemma RowidsGrow(limits: Limits, worlds: seq<World>, calls: seq<Call>, j: nat, i: nat, n: nat, e: Id, d: Id)
    requires IsRun(limits, worlds, calls) && j < i < n < |worlds| && i < |calls|
    requires StillAsSent(limits, worlds, calls, j, i, e) && StillAsSent(limits, worlds, calls, j, n, e) && StillAsSent(limits, worlds, calls, i, n, d)
    ensures worlds[n].db.packages[calls[j].op.mail.id].rowid < worlds[n].db.packages[calls[i].op.mail.id].rowid
  {
    hide IsRun, Sent;
  }

  // ---- and until it is taken ----

  /** The call takes the replica's delivery of such a parcel: acknowledged, its replica removed or its account deleted, or purged once its time has come. */
  predicate Takes(limits: Limits, db: Db, call: Call, parcel: Parcel, sentAt: Time, replica: Did, d: Id) {
    || (call.op.Mail? && call.op.mail.Acknowledge? && call.op.mail.replica == replica && d in call.op.mail.ids)
    || RemovesMember(db, call.op, replica)
    || (replica in db.replicas && Deletes(db, call.op, db.replicas[replica].account))
    || (call.op == Op.Mail(PurgeMail) && !Timely(limits, parcel, sentAt, call.now))
  }

  lemma SentIsThere(limits: Limits, worlds: seq<World>, calls: seq<Call>, i: nat, parcel: Parcel, replica: Did, d: Id)
    requires IsRun(limits, worlds, calls) && i < |calls| && Sent(limits, worlds, calls, i, parcel, replica, d)
    ensures d in worlds[i + 1].db.deliveries && worlds[i + 1].db.deliveries[d].replica == replica && StillAsSent(limits, worlds, calls, i, i + 1, d)
  {
    hide Sound, Step, Recorded, Accepted, Receives, PackedAs, Deletes, RemovesMember, HasDelivery, StillAsSent, NewIds;
    var w, call := worlds[i], calls[i];
    assert Follows(limits, w, call, worlds[i + 1]);
    RunsAreSound(limits, worlds, calls, i);
    FanIsFresh(limits, w, call);
    DeliveryRows(limits, w, call.op, call.now, d);
    MadeByFan(limits, worlds, calls, i, d);
    ToItsReplica(limits, w.db, call.op, replica, worlds[i + 1].db.deliveries[d].replica);
  }

  lemma FanIsFresh(limits: Limits, w: World, call: Call)
    requires Admissible(w, call.op, call.now) && call.op.Mail? && call.op.mail.Fan?
    ensures forall x :: x in call.op.mail.deliveryIds ==> call.op.mail.deliveryIds[x] !in w.db.deliveries
    ensures OneToOne(call.op.mail.deliveryIds)
  {
  }

  lemma ToItsReplica(limits: Limits, db: Db, op: Op, x: Did, y: Did)
    requires op.Mail? && op.mail.Fan? && OneToOne(op.mail.deliveryIds)
    requires x in op.mail.deliveryIds && y in op.mail.deliveryIds && op.mail.deliveryIds[x] == op.mail.deliveryIds[y]
    ensures x == y
  {
  }

  /** In every run, what was sent to a replica waits for it until a call takes it. */
  lemma {:induction false} WaitsUntilTaken(limits: Limits, worlds: seq<World>, calls: seq<Call>, i: nat, n: nat, parcel: Parcel, replica: Did, d: Id)
    requires IsRun(limits, worlds, calls) && i < n < |worlds| && Sent(limits, worlds, calls, i, parcel, replica, d)
    requires forall k :: i < k < n ==> !Takes(limits, worlds[k].db, calls[k], parcel, calls[i].now, replica, d)
    ensures d in worlds[n].db.deliveries && worlds[n].db.deliveries[d].replica == replica && StillAsSent(limits, worlds, calls, i, n, d)
    decreases n
  {
    hide Sound, Step, Recorded, Usable, NewIds, StillAsSent, Takes, Accepted, Receives;
    if n == i + 1 {
      SentIsThere(limits, worlds, calls, i, parcel, replica, d);
    } else {
      WaitsUntilTaken(limits, worlds, calls, i, n - 1, parcel, replica, d);
      var w, call := worlds[n - 1], calls[n - 1];
      assert Follows(limits, w, call, worlds[n]);
      RunsAreSound(limits, worlds, calls, n - 1);
      DeliveryRows(limits, w, call.op, call.now, d);
      TakenOnly(limits, worlds, calls, i, n - 1, parcel, replica, d);
      StaysAsSent(limits, worlds, calls, i, n - 1, d);
    }
  }

  lemma TakenOnly(limits: Limits, worlds: seq<World>, calls: seq<Call>, i: nat, k: nat, parcel: Parcel, replica: Did, d: Id)
    requires IsRun(limits, worlds, calls) && i < k < |calls| && StillAsSent(limits, worlds, calls, i, k, d) && calls[i].op.mail.parcel == parcel
    requires worlds[k].db.deliveries[d].replica == replica && !Takes(limits, worlds[k].db, calls[k], parcel, calls[i].now, replica, d)
    requires DeliveryRow(limits, worlds[k].db, calls[k].op, calls[k].now, worlds[k + 1].db, d)
    ensures d in worlds[k + 1].db.deliveries && worlds[k + 1].db.deliveries[d] == worlds[k].db.deliveries[d]
  {
    hide Sent, PackedAs, Timely, IsRun, Deletes, RemovesMember;
    IsARun(limits, worlds, calls);
    var db := worlds[k].db;
    UnexpiredIsTimely(limits, worlds[i].db, parcel, calls[i].now, db.packages[calls[i].op.mail.id], calls[k].now);
    RunsAreSound(limits, worlds, calls, k);
    ToItsAccount(limits, worlds[k], d);
  }

  lemma IsARun(limits: Limits, worlds: seq<World>, calls: seq<Call>)
    requires IsRun(limits, worlds, calls)
    ensures |worlds| == |calls| + 1
  {
  }

  lemma ToItsAccount(limits: Limits, w: World, d: Id)
    requires Sound(limits, w) && d in w.db.deliveries
    ensures var row := w.db.deliveries[d]; row.replica in w.db.replicas && row.package in w.db.packages && w.db.replicas[row.replica].account == w.db.packages[row.package].account
  {
    hide Sound;
    SoundTables(limits, w);
  }

  /** So at any moment it is answered iff its time to live and its deadline are still to come, and it is for the recipient asked about. */
  lemma SentIsAnswered(limits: Limits, worlds: seq<World>, calls: seq<Call>, i: nat, n: nat, parcel: Parcel, replica: Did, d: Id, next: Option<Did>, t: Time)
    requires IsRun(limits, worlds, calls) && i < n < |worlds| && Sent(limits, worlds, calls, i, parcel, replica, d)
    requires forall k :: i < k < n ==> !Takes(limits, worlds[k].db, calls[k], parcel, calls[i].now, replica, d)
    ensures d in WaitingFor(worlds[n].db, replica, next, t) <==> Timely(limits, parcel, calls[i].now, t) && (next.Some? ==> parcel.next == next.value)
    ensures d in WaitingFor(worlds[n].db, replica, next, t) ==>
      d in worlds[n].db.deliveries && worlds[n].db.deliveries[d].package in worlds[n].db.packages && MessageOf(worlds[n].db, d) == StoredMessage(d, parcel.packed, calls[i].now)
  {
    hide IsRun, PackedAs, Timely, Takes, Accepted, Receives;
    IsARun(limits, worlds, calls);
    WaitsUntilTaken(limits, worlds, calls, i, n, parcel, replica, d);
    var row := worlds[n].db.packages[calls[i].op.mail.id];
    UnexpiredIsTimely(limits, worlds[i].db, parcel, calls[i].now, row, t);
    PackedMeans(limits, worlds[i].db, parcel, calls[i].now, row);
  }

  // ---- the messages of ordinary accounts ----

  /** In every run, every message was stored by a call of the run, and holds its text, its owner and its moment, to expire after the time to live. */
  lemma {:induction false} EveryMessageWasStored(limits: Limits, worlds: seq<World>, calls: seq<Call>, n: nat, m: Id) returns (i: nat)
    requires IsRun(limits, worlds, calls) && n < |worlds| && m in worlds[n].db.messages
    ensures i < n && calls[i].op.Ordinary? && calls[i].op.ordinary.Store? && calls[i].op.ordinary.id == m
    ensures worlds[n].db.messages[m] == Message(calls[i].op.ordinary.owner, calls[i].op.ordinary.packed, calls[i].now, calls[i].now + limits.ttl)
  {
    hide Sound, Step, Recorded, Usable, NewIds;
    assert Follows(limits, worlds[n - 1], calls[n - 1], worlds[n]);
    RunsAreSound(limits, worlds, calls, n - 1);
    MessageRows(limits, worlds[n - 1], calls[n - 1].op, calls[n - 1].now, m);
    if m in worlds[n - 1].db.messages {
      i := EveryMessageWasStored(limits, worlds, calls, n - 1, m);
    } else {
      i := n - 1;
    }
  }
}
