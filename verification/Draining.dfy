/**
 * A drain over a line that loses nothing, with nothing else going on: it takes
 * what the replica waits for from the front of its queue, a page at a time,
 * and leaves the rest waiting.
 */
module Draining {
  import opened Dids
  import opened Tables
  import opened Sums
  import opened Listing
  import opened StoreSpec
  import opened Mail
  import opened Waiting
  import opened Acknowledging
  import P = Pickup

  /** What a mediator hands over at most in one delivery. */
  const PAGE: nat := 10

  function AttachmentsOf(messages: seq<StoredMessage>): (r: seq<P.Attachment>) {
    seq(|messages|, i requires 0 <= i < |messages| => P.Attachment(Some(messages[i].id)))
  }

  /** What the mediator answers a delivery request for so many: no more than a page of what waits. */
  ghost function PageOf(db: Db, replica: Did, limit: nat, now: Time): (r: P.Answer)
    requires Delivered(db)
  {
    P.Delivery(AttachmentsOf(DeliveriesFor(db, replica, Least(limit, PAGE), None, now)))
  }

  /** The round's answers are the mediator's over that state, every attachment is taken, and the acknowledgement is answered. */
  ghost predicate Answers(db: Db, replica: Did, now: Time, round: P.Round)
    requires Delivered(db)
  {
    var count := DeliveryCount(db, replica, None, now);
    && round.status == P.Status(Some(count))
    && (count > 0 ==>
          && round.delivery == PageOf(db, replica, count, now)
          && round.received.Status?
          && forall i :: 0 <= i < |round.delivery.attachments| ==> round.handle(i).Acked?)
  }

  /** What the acknowledgement leaves. */
  function AfterRound(db: Db, replica: Did, round: P.Round): (r: Db) {
    if P.GoesOn(round) then AcknowledgeDeliveries(db, replica, Asked(P.ToldIn(round))) else db
  }

  // ---- one round ----

  lemma {:induction false} AllTaken(ids: seq<Id>, attachments: seq<P.Attachment>, handle: P.Handle, k: nat)
    requires k <= |attachments| == |ids|
    requires forall i :: 0 <= i < |ids| ==> attachments[i].id == Some(ids[i]) && handle(i).Acked?
    ensures P.Taken(attachments, handle, k) == ids[..k]
  {
    if k > 0 {
      AllTaken(ids, attachments, handle, k - 1);
      assert ids[..k] == ids[..k - 1] + [ids[k - 1]];
    }
  }

  /** A round goes on iff something waits, and tells of the first page of it. */
  lemma RoundTells(db: Db, replica: Did, now: Time, round: P.Round)
    requires Delivered(db) && Answers(db, replica, now, round)
    ensures var order := InOrder(db, replica, None, now);
      && (P.GoesOn(round) <==> order != [])
      && (order == [] ==> P.EndOf(round) == Some(P.Empty))
      && (order != [] ==> round.delivery.Delivery? && P.ToldIn(round) == First(order, PAGE))
  {
    hide Delivered, Sooner, WaitingFor, IsListing, MessageOf;
    var order := InOrder(db, replica, None, now);
    if order != [] {
      OrderIsHere(db, replica, None, now);
      var ids := First(order, Least(|order|, PAGE));
      IdsOfMessages(db, ids);
      assert ids == First(order, PAGE);
      AllTaken(ids, round.delivery.attachments, round.handle, |ids|);
      assert ids[..|ids|] == ids;
    }
  }

  lemma IdsOfMessages(db: Db, ids: seq<Id>)
    requires AllHere(db, ids)
    ensures var attachments := AttachmentsOf(MessagesOf(db, ids));
      |attachments| == |ids| && forall i :: 0 <= i < |ids| ==> attachments[i].id == Some(ids[i])
  {
  }

  lemma RestLists(order: seq<Id>, keys: set<Id>, less: (Id, Id) -> bool, m: nat)
    requires IsListing(order, keys, less) && m <= |order| && forall k :: k in keys ==> !less(k, k)
    ensures IsListing(order[m..], keys - Asked(order[..m]), less)
  {
    var rest := order[m..];
    forall k ensures k in keys - Asked(order[..m]) <==> k in rest {
      if k in rest {
        var j :| 0 <= j < |rest| && rest[j] == k;
        assert order[m + j] == k;
        assert forall i :: 0 <= i < m ==> less(order[..m][i], k);
      }
      if k in keys && k !in order[..m] {
        var i :| 0 <= i < |order| && order[i] == k;
        assert forall j :: 0 <= j < m ==> order[..m][j] in order[..m];
        assert rest[i - m] == k;
      }
    }
  }

  /** The first so many acknowledged, the rest wait in the order they did. */
  lemma OrderAfterAcknowledging(db: Db, replica: Did, now: Time, m: nat)
    requires Delivered(db) && m <= |InOrder(db, replica, None, now)|
    ensures var order := InOrder(db, replica, None, now); var after := AcknowledgeDeliveries(db, replica, Asked(order[..m]));
      Delivered(after) && InOrder(after, replica, None, now) == order[m..]
  {
    hide AcknowledgeDeliveries, Delivered, Addressed, Sooner, IsListing, WaitingFor, StrictTotalOn;
    var order := InOrder(db, replica, None, now);
    var ids := Asked(order[..m]);
    var after := AcknowledgeDeliveries(db, replica, ids);
    AddressedIn(db);
    DeliveredAfterAcknowledging(db, replica, ids);
    WaitingAfter(db, replica, ids, replica, None, now);
    WaitingIsHere(after, replica, None, now);
    var keys := WaitingFor(after, replica, None, now);
    var less, less' := (d: Id, e: Id) => Sooner(db, d, e), (d: Id, e: Id) => Sooner(after, d, e);
    SoonerIsTotal(db, replica, None, now);
    SoonerIsTotal(after, replica, None, now);
    NotBeforeItself(WaitingFor(db, replica, None, now), less);
    RestLists(order, WaitingFor(db, replica, None, now), less, m);
    forall d, e | d in keys && e in keys ensures less'(d, e) == less(d, e) {
      SoonerAfter(db, replica, ids, d, e);
    }
    ListingUnique(InOrder(after, replica, None, now), order[m..], keys, less', less);
  }

  lemma NotBeforeItself(keys: set<Id>, less: (Id, Id) -> bool)
    requires StrictTotalOn(keys, less)
    ensures forall k :: k in keys ==> !less(k, k)
  {
  }

  // ---- the whole drain ----

  /** Nothing of what the replica waits for comes or expires while the drain runs, but for what it acknowledges. */
  ghost predicate Unhurried(db: Db, replica: Did, times: seq<Time>, now: Time) {
    forall k :: 0 <= k < |times| ==> WaitingFor(db, replica, None, times[k]) == WaitingFor(db, replica, None, now)
  }

  /** The round's answers are of that state, and the next is what it leaves. */
  ghost predicate Follows(db: Db, replica: Did, now: Time, round: P.Round, next: Db) {
    Delivered(db) && Answers(db, replica, now, round) && next == AfterRound(db, replica, round)
  }

  /** The states the drain's rounds find, each answering its round. */
  ghost predicate Quiet(dbs: seq<Db>, replica: Did, times: seq<Time>, rounds: seq<P.Round>) {
    && |rounds| == P.ROUNDS == |times| && |dbs| == |rounds| + 1
    && Delivered(dbs[0]) && Unhurried(dbs[0], replica, times, times[0])
    && (forall k :: 0 <= k < |rounds| ==> Follows(dbs[k], replica, times[k], rounds[k], dbs[k + 1]))
  }

  /** What waits in order, at a state the tables of which are addressed. */
  ghost predicate WaitsInOrder(db: Db, replica: Did, now: Time, order: seq<Id>) {
    Delivered(db) && InOrder(db, replica, None, now) == order
  }

  lemma UnhurriedStays(db: Db, replica: Did, ids: set<Id>, times: seq<Time>, now: Time)
    requires Addressed(db.packages, db.deliveries, db.replicas) && Unhurried(db, replica, times, now)
    ensures Unhurried(AcknowledgeDeliveries(db, replica, ids), replica, times, now)
  {
    hide AcknowledgeDeliveries, Addressed, WaitingFor;
    WaitingAfter(db, replica, ids, replica, None, now);
    forall k | 0 <= k < |times| ensures WaitingFor(AcknowledgeDeliveries(db, replica, ids), replica, None, times[k]) == WaitingFor(AcknowledgeDeliveries(db, replica, ids), replica, None, now) {
      WaitingAfter(db, replica, ids, replica, None, times[k]);
    }
  }

  lemma SameOrderLater(db: Db, replica: Did, now: Time, later: Time)
    requires Delivered(db) && WaitingFor(db, replica, None, later) == WaitingFor(db, replica, None, now)
    ensures InOrder(db, replica, None, later) == InOrder(db, replica, None, now)
  {
    hide Delivered, Sooner, WaitingFor;
    SoonerIsTotal(db, replica, None, now);
    var less := (d, e) => Sooner(db, d, e);
    ListingUnique(InOrder(db, replica, None, later), InOrder(db, replica, None, now), WaitingFor(db, replica, None, now), less, less);
  }

  /** After k rounds that went on: what was told of is the front of the queue, and the rest waits as it did. */
  ghost predicate DrainedSoFar(dbs: seq<Db>, replica: Did, times: seq<Time>, rounds: seq<P.Round>, k: nat)
    requires Quiet(dbs, replica, times, rounds) && k <= |rounds|
  {
    var order := InOrder(dbs[0], replica, None, times[0]);
    var m := Least(|order|, k * PAGE);
    && P.ToldOver(rounds, k) == order[..m]
    && WaitsInOrder(dbs[k], replica, times[0], order[m..])
    && Unhurried(dbs[k], replica, times, times[0])
  }

  lemma StepOf(dbs: seq<Db>, replica: Did, times: seq<Time>, rounds: seq<P.Round>, k: nat)
    requires Quiet(dbs, replica, times, rounds) && k < |rounds|
    ensures |rounds| == |times| == P.ROUNDS && |dbs| == |rounds| + 1 && Delivered(dbs[k])
    ensures Answers(dbs[k], replica, times[k], rounds[k]) && dbs[k + 1] == AfterRound(dbs[k], replica, rounds[k])
  {
    hide Delivered, Answers, AfterRound, Unhurried;
    assert Follows(dbs[k], replica, times[k], rounds[k], dbs[k + 1]);
  }

  lemma {:induction false} DrainsOn(dbs: seq<Db>, replica: Did, times: seq<Time>, rounds: seq<P.Round>, k: nat)
    requires Quiet(dbs, replica, times, rounds) && k <= |rounds|
    requires forall j :: 0 <= j < k ==> P.GoesOn(rounds[j])
    ensures DrainedSoFar(dbs, replica, times, rounds, k)
  {
    hide Delivered, Answers, WaitingFor, Sooner, IsListing, AcknowledgeDeliveries, P.GoesOn, P.ToldIn;
    var order := InOrder(dbs[0], replica, None, times[0]);
    if k > 0 {
      DrainsOn(dbs, replica, times, rounds, k - 1);
      StepOf(dbs, replica, times, rounds, k - 1);
      RoundDrains(dbs[k - 1], replica, times, rounds[k - 1], k - 1);
      var m, rest := Least(|order|, (k - 1) * PAGE), InOrder(dbs[k - 1], replica, None, times[0]);
      NextPage(order, m, k);
      assert P.ToldOver(rounds, k) == P.ToldOver(rounds, k - 1) + First(rest, PAGE);
    }
  }

  lemma NextPage(order: seq<Id>, m: nat, k: nat)
    requires k > 0 && m == Least(|order|, (k - 1) * PAGE)
    ensures var m' := Least(|order|, k * PAGE); var page := First(order[m..], PAGE);
      order[..m] + page == order[..m'] && order[m..][|page|..] == order[m'..]
  {
  }

  /** One round that goes on, over the state it finds. */
  lemma RoundDrains(db: Db, replica: Did, times: seq<Time>, round: P.Round, k: nat)
    requires k < |times| && Delivered(db) && Unhurried(db, replica, times, times[0]) && Answers(db, replica, times[k], round) && P.GoesOn(round)
    ensures var rest, after := InOrder(db, replica, None, times[0]), AfterRound(db, replica, round);
      && round.delivery.Delivery? && P.ToldIn(round) == First(rest, PAGE)
      && Delivered(after) && InOrder(after, replica, None, times[0]) == rest[|First(rest, PAGE)|..]
      && Unhurried(after, replica, times, times[0])
  {
    hide Delivered, Answers, WaitingFor, Sooner, IsListing, AcknowledgeDeliveries, P.GoesOn, P.ToldIn, Addressed;
    SameOrderLater(db, replica, times[0], times[k]);
    RoundTells(db, replica, times[k], round);
    var rest := InOrder(db, replica, None, times[0]);
    var m := |First(rest, PAGE)|;
    assert First(rest, PAGE) == rest[..m];
    OrderAfterAcknowledging(db, replica, times[0], m);
    AddressedIn(db);
    UnhurriedStays(db, replica, Asked(rest[..m]), times, times[0]);
  }

  /**
   * The drain acknowledges the first hundred of what waits, in the order the
   * mediator keeps, exactly the rest still waits, and it ends having found
   * the queue empty iff there were ninety or fewer.
   */
  method DrainQuietly(ghost dbs: seq<Db>, ghost replica: Did, ghost times: seq<Time>, rounds: seq<P.Round>) returns (r: P.Drained, told: seq<Id>, ghost ran: nat)
    requires Quiet(dbs, replica, times, rounds)
    ensures ran <= P.ROUNDS
    ensures var order := InOrder(dbs[0], replica, None, times[0]);
      var m := Least(|order|, 100);
      && told == order[..m]
      && WaitsInOrder(dbs[ran], replica, times[0], order[m..])
      && r == P.Drained(|told|, if |order| <= 90 then P.Empty else P.Rounds)
  {
    var n: nat;
    r, n, told := P.Drain(rounds);
    ran := n;
    DrainEnds(dbs, replica, times, rounds, n);
  }

  lemma DrainEnds(dbs: seq<Db>, replica: Did, times: seq<Time>, rounds: seq<P.Round>, ran: nat)
    requires Quiet(dbs, replica, times, rounds) && ran <= P.ROUNDS
    requires (forall k :: 0 <= k < ran ==> P.GoesOn(rounds[k])) && (ran < P.ROUNDS ==> !P.GoesOn(rounds[ran]))
    ensures var order := InOrder(dbs[0], replica, None, times[0]);
      var m := Least(|order|, 100);
      && P.ToldOver(rounds, ran) == order[..m]
      && WaitsInOrder(dbs[ran], replica, times[0], order[m..])
      && (ran < P.ROUNDS <==> |order| <= 90)
      && (ran < P.ROUNDS ==> P.EndOf(rounds[ran]) == Some(P.Empty))
  {
    hide Delivered, Answers, WaitingFor, Sooner, IsListing, AfterRound, P.GoesOn, P.EndOf;
    DrainsOn(dbs, replica, times, rounds, ran);
    if ran < P.ROUNDS {
      LastRound(dbs, replica, times, rounds, ran);
    }
    if ran > 0 {
      assert forall j :: 0 <= j < ran - 1 ==> P.GoesOn(rounds[j]);
      DrainsOn(dbs, replica, times, rounds, ran - 1);
      LastRound(dbs, replica, times, rounds, ran - 1);
    }
  }

  /** A round goes on iff something is left of the queue. */
  lemma LastRound(dbs: seq<Db>, replica: Did, times: seq<Time>, rounds: seq<P.Round>, k: nat)
    requires Quiet(dbs, replica, times, rounds) && k < |rounds| && DrainedSoFar(dbs, replica, times, rounds, k)
    ensures P.GoesOn(rounds[k]) <==> |InOrder(dbs[0], replica, None, times[0])| > k * PAGE
    ensures !P.GoesOn(rounds[k]) ==> P.EndOf(rounds[k]) == Some(P.Empty)
  {
    hide Delivered, Answers, WaitingFor, Sooner, IsListing, AfterRound, P.GoesOn, P.EndOf;
    StepOf(dbs, replica, times, rounds, k);
    SameOrderLater(dbs[k], replica, times[0], times[k]);
    RoundTells(dbs[k], replica, times[k], rounds[k]);
  }
}
