/**
 * The client half of pickup: what one delivery's attachments come to, and the
 * loop that drains the queue.
 */
module Pickup {
  import opened Dids
  import opened Tables

  datatype Attachment = Attachment(id: Option<Id>)

  /** What the handle made of an attachment, or that it threw. */
  datatype Fate = Acked | Skip | Threw

  /** The handle's answer to each attachment of one delivery, by its place. */
  type Handle = nat -> Fate

  /** The mediator's answer, as far as the loop reads it: a status whose count may be none, a delivery, another message, or a line cut. */
  datatype Answer = Status(count: Option<int>) | Delivery(attachments: seq<Attachment>) | OtherMessage | Cut

  /** The ids of the attachments the handle took, in order: those it could be told of by an id. */
  function Taken(attachments: seq<Attachment>, handle: Handle, k: nat): (r: seq<Id>)
    requires k <= |attachments|
  {
    if k == 0 then []
    else Taken(attachments, handle, k - 1) +
         if attachments[k - 1].id.Some? && handle(k - 1).Acked? then [attachments[k - 1].id.value] else []
  }

  lemma {:induction false} TakenWereAcked(attachments: seq<Attachment>, handle: Handle, k: nat, id: Id)
    requires k <= |attachments|
    ensures id in Taken(attachments, handle, k) <==> exists i :: 0 <= i < k && attachments[i].id == Some(id) && handle(i).Acked?
  {
    if k > 0 {
      TakenWereAcked(attachments, handle, k - 1, id);
      var last := if attachments[k - 1].id.Some? && handle(k - 1).Acked? then [attachments[k - 1].id.value] else [];
      assert id in Taken(attachments, handle, k) <==> id in Taken(attachments, handle, k - 1) || id in last;
    }
  }

  /** Hands the attachments to the handle, whatever it makes of any of them. */
  method Take(attachments: seq<Attachment>, handle: Handle) returns (taken: seq<Id>)
    ensures taken == Taken(attachments, handle, |attachments|)
    ensures forall id :: id in taken <==> exists i :: 0 <= i < |attachments| && attachments[i].id == Some(id) && handle(i).Acked?
  {
    taken := [];
    for k := 0 to |attachments|
      invariant taken == Taken(attachments, handle, k)
    {
      if attachments[k].id.None? {
        continue;
      }
      var fate := handle(k);
      if fate.Threw? {
        fate := Skip;
      }
      if fate.Acked? {
        taken := taken + [attachments[k].id.value];
      }
    }
    forall id ensures id in taken <==> exists i :: 0 <= i < |attachments| && attachments[i].id == Some(id) && handle(i).Acked? {
      TakenWereAcked(attachments, handle, |attachments|, id);
    }
  }

  /** Telling the mediator: it was told iff it answered with a status. */
  function Told(taken: seq<Id>, answer: Answer): (r: seq<Id>) {
    if answer.Status? then taken else []
  }

  datatype Ended = Empty | Left | Rounds

  datatype Drained = Drained(acked: nat, ended: Ended) | Failed

  const ROUNDS: nat := 10

  /** What the line answers in one round, and what the handle does. */
  datatype Round = Round(status: Answer, delivery: Answer, handle: Handle, received: Answer)

  /** A round that goes on: mail is counted, delivered, and some of it acknowledged. */
  predicate GoesOn(round: Round) {
    && round.status.Status? && round.status.count.Some? && round.status.count.value > 0
    && round.delivery.Delivery?
    && ToldIn(round) != []
  }

  function ToldIn(round: Round): (r: seq<Id>)
    requires round.delivery.Delivery?
  {
    Told(Taken(round.delivery.attachments, round.handle, |round.delivery.attachments|), round.received)
  }

  /** The ids the mediator was told of over the first k rounds. */
  function ToldOver(rounds: seq<Round>, k: nat): (r: seq<Id>)
    requires k <= |rounds|
  {
    if k == 0 then [] else ToldOver(rounds, k - 1) + if rounds[k - 1].delivery.Delivery? then ToldIn(rounds[k - 1]) else []
  }

  /** How the loop ends at a round that does not go on. */
  function EndOf(round: Round): (r: Option<Ended>) {
    if !round.status.Status? || round.status.count.None? || round.status.count.value < 0 then None
    else if round.status.count.value == 0 then Some(Empty)
    else if round.delivery.Delivery? then Some(Left)
    else if round.delivery.Status? && round.delivery.count == Some(0) then Some(Empty)
    else None
  }

  /** How many wait; a status without a count does not say zero. */
  function CountOf(status: Answer): (r: Option<nat>) {
    if status.Status? && status.count.Some? && status.count.value >= 0 then Some(status.count.value) else None
  }

  /** Status, delivery request, take, acknowledge: what was told when the round goes on, how the loop ends when it does not. */
  method RunRound(round: Round) returns (told: seq<Id>, end: Option<Ended>)
    ensures told != [] <==> GoesOn(round)
    ensures told != [] ==> told == ToldIn(round)
    ensures told == [] ==> end == EndOf(round)
  {
    hide Taken;
    told, end := [], None;
    var count := CountOf(round.status);
    if count.None? {
      return;
    }
    if count.value == 0 {
      end := Some(Empty);
      return;
    }
    if round.delivery.Status? {
      end := if CountOf(round.delivery) == Some(0) then Some(Empty) else None;
      return;
    }
    if !round.delivery.Delivery? {
      return;
    }
    var taken := Take(round.delivery.attachments, round.handle);
    told := Told(taken, round.received);
    if told == [] {
      end := Some(Left);
    }
  }

  /**
   * Rounds until one does not go on, ten at most. The count is
   * of ids in acknowledgements sent.
   */
  method Drain(rounds: seq<Round>) returns (r: Drained, ran: nat, told: seq<Id>)
    requires |rounds| == ROUNDS
    ensures ran <= ROUNDS && forall k :: 0 <= k < ran ==> GoesOn(rounds[k])
    ensures told == ToldOver(rounds, ran)
    ensures forall k :: 0 <= k < ran ==> rounds[k].received.Status?
    ensures forall id :: id in told <==> exists k: nat :: k < ran && TookIn(rounds[k], id)
    ensures r.Drained? ==> r.acked == |told|
    ensures ran == ROUNDS <==> r.Drained? && r.ended.Rounds?
    ensures ran < ROUNDS ==> !GoesOn(rounds[ran]) && (r == Failed <==> EndOf(rounds[ran]).None?)
    ensures ran < ROUNDS && r.Drained? ==> EndOf(rounds[ran]) == Some(r.ended)
  {
    hide GoesOn, ToldIn, TookIn;
    var acked := 0;
    told := [];
    ran := 0;
    while ran < ROUNDS
      invariant 0 <= ran <= ROUNDS
      invariant forall k :: 0 <= k < ran ==> GoesOn(rounds[k])
      invariant told == ToldOver(rounds, ran) && acked == |told|
      invariant forall k :: 0 <= k < ran ==> rounds[k].received.Status?
      invariant forall id :: id in told <==> exists k: nat :: k < ran && TookIn(rounds[k], id)
    {
      var these, end := RunRound(rounds[ran]);
      if these == [] {
        r := if end.None? then Failed else Drained(acked, end.value);
        return;
      }
      GoesOnMeans(rounds[ran]);
      ghost var before := told;
      told := told + these;
      forall id ensures id in told <==> exists k: nat :: k < ran + 1 && TookIn(rounds[k], id) {
        if id in these {
          assert TookIn(rounds[ran], id);
        }
      }
      acked := acked + |these|;
      ran := ran + 1;
    }
    r := Drained(acked, Rounds);
  }

  /** The handle took the attachment of that id in the round, and the mediator answered its acknowledgement with a status. */
  ghost predicate TookIn(round: Round, id: Id) {
    round.received.Status? && round.delivery.Delivery?
    && exists i :: 0 <= i < |round.delivery.attachments| && round.delivery.attachments[i].id == Some(id) && round.handle(i).Acked?
  }

  lemma GoesOnMeans(round: Round)
    requires GoesOn(round)
    ensures round.delivery.Delivery? && round.received.Status?
    ensures forall id :: id in ToldIn(round) <==> TookIn(round, id)
  {
    hide Taken;
    forall id ensures id in ToldIn(round) <==> TookIn(round, id) {
      TakenWereAcked(round.delivery.attachments, round.handle, |round.delivery.attachments|, id);
    }
  }
}
