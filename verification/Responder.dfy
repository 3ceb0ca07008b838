/**
 * Who answers a live input. All replicas register the input's execution, and
 * the first on the mediator's list answers.
 */
module Responder {
  import opened Dids
  import opened Tables
  import opened StoreSpec
  import opened StoreRuns
  import opened Numbering
  import opened Exclusivity
  import opened Registrations
  import opened Soundness
  import opened Agreement

  /**
   * The body of a reply, as yet unread: `None` for an execution or a
   * registration that is no text or an empty one, for replicas that are no
   * list, and within the list for an entry that is no text.
   */
  datatype Body = Body(executionId: Option<Text>, registrationId: Option<Id>, replicas: Option<seq<Option<Did>>>)

  datatype Registration = Registration(executionId: Text, registrationId: Id, replicas: seq<Did>)

  datatype Why = OtherExecution | NoRegistration | NoReplica | NoPeerDid | NotListed | NoReply

  datatype Heard = Self(registration: Registration) | Elsewhere(registration: Registration) | Unread(because: Why)

  /** A did:peer:4 entry in its short form; other texts have none. */
  function PeerDid(entry: Option<Did>): (r: Option<Did>) {
    if entry.None? || entry.value.Other? then None else Some(Canonical(entry.value))
  }

  function ResponderOf(body: Body, executionId: Text, replicaDid: Did): (r: Heard) {
    var me := Canonical(replicaDid);
    if body.executionId != Some(executionId) then Unread(OtherExecution)
    else if body.registrationId.None? then Unread(NoRegistration)
    else if body.replicas.None? || body.replicas.value == [] then Unread(NoReplica)
    else
      var listed := body.replicas.value;
      if exists i :: 0 <= i < |listed| && PeerDid(listed[i]).None? then Unread(NoPeerDid)
      else
        var replicas := seq(|listed|, i requires 0 <= i < |listed| => Canonical(listed[i].value));
        if me !in replicas then Unread(NotListed)
        else
          var registration := Registration(executionId, body.registrationId.value, replicas);
          if replicas[0] == me then Self(registration) else Elsewhere(registration)
  }

  /** An answer is read iff it is about the execution, names a registration and lists did:peer:4 DIDs alone, this replica's among them. */
  lemma ReadExactly(body: Body, executionId: Text, replicaDid: Did)
    ensures !ResponderOf(body, executionId, replicaDid).Unread? <==>
      && body.executionId == Some(executionId) && body.registrationId.Some? && body.replicas.Some?
      && (forall i :: 0 <= i < |body.replicas.value| ==> body.replicas.value[i].Some? && !body.replicas.value[i].value.Other?)
      && exists i :: 0 <= i < |body.replicas.value| && Canonical(body.replicas.value[i].value) == Canonical(replicaDid)
    ensures ResponderOf(body, executionId, replicaDid) == Unread(OtherExecution) <==> body.executionId != Some(executionId)
    ensures ResponderOf(body, executionId, replicaDid) == Unread(NoRegistration) <==> body.executionId == Some(executionId) && body.registrationId.None?
    ensures ResponderOf(body, executionId, replicaDid) == Unread(NoReplica) <==>
      body.executionId == Some(executionId) && body.registrationId.Some? && (body.replicas.None? || body.replicas.value == [])
  {
    if body.replicas.Some? && forall i :: 0 <= i < |body.replicas.value| ==> PeerDid(body.replicas.value[i]).Some? {
      var listed := body.replicas.value;
      var replicas := seq(|listed|, i requires 0 <= i < |listed| => Canonical(listed[i].value));
      assert forall i :: 0 <= i < |listed| ==> replicas[i] == Canonical(listed[i].value);
      if i :| 0 <= i < |listed| && Canonical(listed[i].value) == Canonical(replicaDid) {
        assert replicas[i] in replicas;
      }
    }
  }

  /** What a request at the mediator comes to: a reply, a refusal, a link its holder closed, or an answer lost. */
  datatype Answer = Answered(body: Body) | RefusedByMediator | LinkClosed | Lost

  /** Asks, and asks again only if no answer came the first time. */
  method RegisterAtMediator(answers: seq<Answer>, executionId: Text, replicaDid: Did) returns (heard: Heard, asked: nat)
    requires |answers| >= 2
    ensures asked == if answers[0].Lost? then 2 else 1
    ensures answers[asked - 1].Answered? ==> heard == ResponderOf(answers[asked - 1].body, executionId, replicaDid)
    ensures !answers[asked - 1].Answered? ==> heard == Unread(NoReply)
    ensures !heard.Unread? ==> exists i :: 0 <= i < asked && answers[i].Answered? && heard == ResponderOf(answers[i].body, executionId, replicaDid)
  {
    var reply := answers[0];
    asked := 1;
    if !reply.Answered? && !(reply.RefusedByMediator? || reply.LinkClosed?) {
      reply := answers[1];
      asked := 2;
    }
    heard := if reply.Answered? then ResponderOf(reply.body, executionId, replicaDid) else Unread(NoReply);
  }

  /** The reply `execution-registered` carries. */
  function BodyOf(snapshot: Snapshot): (b: Body) {
    Body(Some(snapshot.executionId), Some(snapshot.registrationId), Some(seq(|snapshot.replicas|, i requires 0 <= i < |snapshot.replicas| => Some(snapshot.replicas[i]))))
  }

  /** What the agent reads is what the mediator meant: a snapshot listing it is read whole, as its own turn iff it is first. */
  lemma ReadAsMeant(snapshot: Snapshot, executionId: Text, replicaDid: Did)
    requires Canonical(replicaDid) in snapshot.replicas
    requires forall i :: 0 <= i < |snapshot.replicas| ==> snapshot.replicas[i].Short?
    ensures var heard := ResponderOf(BodyOf(snapshot), executionId, replicaDid);
      var registration := Registration(executionId, snapshot.registrationId, snapshot.replicas);
      heard == if snapshot.executionId != executionId then Unread(OtherExecution)
               else if snapshot.replicas[0] == Canonical(replicaDid) then Self(registration) else Elsewhere(registration)
  {
    var listed := BodyOf(snapshot).replicas.value;
    assert forall i :: 0 <= i < |listed| ==> PeerDid(listed[i]) == Some(snapshot.replicas[i]);
    assert seq(|listed|, i requires 0 <= i < |listed| => Canonical(listed[i].value)) == snapshot.replicas;
  }

  /** Every replica a registration lists goes by its short form. */
  lemma ListedByShortForm(limits: Limits, w: World, e: Id)
    requires Sound(limits, w)
    ensures Numbered(Places(w.db.registrations, e))
    ensures forall i :: 0 <= i < |Order(w.db, e)| ==> Order(w.db, e)[i].Short?
  {
    NumberedIn(limits, w);
    var places := Places(w.db.registrations, e);
    assert Numbered(places);
    forall i | 0 <= i < |OrderOf(places)| ensures OrderOf(places)[i].Short? {
      var r := OrderOf(places)[i];
      assert r in places;
      NotPlaced(w.db.registrations, Slot(e, r));
      RowsAreShort(w.db, Slot(e, r));
    }
  }

  lemma RowsAreShort(db: Db, slot: Slot)
    requires DidsBound(db) && Listed(db)
    requires slot in db.registrations
    ensures slot.replica.Short?
  {
  }

  /** What a replica's agent, however its DID is written, makes of the run's i-th answer, having asked about an execution. */
  ghost predicate Hears(limits: Limits, worlds: seq<World>, calls: seq<Call>, i: nat, executionId: Text, agent: Did, heard: Heard)
    requires IsRun(limits, worlds, calls) && i < |calls|
  {
    var answer := AnswerAt(limits, worlds, calls, i);
    answer.Some? && answer.value.replica == Canonical(agent) && heard == ResponderOf(BodyOf(answer.value.snapshot), executionId, agent)
  }

  lemma HearsAsMeant(limits: Limits, worlds: seq<World>, calls: seq<Call>, i: nat, executionId: Text, agent: Did, heard: Heard)
    requires IsRun(limits, worlds, calls) && i < |calls|
    requires Hears(limits, worlds, calls, i, executionId, agent, heard)
    ensures var snapshot := AnswerAt(limits, worlds, calls, i).value.snapshot;
      && snapshot.replicas != []
      && (heard.Self? <==> snapshot.executionId == executionId && snapshot.replicas[0] == Canonical(agent))
      && (heard.Unread? <==> snapshot.executionId != executionId)
      && (!heard.Unread? ==> heard.registration == Registration(executionId, snapshot.registrationId, snapshot.replicas))
  {
    assert |worlds| == |calls| + 1;
    hide IsRun, AnswerAt, Sound, PlacesNumbered, ResponderOf, BodyOf, Order;
    AnsweredIn(limits, worlds, calls, i);
    RunsAreSound(limits, worlds, calls, i + 1);
    var reply := AnswerAt(limits, worlds, calls, i).value;
    ListedByShortForm(limits, worlds[i + 1], reply.snapshot.registrationId);
    StandsListing(worlds[i + 1].db, reply);
    ReadAsMeant(reply.snapshot, executionId, agent);
  }

  lemma StandsListing(db: Db, reply: Reply)
    requires Stands(db, reply)
    ensures reply.replica in reply.snapshot.replicas && reply.snapshot.replicas != []
  {
  }

  /** Under one registration at most one replica ever reads itself as the one to answer. */
  lemma OneResponder(limits: Limits, worlds: seq<World>, calls: seq<Call>, i: nat, j: nat,
                     executionId: Text, executionId': Text, a: Did, b: Did, ha: Heard, hb: Heard)
    requires IsRun(limits, worlds, calls) && i < |calls| && j < |calls|
    requires Hears(limits, worlds, calls, i, executionId, a, ha) && Hears(limits, worlds, calls, j, executionId', b, hb)
    requires ha.Self? && hb.Self? && ha.registration.registrationId == hb.registration.registrationId
    ensures Canonical(a) == Canonical(b) && executionId == executionId'
  {
    hide IsRun, AnswerAt, ResponderOf, BodyOf;
    HearsAsMeant(limits, worlds, calls, i, executionId, a, ha);
    HearsAsMeant(limits, worlds, calls, j, executionId', b, hb);
    if i < j {
      AnswersAgree(limits, worlds, calls, i, j);
    } else if j < i {
      AnswersAgree(limits, worlds, calls, j, i);
    }
  }

  /**
   * Two replicas of an account that each read themselves as the one to
   * answer one execution: then, between the two calls, the registration of
   * the earlier was purged past its retention or deleted with the account.
   */
  lemma TwoRespondersMeanStartedOver(limits: Limits, worlds: seq<World>, calls: seq<Call>, i: nat, j: nat,
                                     executionId: Text, a: Did, b: Did, ha: Heard, hb: Heard)
    requires IsRun(limits, worlds, calls) && i < j < |calls|
    requires Hears(limits, worlds, calls, i, executionId, a, ha) && Hears(limits, worlds, calls, j, executionId, b, hb)
    requires AnswerAt(limits, worlds, calls, i).value.account == AnswerAt(limits, worlds, calls, j).value.account
    requires ha.Self? && hb.Self? && Canonical(a) != Canonical(b)
    ensures exists k :: i < k < j && EndsAnswered(calls[k], AnswerAt(limits, worlds, calls, i).value)
  {
    var first, second := AnswerAt(limits, worlds, calls, i).value, AnswerAt(limits, worlds, calls, j).value;
    hide IsRun, AnswerAt, ResponderOf, BodyOf, EndsAnswered;
    HearsAsMeant(limits, worlds, calls, i, executionId, a, ha);
    HearsAsMeant(limits, worlds, calls, j, executionId, b, hb);
    if first.snapshot.registrationId == second.snapshot.registrationId {
      OneResponder(limits, worlds, calls, i, j, executionId, executionId, a, b, ha, hb);
    }
    OneRegistrationOrStartedOver(limits, worlds, calls, i, j, first, second);
  }
}
