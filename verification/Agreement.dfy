/**
 * What the mediator tells the replicas of one account about who came first to
 * an execution: over every run the answers agree, and only a purge or the
 * account's deletion starts an order over.
 */
module Agreement {
  import opened Dids
  import opened Tables
  import opened StoreSpec
  import opened StoreRuns
  import opened StoreFrames
  import opened Numbering
  import opened Exclusivity
  import opened Registrations
  import opened Soundness

  /** The replicas listed under a registration, in the order they came. */
  ghost function Order(db: Db, e: Id): (r: seq<Did>)
    requires Numbered(Places(db.registrations, e))
  {
    OrderOf(Places(db.registrations, e))
  }

  // ---- one registration, from call to call ----

  /** A registration that is still there is the same one, its order at most extended. */
  ghost predicate Continues(db: Db, after: Db, e: Id) {
    (e in db.executions && e in after.executions) ==>
      && after.executions[e] == db.executions[e]
      && Numbered(Places(db.registrations, e)) && Numbered(Places(after.registrations, e))
      && Order(db, e) <= Order(after, e)
  }

  lemma ContinuesUnchanged(db: Db, after: Db, e: Id)
    requires PlacesNumbered(db.registrations)
    requires after.executions == db.executions && after.registrations == db.registrations
    ensures Continues(db, after, e)
  {
    hide Numbered, Places;
  }

  lemma ContinuesAfterEnding(db: Db, after: Db, gone: set<Id>, e: Id)
    requires PlacesNumbered(db.registrations)
    requires after.executions == db.executions - gone && after.registrations == SlotsWithout(db.registrations, gone)
    ensures Continues(db, after, e)
  {
    hide Numbered, Places, SlotsWithout;
    PlacesAfterEnding(db.registrations, gone, e);
  }

  lemma OrderAfterCaller(limits: Limits, registrations: map<Slot, nat>, registration: Id, replica: Did, e: Id)
    requires PlacesNumbered(registrations)
    ensures var registrations' := WithCaller(limits, registrations, registration, replica);
      && Numbered(Places(registrations', e))
      && OrderOf(Places(registrations, e)) <= OrderOf(Places(registrations', e))
  {
    hide Numbered, Places;
    var slot := Slot(registration, replica);
    var registrations' := WithCaller(limits, registrations, registration, replica);
    if registrations' != registrations {
      var n := |Places(registrations, registration)| + 1;
      PlacesAfterListing(registrations, slot, n);
      NotPlaced(registrations, slot);
      NumberingExtends(Places(registrations, registration), replica);
      assert e != registration ==> Places(registrations', e) == Places(registrations, e);
    }
  }

  lemma ContinuesAfterExecute(limits: Limits, db: Db, replica: Did, mediator: Did, executionId: Text, id: Id, now: Time, e: Id)
    requires PlacesNumbered(db.registrations) && id !in db.executions
    ensures Continues(db, RegisterExecution(limits, db, replica, mediator, executionId, id, now), e)
  {
    hide Numbered, Places, WithCaller, FindExecution, ExecutionsOf;
    var account := CallerAccount(db, replica, mediator);
    if account.Some? {
      var found := FindExecution(WithExecution(limits, db.executions, account.value, executionId, id, now), account.value, executionId);
      if found.Some? {
        OrderAfterCaller(limits, db.registrations, found.value, replica, e);
      }
    }
  }

  lemma ContinuesAfterMembership(limits: Limits, db: Db, op: MembershipOp, now: Time, e: Id)
    requires PlacesNumbered(db.registrations)
    ensures Continues(db, MembershipStep(limits, db, op, now), e)
  {
    hide Continues, PlacesNumbered, LastAmong, DeliveriesWithout, UploadsWithout, SlotsWithout, BlobsOf, Members, PackagesOf, ExecutionsOf,
      RegisterReplicaAccount, AddReplica, AddSharedRecipient, RemoveSharedRecipient, RemoveReplica;
    var r := MembershipStep(limits, db, op, now);
    if op.DeleteAccount? && IsAccount(db, op.account, op.mediator) {
      ContinuesAfterEnding(db, r, ExecutionsOf(db.executions, op.account), e);
    } else {
      ContinuesUnchanged(db, r, e);
    }
  }

  lemma RegistrationContinues(limits: Limits, db: Db, op: Op, now: Time, e: Id)
    requires Usable(db, op)
    requires PlacesNumbered(db.registrations) && NewIds(op) !! db.executions.Keys
    ensures Continues(db, Step(limits, db, op, now), e)
  {
    hide Continues, PlacesNumbered, OrdinaryStep, MembershipStep, MailStep, BlobStep, RegisterExecution, LapsedExecutions, SlotsWithout;
    var r := Step(limits, db, op, now);
    match op
    case Ordinary(o) => OrdinaryFrame(limits, db, o, now); ContinuesUnchanged(db, r, e);
    case Membership(m) => ContinuesAfterMembership(limits, db, m, now, e);
    case Mail(m) => MailFrame(limits, db, m, now); ContinuesUnchanged(db, r, e);
    case Executions(Execute(replica, mediator, executionId, id)) =>
      assert id in NewIds(op);
      ContinuesAfterExecute(limits, db, replica, mediator, executionId, id, now, e);
    case Executions(PurgeRegistrations) => ContinuesAfterEnding(db, r, LapsedExecutions(db.executions, now), e);
    case Blobs(b) => BlobFrame(limits, db, b, now); ContinuesUnchanged(db, r, e);
  }

  /** What ends a registration: a purge past its retention, or the deletion of its account. */
  predicate Ends(call: Call, row: Execution) {
    || (call.op == Executions(PurgeRegistrations) && row.retainUntil <= call.now / 1000)
    || (call.op.Membership? && call.op.membership.DeleteAccount? && call.op.membership.account == row.account)
  }

  lemma OnlyTheseEnd(limits: Limits, db: Db, op: Op, now: Time, e: Id)
    requires Usable(db, op)
    ensures e in db.executions && e !in Step(limits, db, op, now).executions ==> Ends(Call(op, now), db.executions[e])
  {
    hide OrdinaryStep, MembershipStep, MailStep, ExecutionStep, BlobStep;
    match op
    case Ordinary(o) => OrdinaryFrame(limits, db, o, now);
    case Membership(m) => OnlyDeletionEnds(limits, db, m, now, e);
    case Mail(m) => MailFrame(limits, db, m, now);
    case Executions(x) => OnlyPurgeEnds(limits, db, x, now, e);
    case Blobs(b) => BlobFrame(limits, db, b, now);
  }

  lemma OnlyPurgeEnds(limits: Limits, db: Db, op: ExecutionOp, now: Time, e: Id)
    ensures e in db.executions && e !in ExecutionStep(limits, db, op, now).executions ==> op.PurgeRegistrations? && db.executions[e].retainUntil <= now / 1000
  {
    hide FindExecution, WithCaller, SlotsWithout, CallerAccount, ExecutionsOf;
  }

  lemma OnlyDeletionEnds(limits: Limits, db: Db, op: MembershipOp, now: Time, e: Id)
    ensures e in db.executions && e !in MembershipStep(limits, db, op, now).executions ==> op.DeleteAccount? && op.account == db.executions[e].account
  {
    hide LastAmong, DeliveriesWithout, UploadsWithout, SlotsWithout, BlobsOf, BlobsOfAny, Members, PackagesOf, IsAccount,
      RegisterReplicaAccount, AddReplica, AddSharedRecipient, RemoveSharedRecipient, RemoveReplica;
  }

  /** A registration comes in under the id a call generated, or not at all. */
  lemma OnlyNewBegin(limits: Limits, db: Db, op: Op, now: Time, e: Id)
    requires Usable(db, op)
    requires e !in db.executions && e in Step(limits, db, op, now).executions
    ensures e in NewIds(op)
  {
    hide OrdinaryStep, MembershipStep, MailStep, ExecutionStep, BlobStep;
    match op
    case Ordinary(o) => OrdinaryFrame(limits, db, o, now);
    case Membership(m) => FewerExecutionsAfterMembership(limits, db, m, now);
    case Mail(m) => MailFrame(limits, db, m, now);
    case Executions(x) => MintedAfterExecutions(limits, db, x, now);
    case Blobs(b) => BlobFrame(limits, db, b, now);
  }

  // ---- the answer to one call ----

  /** An answer to `execution-register`: who asked, of which account, and the registration as read back. */
  datatype Reply = Reply(account: Option<Did>, replica: Did, snapshot: Snapshot)

  /** An answer names its replica and lists it, and agrees with the registration as long as that is kept. */
  ghost predicate Stands(db: Db, reply: Reply) {
    var snapshot := reply.snapshot;
    && reply.account.Some?
    && reply.replica in snapshot.replicas
    && (snapshot.registrationId in db.executions ==>
          var row := db.executions[snapshot.registrationId];
          && row.account == reply.account.value
          && row.executionId == snapshot.executionId
          && row.retainUntil == snapshot.retainUntil
          && Numbered(Places(db.registrations, snapshot.registrationId))
          && snapshot.replicas <= Order(db, snapshot.registrationId))
  }

  /** The answer of one call, when it is a registration. */
  ghost function AnswerTo(limits: Limits, db: Db, op: Op, now: Time): (r: Option<Reply>)
    requires Usable(db, op)
  {
    if op.Executions? && op.execution.Execute? then
      var x := op.execution;
      var outcome := ExecutionOutcomeOf(Step(limits, db, op, now), x.replica, x.mediator, x.executionId);
      if outcome.ExecutionRegistered?
      then Some(Reply(CallerAccount(db, x.replica, x.mediator), x.replica, outcome.snapshot)) else None
    else None
  }

  /** An answer states the registration as the call left it: its order whole, the caller in it. */
  lemma AnswerStates(limits: Limits, db: Db, op: Op, now: Time)
    requires Usable(db, op) && PlacesNumbered(db.registrations)
    requires AnswerTo(limits, db, op, now).Some?
    ensures var reply := AnswerTo(limits, db, op, now).value; var after := Step(limits, db, op, now); var e := reply.snapshot.registrationId;
      && Stands(after, reply)
      && e in after.executions
      && reply.snapshot.replicas == Order(after, e)
      && reply.replica == op.execution.replica
      && reply.snapshot.executionId == op.execution.executionId
      && reply.account == CallerAccount(db, op.execution.replica, op.execution.mediator)
  {
    hide RegisterExecution, Numbered, Places;
    var x := op.execution;
    var after := Step(limits, db, op, now);
    assert CallerAccount(after, x.replica, x.mediator) == CallerAccount(db, x.replica, x.mediator);
    var e := AnswerTo(limits, db, op, now).value.snapshot.registrationId;
    ListedInOrder(after.registrations, e, x.replica);
  }

  lemma ListedInOrder(registrations: map<Slot, nat>, e: Id, replica: Did)
    requires Slot(e, replica) in registrations && Numbered(Places(registrations, e))
    ensures replica in OrderOf(Places(registrations, e))
  {
    NotPlaced(registrations, Slot(e, replica));
    var order := OrderOf(Places(registrations, e));
    assert replica in Places(registrations, e);
  }

  lemma NumberedIn(limits: Limits, w: World)
    requires Sound(limits, w)
    ensures PlacesNumbered(w.db.registrations) && w.db.executions.Keys <= w.minted
  {
  }

  // ---- over every run ----

  /** The answer the run's i-th call was given. */
  ghost function AnswerAt(limits: Limits, worlds: seq<World>, calls: seq<Call>, i: nat): (r: Option<Reply>)
    requires IsRun(limits, worlds, calls) && i < |calls|
  {
    assert Follows(limits, worlds[i], calls[i], worlds[i + 1]);
    AnswerTo(limits, worlds[i].db, calls[i].op, calls[i].now)
  }

  /** Over every run: from one call to a later state a registration goes on, or some call in between ended it. */
  lemma {:induction false} GoesOnOrEnds(limits: Limits, worlds: seq<World>, calls: seq<Call>, i: nat, n: nat, e: Id)
    requires IsRun(limits, worlds, calls) && i <= n < |worlds|
    requires e in worlds[i].db.executions
    ensures (e in worlds[n].db.executions && worlds[n].db.executions[e] == worlds[i].db.executions[e])
      || exists k :: i <= k < n && Ends(calls[k], worlds[i].db.executions[e])
    decreases n
  {
    hide Ends, Sound, Step, Recorded, Usable, NewIds, Order;
    if n > i {
      GoesOnOrEnds(limits, worlds, calls, i, n - 1, e);
      if k :| i <= k < n - 1 && Ends(calls[k], worlds[i].db.executions[e]) {
      } else {
        var w, call := worlds[n - 1], calls[n - 1];
        assert Follows(limits, w, call, worlds[n]);
        RunsAreSound(limits, worlds, calls, n - 1);
        NumberedIn(limits, w);
        RegistrationContinues(limits, w.db, call.op, call.now, e);
        if e !in worlds[n].db.executions {
          OnlyTheseEnd(limits, w.db, call.op, call.now, e);
          assert call == calls[n - 1] && Ends(calls[n - 1], worlds[i].db.executions[e]);
        }
      }
    }
  }

  /** Any two answers under one registration are of one account's execution, the later extending the earlier. */
  lemma AnswersAgree(limits: Limits, worlds: seq<World>, calls: seq<Call>, i: nat, j: nat)
    requires IsRun(limits, worlds, calls) && i < j < |calls|
    requires AnswerAt(limits, worlds, calls, i).Some? && AnswerAt(limits, worlds, calls, j).Some?
    requires AnswerAt(limits, worlds, calls, i).value.snapshot.registrationId == AnswerAt(limits, worlds, calls, j).value.snapshot.registrationId
    ensures var a, b := AnswerAt(limits, worlds, calls, i).value, AnswerAt(limits, worlds, calls, j).value;
      && a.account == b.account
      && a.snapshot.executionId == b.snapshot.executionId
      && a.snapshot.replicas != [] && a.snapshot.replicas <= b.snapshot.replicas
  {
    assert |worlds| == |calls| + 1;
    hide IsRun, AnswerAt, Order, PlacesNumbered;
    AnsweredIn(limits, worlds, calls, i);
    AnsweredIn(limits, worlds, calls, j);
    OrderGoesOn(limits, worlds, calls, i + 1, j + 1, AnswerAt(limits, worlds, calls, i).value.snapshot.registrationId);
  }

  /**
   * Two answers about one account's execution are under one registration,
   * unless between the two calls the first one's was ended: purged past its
   * retention, or deleted with its account.
   */
  lemma OneRegistrationOrStartedOver(limits: Limits, worlds: seq<World>, calls: seq<Call>, i: nat, j: nat, a: Reply, b: Reply)
    requires IsRun(limits, worlds, calls) && i < j < |calls|
    requires AnswerAt(limits, worlds, calls, i) == Some(a) && AnswerAt(limits, worlds, calls, j) == Some(b)
    requires a.account == b.account && a.snapshot.executionId == b.snapshot.executionId
    ensures a.snapshot.registrationId == b.snapshot.registrationId || exists k :: i < k < j && EndsAnswered(calls[k], a)
  {
    assert |worlds| == |calls| + 1;
    hide IsRun, AnswerAt, Ends, Stands, Sound, PlacesNumbered, EndsAnswered;
    AnsweredIn(limits, worlds, calls, i);
    StandsMeans(worlds[i + 1].db, a);
    AnsweredIn(limits, worlds, calls, j);
    RunsAreSound(limits, worlds, calls, j + 1);
    StandsMeans(worlds[j + 1].db, b);
    if a.snapshot.registrationId != b.snapshot.registrationId {
      if a.snapshot.registrationId in worlds[j + 1].db.executions {
        OneRegistrationAtATime(limits, worlds[j + 1], a.snapshot.registrationId, b.snapshot.registrationId);
      }
      EndedBetween(limits, worlds, calls, i, j, a);
    }
  }

  lemma EndedBetween(limits: Limits, worlds: seq<World>, calls: seq<Call>, i: nat, j: nat, a: Reply)
    requires IsRun(limits, worlds, calls) && i < j < |calls|
    requires calls[j].op.Executions? && calls[j].op.execution.Execute?
    requires a.snapshot.registrationId in worlds[i + 1].db.executions && Stands(worlds[i + 1].db, a)
    requires a.snapshot.registrationId in worlds[j + 1].db.executions ==>
      worlds[j + 1].db.executions[a.snapshot.registrationId] != worlds[i + 1].db.executions[a.snapshot.registrationId]
    ensures exists k :: i < k < j && EndsAnswered(calls[k], a)
  {
    assert |worlds| == |calls| + 1;
    hide IsRun, Ends, Stands, Sound, PlacesNumbered, EndsAnswered;
    var row := worlds[i + 1].db.executions[a.snapshot.registrationId];
    GoesOnOrEnds(limits, worlds, calls, i + 1, j + 1, a.snapshot.registrationId);
    var k :| i + 1 <= k < j + 1 && Ends(calls[k], row);
    ExecuteEndsNothing(calls[j], row);
    StandsMeans(worlds[i + 1].db, a);
    EndsMeans(calls[k], row, a);
    assert i < k < j && EndsAnswered(calls[k], a);
  }

  /** The call ends the registration an answer was about. */
  predicate EndsAnswered(call: Call, reply: Reply)
  {
    || (call.op == Executions(PurgeRegistrations) && reply.snapshot.retainUntil <= call.now / 1000)
    || (call.op.Membership? && call.op.membership.DeleteAccount? && Some(call.op.membership.account) == reply.account)
  }

  lemma EndsMeans(call: Call, row: Execution, reply: Reply)
    requires Ends(call, row) && reply.account == Some(row.account) && reply.snapshot.retainUntil == row.retainUntil
    ensures EndsAnswered(call, reply)
  {
  }

  lemma StandsMeans(db: Db, reply: Reply)
    requires Stands(db, reply) && reply.snapshot.registrationId in db.executions
    ensures var row := db.executions[reply.snapshot.registrationId];
      reply.account == Some(row.account) && reply.snapshot.executionId == row.executionId && reply.snapshot.retainUntil == row.retainUntil
  {
  }

  lemma ExecuteEndsNothing(call: Call, row: Execution)
    requires call.op.Executions? && call.op.execution.Execute?
    ensures !Ends(call, row)
  {
  }

  lemma AnsweredIn(limits: Limits, worlds: seq<World>, calls: seq<Call>, i: nat)
    requires IsRun(limits, worlds, calls) && i < |calls|
    requires AnswerAt(limits, worlds, calls, i).Some?
    ensures var reply := AnswerAt(limits, worlds, calls, i).value; var e := reply.snapshot.registrationId; var db := worlds[i + 1].db;
      && calls[i].op.Executions? && calls[i].op.execution.Execute?
      && PlacesNumbered(db.registrations)
      && Stands(db, reply) && e in db.executions && reply.snapshot.replicas == Order(db, e)
      && reply.replica == calls[i].op.execution.replica
  {
    hide Sound, Step, Recorded, Usable, NewIds, ExecutionOutcomeOf, CallerAccount, Stands;
    assert Follows(limits, worlds[i], calls[i], worlds[i + 1]);
    RunsAreSound(limits, worlds, calls, i);
    RunsAreSound(limits, worlds, calls, i + 1);
    NumberedIn(limits, worlds[i]);
    NumberedIn(limits, worlds[i + 1]);
    AnswerStates(limits, worlds[i].db, calls[i].op, calls[i].now);
  }

  lemma OneRegistrationAtATime(limits: Limits, w: World, d: Id, e: Id)
    requires Sound(limits, w)
    requires d in w.db.executions && e in w.db.executions && d != e
    ensures w.db.executions[d].account != w.db.executions[e].account || w.db.executions[d].executionId != w.db.executions[e].executionId
  {
    hide Places, Numbered;
    assert OnePerExecution(w.db.executions);
  }

  /** Between two states that both hold it, a registration's order only grows: an id is never used again. */
  lemma {:induction false} OrderGoesOn(limits: Limits, worlds: seq<World>, calls: seq<Call>, i: nat, n: nat, e: Id)
    requires IsRun(limits, worlds, calls) && i <= n < |worlds|
    requires e in worlds[i].db.executions && e in worlds[n].db.executions
    ensures PlacesNumbered(worlds[i].db.registrations) && PlacesNumbered(worlds[n].db.registrations)
    ensures Order(worlds[i].db, e) <= Order(worlds[n].db, e)
    ensures worlds[i].db.executions[e] == worlds[n].db.executions[e]
    decreases n
  {
    hide Sound, Step, Recorded, Usable, NewIds, PlacesNumbered;
    RunsAreSound(limits, worlds, calls, n);
    NumberedIn(limits, worlds[n]);
    if n > i {
      var w, call := worlds[n - 1], calls[n - 1];
      assert Follows(limits, w, call, worlds[n]);
      RunsAreSound(limits, worlds, calls, n - 1);
      NumberedIn(limits, w);
      MintedStays(limits, worlds, calls, i, n - 1, e);
      if e !in w.db.executions {
        OnlyNewBegin(limits, w.db, call.op, call.now, e);
      }
      OrderGoesOn(limits, worlds, calls, i, n - 1, e);
      RegistrationContinues(limits, w.db, call.op, call.now, e);
    }
  }

  lemma {:induction false} MintedStays(limits: Limits, worlds: seq<World>, calls: seq<Call>, i: nat, n: nat, e: Id)
    requires IsRun(limits, worlds, calls) && i <= n < |worlds|
    requires e in worlds[i].db.executions
    ensures e in worlds[n].minted
    decreases n
  {
    hide Sound, Step, Recorded, Usable, NewIds, PlacesNumbered;
    if n == i {
      RunsAreSound(limits, worlds, calls, i);
      NumberedIn(limits, worlds[i]);
    } else {
      MintedStays(limits, worlds, calls, i, n - 1, e);
      assert Follows(limits, worlds[n - 1], calls[n - 1], worlds[n]);
    }
  }
}
