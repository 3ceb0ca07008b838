/** Execution registrations: one per account and execution, each listing replicas in the order they came. */
module Registrations {
  import opened Dids
  import opened Tables
  import opened StoreSpec
  import opened StoreRuns
  import opened StoreFrames
  import opened Numbering

  /** No two registrations are of one account's execution. */
  ghost predicate OnePerExecution(executions: map<Id, Execution>) {
    forall a, b :: (a in executions && b in executions
      && executions[a].account == executions[b].account && executions[a].executionId == executions[b].executionId) ==> a == b
  }

  /** Every listing is under a registration that is there, of a replica of its account. */
  ghost predicate SlotsLinked(executions: map<Id, Execution>, registrations: map<Slot, nat>, replicas: map<Did, Replica>) {
    forall s :: s in registrations ==>
      && s.registration in executions
      && s.replica in replicas
      && replicas[s.replica].account == executions[s.registration].account
  }

  /** Every registration's replicas are numbered from one without a gap. */
  ghost predicate PlacesNumbered(registrations: map<Slot, nat>) {
    forall e :: Numbered(Places(registrations, e))
  }

  ghost predicate Listed(db: Db) {
    && OnePerExecution(db.executions)
    && SlotsLinked(db.executions, db.registrations, db.replicas)
    && PlacesNumbered(db.registrations)
  }

  // ---- the order under one registration ----

  lemma PlacesAfterListing(registrations: map<Slot, nat>, slot: Slot, n: nat)
    requires slot !in registrations
    ensures Places(registrations[slot := n], slot.registration) == Places(registrations, slot.registration)[slot.replica := n]
    ensures forall e :: e != slot.registration ==> Places(registrations[slot := n], e) == Places(registrations, e)
  {
    var registrations' := registrations[slot := n];
    var places, places' := Places(registrations, slot.registration), Places(registrations', slot.registration);
    forall r ensures r in places' <==> r in places || r == slot.replica {
      assert r in places' <==> Slot(slot.registration, r) in registrations';
      assert r in places <==> Slot(slot.registration, r) in registrations;
    }
    assert places' == places[slot.replica := n];
    forall e | e != slot.registration ensures Places(registrations', e) == Places(registrations, e) {
      SamePlaces(registrations, registrations', e);
    }
  }

  lemma SamePlaces(registrations: map<Slot, nat>, registrations': map<Slot, nat>, e: Id)
    requires forall s :: s in registrations && s.registration == e ==> s in registrations' && registrations'[s] == registrations[s]
    requires forall s :: s in registrations' && s.registration == e ==> s in registrations
    ensures Places(registrations, e) == Places(registrations', e)
  {
    var places, places' := Places(registrations, e), Places(registrations', e);
    forall r ensures r in places' <==> r in places {
      assert r in places' <==> Slot(e, r) in registrations';
      assert r in places <==> Slot(e, r) in registrations;
    }
  }

  lemma PlacesAfterEnding(registrations: map<Slot, nat>, gone: set<Id>, e: Id)
    ensures Places(SlotsWithout(registrations, gone), e) == if e in gone then map[] else Places(registrations, e)
  {
    if e !in gone {
      SamePlaces(registrations, SlotsWithout(registrations, gone), e);
    }
  }

  lemma NumberedAfterEnding(registrations: map<Slot, nat>, gone: set<Id>)
    requires PlacesNumbered(registrations)
    ensures PlacesNumbered(SlotsWithout(registrations, gone))
  {
    hide Numbered, Places, SlotsWithout;
    NothingNumbered<Did>(map[]);
    forall e ensures Numbered(Places(SlotsWithout(registrations, gone), e)) {
      PlacesAfterEnding(registrations, gone, e);
    }
  }

  /** The caller goes to the end of its registration's order, unless it was listed or there is no room. */
  lemma NumberedAfterCaller(limits: Limits, registrations: map<Slot, nat>, registration: Id, replica: Did)
    requires PlacesNumbered(registrations)
    ensures PlacesNumbered(WithCaller(limits, registrations, registration, replica))
  {
    hide Numbered, Places;
    var slot := Slot(registration, replica);
    var registrations' := WithCaller(limits, registrations, registration, replica);
    if registrations' != registrations {
      var n := |Places(registrations, registration)| + 1;
      PlacesAfterListing(registrations, slot, n);
      assert replica !in Places(registrations, registration) by { NotPlaced(registrations, slot); }
      NumberingExtends(Places(registrations, registration), replica);
      forall e ensures Numbered(Places(registrations', e)) {
        assert e != registration ==> Places(registrations', e) == Places(registrations, e);
      }
    }
  }

  lemma NotPlaced(registrations: map<Slot, nat>, slot: Slot)
    ensures slot.replica in Places(registrations, slot.registration) <==> slot in registrations
  {
    assert forall s :: s in registrations && s.registration == slot.registration && s.replica == slot.replica ==> s == slot;
  }

  // ---- one table at a time ----

  lemma OneAfterExecution(limits: Limits, executions: map<Id, Execution>, account: Did, executionId: Text, id: Id, now: Time)
    requires OnePerExecution(executions)
    ensures OnePerExecution(WithExecution(limits, executions, account, executionId, id, now))
  {
    assert forall e :: Names(executions, e, account, executionId) <==> (e in executions && executions[e].account == account && executions[e].executionId == executionId);
  }

  lemma OneWithFewer(executions: map<Id, Execution>, gone: set<Id>)
    requires OnePerExecution(executions)
    ensures OnePerExecution(executions - gone)
  {
  }

  lemma LinkedAfterExecution(executions: map<Id, Execution>, registrations: map<Slot, nat>, replicas: map<Did, Replica>, id: Id, row: Execution)
    requires SlotsLinked(executions, registrations, replicas) && id !in executions
    ensures SlotsLinked(executions[id := row], registrations, replicas)
  {
  }

  lemma LinkedAfterCaller(limits: Limits, executions: map<Id, Execution>, registrations: map<Slot, nat>, replicas: map<Did, Replica>, registration: Id, replica: Did)
    requires SlotsLinked(executions, registrations, replicas)
    requires registration in executions && replica in replicas && replicas[replica].account == executions[registration].account
    ensures SlotsLinked(executions, WithCaller(limits, registrations, registration, replica), replicas)
  {
    hide Places;
  }

  lemma LinkedAfterEnding(executions: map<Id, Execution>, registrations: map<Slot, nat>, replicas: map<Did, Replica>, gone: set<Id>)
    requires SlotsLinked(executions, registrations, replicas)
    ensures SlotsLinked(executions - gone, SlotsWithout(registrations, gone), replicas)
  {
  }

  lemma LinkedWithReplicas(executions: map<Id, Execution>, registrations: map<Slot, nat>, replicas: map<Did, Replica>, replicas': map<Did, Replica>)
    requires SlotsLinked(executions, registrations, replicas)
    requires forall r :: r in replicas ==> r in replicas' && replicas'[r].account == replicas[r].account
    ensures SlotsLinked(executions, registrations, replicas')
  {
  }

  /** An account goes with its replicas and its registrations alike. */
  lemma LinkedAfterDeletion(executions: map<Id, Execution>, registrations: map<Slot, nat>, replicas: map<Did, Replica>, account: Did)
    requires SlotsLinked(executions, registrations, replicas)
    ensures var gone := ExecutionsOf(executions, account);
      SlotsLinked(executions - gone, SlotsWithout(registrations, gone), replicas - Members(replicas, account))
  {
  }

  // ---- every call ----

  lemma ListedAfterExecute(limits: Limits, db: Db, replica: Did, mediator: Did, executionId: Text, id: Id, now: Time)
    requires Listed(db) && id !in db.executions
    ensures Listed(RegisterExecution(limits, db, replica, mediator, executionId, id, now))
  {
    hide OnePerExecution, SlotsLinked, PlacesNumbered, WithCaller, FindExecution, ExecutionsOf;
    var account := CallerAccount(db, replica, mediator);
    if account.Some? {
      var executions := WithExecution(limits, db.executions, account.value, executionId, id, now);
      OneAfterExecution(limits, db.executions, account.value, executionId, id, now);
      var found := FindExecution(executions, account.value, executionId);
      if found.Some? {
        LinkedAfterExecution(db.executions, db.registrations, db.replicas, id, Execution(account.value, executionId, now / 1000, now / 1000 + limits.retainSeconds));
        assert SlotsLinked(executions, db.registrations, db.replicas);
        LinkedAfterCaller(limits, executions, db.registrations, db.replicas, found.value, replica);
        NumberedAfterCaller(limits, db.registrations, found.value, replica);
      }
    }
  }

  lemma ListedAfterExecutions(limits: Limits, db: Db, op: ExecutionOp, now: Time)
    requires Listed(db)
    requires op.Execute? ==> op.id !in db.executions
    ensures Listed(ExecutionStep(limits, db, op, now))
  {
    hide OnePerExecution, SlotsLinked, PlacesNumbered, RegisterExecution, SlotsWithout;
    match op
    case Execute(replica, mediator, executionId, id) => ListedAfterExecute(limits, db, replica, mediator, executionId, id, now);
    case PurgeRegistrations =>
      var gone := LapsedExecutions(db.executions, now);
      OneWithFewer(db.executions, gone);
      LinkedAfterEnding(db.executions, db.registrations, db.replicas, gone);
      NumberedAfterEnding(db.registrations, gone);
  }

  lemma ListedAfterDeletion(db: Db, account: Did, mediator: Did)
    requires Listed(db)
    ensures Listed(DeleteReplicaAccount(db, account, mediator))
  {
    hide OnePerExecution, SlotsLinked, PlacesNumbered, SlotsWithout, DeliveriesWithout, UploadsWithout, ExecutionsOf, Members;
    var gone := ExecutionsOf(db.executions, account);
    OneWithFewer(db.executions, gone);
    LinkedAfterDeletion(db.executions, db.registrations, db.replicas, account);
    NumberedAfterEnding(db.registrations, gone);
  }

  lemma ListedAfterMembership(limits: Limits, db: Db, op: MembershipOp, now: Time)
    requires Listed(db)
    ensures Listed(MembershipStep(limits, db, op, now))
  {
    hide OnePerExecution, SlotsLinked, PlacesNumbered, DeleteReplicaAccount, LastAmong, UploadsWithout, NotOrdinary, Ordinals, ActiveMembers;
    match op
    case DeleteAccount(account, mediator) => ListedAfterDeletion(db, account, mediator);
    case Enroll(account, mediator, replica, longForm, grant) =>
      LinkedWithReplicas(db.executions, db.registrations, db.replicas, MembershipStep(limits, db, op, now).replicas);
    case RemoveMember(account, mediator, replica) =>
      LinkedWithReplicas(db.executions, db.registrations, db.replicas, MembershipStep(limits, db, op, now).replicas);
    case _ =>
  }

  lemma ListedKept(limits: Limits, db: Db, op: Op, now: Time)
    requires Usable(db, op)
    requires Listed(db)
    requires NewIds(op) !! db.executions.Keys
    ensures Listed(Step(limits, db, op, now))
  {
    hide OnePerExecution, SlotsLinked, PlacesNumbered, OrdinaryStep, MembershipStep, MailStep, ExecutionStep, BlobStep;
    match op
    case Ordinary(o) => OrdinaryFrame(limits, db, o, now);
    case Membership(m) => ListedAfterMembership(limits, db, m, now);
    case Mail(m) => MailFrame(limits, db, m, now);
    case Executions(e) =>
      assert e.Execute? ==> e.id in NewIds(op);
      ListedAfterExecutions(limits, db, e, now);
    case Blobs(b) => BlobFrame(limits, db, b, now);
  }
}
