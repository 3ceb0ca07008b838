/**
 * Execution registrations, told by their rows: what a replica that registers is
 * answered, from the tables and the limits alone, and when a row comes or goes.
 */
module ExecutionRows {
  import opened Dids
  import opened Tables
  import opened StoreSpec
  import opened StoreRuns
  import opened StoreFrames
  import opened Numbering
  import opened Registrations
  import opened Soundness
  import opened Rows

  /** The replica is active, and its account registered by way of that mediator. */
  predicate MayAsk(db: Db, replica: Did, mediator: Did) {
    replica in db.replicas && db.replicas[replica].removedAt.None? && StandsAt(db, db.replicas[replica].account, mediator)
  }

  /** The registration is of the account's execution. */
  predicate IsOf(db: Db, e: Id, account: Did, x: Text) {
    e in db.executions && db.executions[e].account == account && db.executions[e].executionId == x
  }

  /** Who is listed under the registration, by ordinal. */
  ghost predicate ListedAs(db: Db, e: Id, order: seq<Did>) {
    && (forall k :: 0 <= k < |order| ==> Slot(e, order[k]) in db.registrations && db.registrations[Slot(e, order[k])] == k + 1)
    && (forall s :: s in db.registrations && s.registration == e ==> s.replica in order)
  }

  /** Who is listed for the account's execution: nobody while it has no registration. */
  ghost predicate ListedFor(db: Db, account: Did, x: Text, order: seq<Did>) {
    if exists e :: IsOf(db, e, account, x) then exists e :: IsOf(db, e, account, x) && ListedAs(db, e, order) else order == []
  }

  /** The account keeps a registration of the execution, or fewer than it may. */
  ghost predicate HasPlace(limits: Limits, db: Db, account: Did, x: Text) {
    (exists e :: IsOf(db, e, account, x)) || |set e | e in db.executions && db.executions[e].account == account| < limits.maxRetained
  }

  // ---- what the statements come to ----

  lemma CallerIs(db: Db, replica: Did, mediator: Did)
    ensures CallerAccount(db, replica, mediator) == if MayAsk(db, replica, mediator) then Some(db.replicas[replica].account) else None
  {
  }

  lemma FoundIs(db: Db, account: Did, x: Text)
    ensures FindExecution(db.executions, account, x).Some? <==> exists e :: IsOf(db, e, account, x)
    ensures FindExecution(db.executions, account, x).Some? ==> IsOf(db, FindExecution(db.executions, account, x).value, account, x)
  {
    assert forall e :: Names(db.executions, e, account, x) <==> IsOf(db, e, account, x);
  }

  lemma FoundOnce(db: Db, e: Id, account: Did, x: Text)
    requires OnePerExecution(db.executions) && IsOf(db, e, account, x)
    ensures FindExecution(db.executions, account, x) == Some(e)
  {
    FoundIs(db, account, x);
  }

  lemma KeptAre(db: Db, account: Did)
    ensures ExecutionsOf(db.executions, account) == set e | e in db.executions && db.executions[e].account == account
  {
  }

  lemma PlaceIs(limits: Limits, db: Db, account: Did, x: Text)
    ensures HasPlace(limits, db, account, x) <==> FindExecution(db.executions, account, x).Some? || |ExecutionsOf(db.executions, account)| < limits.maxRetained
  {
    hide FindExecution, ExecutionsOf;
    FoundIs(db, account, x);
    KeptAre(db, account);
  }

  /** After the first insert: the registration kept, or a new one where there is a place. */
  lemma ExecutionThere(limits: Limits, db: Db, account: Did, x: Text, id: Id, now: Time)
    ensures var kept := FindExecution(db.executions, account, x); var row := Execution(account, x, now / 1000, now / 1000 + limits.retainSeconds);
      var executions := WithExecution(limits, db.executions, account, x, id, now);
      && executions == (if kept.None? && HasPlace(limits, db, account, x) then db.executions[id := row] else db.executions)
      && FindExecution(executions, account, x) == (if kept.None? && HasPlace(limits, db, account, x) then Some(id) else kept)
      && (kept.Some? ==> HasPlace(limits, db, account, x))
  {
    hide FindExecution, ExecutionsOf, HasPlace;
    PlaceIs(limits, db, account, x);
    if FindExecution(db.executions, account, x).None? && HasPlace(limits, db, account, x) {
      NewIsFound(db, account, x, id, Execution(account, x, now / 1000, now / 1000 + limits.retainSeconds));
    }
  }

  /** After both. */
  lemma RegistrationThere(limits: Limits, db: Db, replica: Did, mediator: Did, x: Text, id: Id, now: Time)
    requires MayAsk(db, replica, mediator)
    ensures var account := db.replicas[replica].account; var r := RegisterExecution(limits, db, replica, mediator, x, id, now);
      var kept := FindExecution(db.executions, account, x); var found := FindExecution(r.executions, account, x);
      && (found.Some? <==> HasPlace(limits, db, account, x))
      && (found.None? ==> r == db)
      && (found.Some? ==> found == if kept.Some? then kept else Some(id))
      && (found.Some? ==> r.registrations == WithCaller(limits, db.registrations, found.value, replica))
      && (kept.Some? ==> r.executions == db.executions)
      && (kept.None? && found.Some? ==> r.executions == db.executions[id := Execution(account, x, now / 1000, now / 1000 + limits.retainSeconds)])
  {
    hide WithCaller, WithExecution, FindExecution, HasPlace, MayAsk, CallerAccount, RegisterExecution;
    AskerIs(db, replica, mediator);
    var account := db.replicas[replica].account;
    ExecutionThere(limits, db, account, x, id, now);
    RegistrationDoes(limits, db, replica, mediator, x, id, now);
  }

  lemma AskerIs(db: Db, replica: Did, mediator: Did)
    requires MayAsk(db, replica, mediator)
    ensures replica in db.replicas && CallerAccount(db, replica, mediator) == Some(db.replicas[replica].account)
  {
  }

  lemma RegistrationDoes(limits: Limits, db: Db, replica: Did, mediator: Did, x: Text, id: Id, now: Time)
    requires replica in db.replicas && CallerAccount(db, replica, mediator) == Some(db.replicas[replica].account)
    ensures var account := db.replicas[replica].account; var executions := WithExecution(limits, db.executions, account, x, id, now);
      var found := FindExecution(executions, account, x); var r := RegisterExecution(limits, db, replica, mediator, x, id, now);
      if found.None? then r == db else r.executions == executions && r.registrations == WithCaller(limits, db.registrations, found.value, replica)
  {
    hide WithCaller, WithExecution, FindExecution, CallerAccount;
  }

  lemma NewIsFound(db: Db, account: Did, x: Text, id: Id, row: Execution)
    requires FindExecution(db.executions, account, x).None? && row.account == account && row.executionId == x
    ensures FindExecution(db.executions[id := row], account, x) == Some(id)
  {
    var more := db.(executions := db.executions[id := row]);
    assert IsOf(more, id, account, x);
    FoundIs(more, account, x);
    FoundIs(db, account, x);
    var e := FindExecution(more.executions, account, x).value;
    assert e != id ==> Names(db.executions, e, account, x);
  }

  lemma OrderIs(db: Db, e: Id, order: seq<Did>)
    requires PlacesNumbered(db.registrations) && ListedAs(db, e, order)
    ensures Numbered(Places(db.registrations, e)) && OrderOf(Places(db.registrations, e)) == order && |Places(db.registrations, e)| == |order|
    ensures forall y :: y in order <==> Slot(e, y) in db.registrations
  {
    var places := Places(db.registrations, e);
    forall y ensures y in places <==> Slot(e, y) in db.registrations {
      NotPlaced(db.registrations, Slot(e, y));
    }
    forall y | y in places ensures 1 <= places[y] <= |order| && order[places[y] - 1] == y {
      assert Slot(e, y) in db.registrations;
      var k :| 0 <= k < |order| && order[k] == y;
      assert places[y] == db.registrations[Slot(e, y)];
    }
    assert IsNumbering(places, order);
    NumberingUnique(places, order, OrderOf(places));
    NumberingCounts(places, order);
  }

  /** The caller's place once both inserts are made. */
  lemma CallerListed(limits: Limits, db: Db, e: Id, replica: Did, order: seq<Did>)
    requires PlacesNumbered(db.registrations) && ListedAs(db, e, order)
    ensures var registrations := WithCaller(limits, db.registrations, e, replica);
      && Numbered(Places(registrations, e))
      && (Slot(e, replica) in registrations <==> replica in order || |order| < limits.maxListed)
      && (Slot(e, replica) in registrations ==> OrderOf(Places(registrations, e)) == if replica in order then order else order + [replica])
  {
    hide Numbered, Places, ListedAs;
    OrderIs(db, e, order);
    var slot := Slot(e, replica);
    if slot !in db.registrations && |order| < limits.maxListed {
      PlacesAfterListing(db.registrations, slot, |order| + 1);
      NotPlaced(db.registrations, slot);
      NumberingExtends(Places(db.registrations, e), replica);
    }
  }

  lemma NobodyListed(db: Db, id: Id)
    requires Listed(db) && id !in db.executions
    ensures ListedAs(db, id, [])
  {
  }

  // ---- what a replica is answered ----

  /** What the answer about a registration says. */
  ghost predicate Answers(limits: Limits, db: Db, account: Did, x: Text, id: Id, now: Time, replica: Did, order: seq<Did>, snapshot: Snapshot) {
    && snapshot.executionId == x
    && snapshot.replicas == (if replica in order then order else order + [replica])
    && (if exists e :: IsOf(db, e, account, x) then
          && IsOf(db, snapshot.registrationId, account, x)
          && snapshot.createdTime == db.executions[snapshot.registrationId].createdTime
          && snapshot.retainUntil == db.executions[snapshot.registrationId].retainUntil
        else snapshot.registrationId == id && snapshot.createdTime == now / 1000 && snapshot.retainUntil == now / 1000 + limits.retainSeconds)
  }

  lemma AnsweredFrom(limits: Limits, db: Db, replica: Did, mediator: Did, x: Text, id: Id, now: Time, order: seq<Did>)
    requires Listed(db) && id !in db.executions && MayAsk(db, replica, mediator)
    requires ListedFor(db, db.replicas[replica].account, x, order)
    ensures var account := db.replicas[replica].account; var r := RegisterExecution(limits, db, replica, mediator, x, id, now);
      var outcome := ExecutionOutcomeOf(r, replica, mediator, x);
      && !outcome.UnknownReplica?
      && (outcome.ExecutionRegistered? <==> HasPlace(limits, db, account, x) && (replica in order || |order| < limits.maxListed))
      && (outcome.ExecutionRegistered? ==> Answers(limits, db, account, x, id, now, replica, order, outcome.snapshot))
  {
    hide Numbered, Places, ListedAs, WithCaller, RegisterExecution, FindExecution, CallerAccount, IsOf, StandsAt, SlotsLinked;
    var account := db.replicas[replica].account;
    var r := RegisterExecution(limits, db, replica, mediator, x, id, now);
    CallerIs(db, replica, mediator);
    CallerIs(r, replica, mediator);
    AskedAlike(db, r, replica, mediator);
    RegistrationThere(limits, db, replica, mediator, x, id, now);
    FoundIs(db, account, x);
    if HasPlace(limits, db, account, x) {
      var e := FindExecution(r.executions, account, x).value;
      if FindExecution(db.executions, account, x).Some? {
        var e' :| IsOf(db, e', account, x) && ListedAs(db, e', order);
        FoundOnce(db, e', account, x);
      } else {
        NobodyListed(db, id);
      }
      CallerListed(limits, db, e, replica, order);
    }
  }

  lemma AskedAlike(db: Db, r: Db, replica: Did, mediator: Did)
    requires r.replicas == db.replicas && r.replicaAccounts == db.replicaAccounts
    ensures MayAsk(r, replica, mediator) <==> MayAsk(db, replica, mediator)
  {
  }

  /**
   * In every run: a caller that is no active replica of an account registered
   * by way of the mediator is unknown. Any other is registered iff its
   * account keeps the execution or has a place for one more, and it is
   * listed already or fewer than the limit are; it is then answered the
   * order before the call with itself at the end, unless it was in it.
   */
  lemma ExecutionAnswered(limits: Limits, worlds: seq<World>, calls: seq<Call>, i: nat, replica: Did, mediator: Did, x: Text, id: Id, order: seq<Did>)
    requires IsRun(limits, worlds, calls) && i < |calls| && calls[i].op == Executions(Execute(replica, mediator, x, id))
    requires MayAsk(worlds[i].db, replica, mediator) ==> ListedFor(worlds[i].db, worlds[i].db.replicas[replica].account, x, order)
    ensures var db := worlds[i].db; var outcome := ExecutionOutcomeOf(worlds[i + 1].db, replica, mediator, x);
      && (outcome.UnknownReplica? <==> !MayAsk(db, replica, mediator))
      && (MayAsk(db, replica, mediator) ==>
            var account := db.replicas[replica].account;
            && (outcome.ExecutionRegistered? <==> HasPlace(limits, db, account, x) && (replica in order || |order| < limits.maxListed))
            && (outcome.ExecutionRegistered? ==> Answers(limits, db, account, x, id, calls[i].now, replica, order, outcome.snapshot)))
  {
    hide Sound, RegisterExecution, ExecutionOutcomeOf, ListedFor, HasPlace, Answers, Listed, MayAsk;
    assert Follows(limits, worlds[i], calls[i], worlds[i + 1]);
    RunsAreSound(limits, worlds, calls, i);
    SoundTables(limits, worlds[i]);
    assert id in NewIds(calls[i].op);
    var db := worlds[i].db;
    if MayAsk(db, replica, mediator) {
      AnsweredFrom(limits, db, replica, mediator, x, id, calls[i].now, order);
    } else {
      UnknownUnlessAsked(limits, db, replica, mediator, x, id, calls[i].now);
    }
  }

  lemma UnknownUnlessAsked(limits: Limits, db: Db, replica: Did, mediator: Did, x: Text, id: Id, now: Time)
    requires !MayAsk(db, replica, mediator)
    ensures ExecutionOutcomeOf(RegisterExecution(limits, db, replica, mediator, x, id, now), replica, mediator, x) == UnknownReplica
  {
    hide MayAsk;
    CallerIs(db, replica, mediator);
  }

  lemma ListedInOrderOf(db: Db, e: Id)
    requires PlacesNumbered(db.registrations)
    ensures Numbered(Places(db.registrations, e)) && ListedAs(db, e, OrderOf(Places(db.registrations, e)))
  {
    var places := Places(db.registrations, e);
    assert Numbered(places);
    var order := OrderOf(places);
    forall y ensures y in places <==> Slot(e, y) in db.registrations {
      NotPlaced(db.registrations, Slot(e, y));
    }
    forall s | s in db.registrations && s.registration == e ensures s.replica in order {
      assert s == Slot(e, s.replica) && order[places[s.replica] - 1] == s.replica;
    }
  }

  /** There is always such an order to speak of. */
  lemma ListedForSome(limits: Limits, w: World, account: Did, x: Text)
    requires Sound(limits, w)
    ensures exists order :: ListedFor(w.db, account, x, order)
  {
    hide Sound, OnePerExecution, SlotsLinked, Numbered, Places, ListedAs;
    SoundTables(limits, w);
    if e :| IsOf(w.db, e, account, x) {
      ListedInOrderOf(w.db, e);
      assert ListedFor(w.db, account, x, OrderOf(Places(w.db.registrations, e)));
    } else {
      assert ListedFor(w.db, account, x, []);
    }
  }

  // ---- when a row comes or goes ----

  /** Made for a replica that may ask of an execution not kept yet, while there is a place; gone past its retention, or with its account. */
  ghost predicate ExecutionRow(limits: Limits, db: Db, op: Op, now: Time, r: Db, e: Id) {
    if e in db.executions then
      && (e in r.executions <==> !(op == Executions(PurgeRegistrations) && db.executions[e].retainUntil <= now / 1000) && !Deletes(db, op, db.executions[e].account))
      && (e in r.executions ==> r.executions[e] == db.executions[e])
    else
      && (e in r.executions <==>
            && op.Executions? && op.execution.Execute? && op.execution.id == e && MayAsk(db, op.execution.replica, op.execution.mediator)
            && var account := db.replicas[op.execution.replica].account;
               (forall k :: !IsOf(db, k, account, op.execution.executionId)) && HasPlace(limits, db, account, op.execution.executionId))
      && (e in r.executions ==>
            r.executions[e] == Execution(db.replicas[op.execution.replica].account, op.execution.executionId, now / 1000, now / 1000 + limits.retainSeconds))
  }

  lemma ExecutionsByExecutions(limits: Limits, db: Db, op: ExecutionOp, now: Time, e: Id)
    requires Listed(db) && (op.Execute? ==> op.id !in db.executions)
    ensures ExecutionRow(limits, db, Executions(op), now, ExecutionStep(limits, db, op, now), e)
  {
    hide Listed, RegisterExecution, HasPlace, FindExecution, WithCaller, SlotsWithout, CallerAccount;
    if op.Execute? {
      CallerIs(db, op.replica, op.mediator);
      if MayAsk(db, op.replica, op.mediator) {
        OnePerExecutionOf(db);
        RegistrationThere(limits, db, op.replica, op.mediator, op.executionId, op.id, now);
        FoundIs(db, db.replicas[op.replica].account, op.executionId);
      } else {
        UnaskedKeeps(limits, db, op.replica, op.mediator, op.executionId, op.id, now);
      }
    }
  }

  lemma OnePerExecutionOf(db: Db)
    requires Listed(db)
    ensures OnePerExecution(db.executions)
  {
  }

  lemma UnaskedKeeps(limits: Limits, db: Db, replica: Did, mediator: Did, x: Text, id: Id, now: Time)
    requires !MayAsk(db, replica, mediator)
    ensures RegisterExecution(limits, db, replica, mediator, x, id, now) == db
  {
    CallerIs(db, replica, mediator);
  }

  lemma ExecutionsByMembership(limits: Limits, db: Db, op: MembershipOp, now: Time, e: Id)
    ensures ExecutionRow(limits, db, Membership(op), now, MembershipStep(limits, db, op, now), e)
  {
    hide LastAmong, UploadsWithout, SlotsWithout, DeliveriesWithout, PackagesOf, Members, RecipientsOf, BlobsOfAny, BlobsOf,
      RegisterReplicaAccount, AddReplica, AddSharedRecipient, RemoveSharedRecipient, RowRemoved, HasPlace, MayAsk, IsOf;
  }

  lemma ExecutionRowsOf(limits: Limits, w: World, op: Op, now: Time, e: Id)
    requires Sound(limits, w) && Admissible(w, op, now)
    ensures ExecutionRow(limits, w.db, op, now, Step(limits, w.db, op, now), e)
  {
    hide Sound, Listed, OrdinaryStep, MembershipStep, MailStep, ExecutionStep, BlobStep, HasPlace, MayAsk, IsOf;
    SoundTables(limits, w);
    match op
    case Ordinary(o) => OrdinaryFrame(limits, w.db, o, now);
    case Membership(m) => ExecutionsByMembership(limits, w.db, m, now, e);
    case Mail(m) => MailFrame(limits, w.db, m, now);
    case Executions(x) =>
      assert x.Execute? ==> x.id in NewIds(op);
      ExecutionsByExecutions(limits, w.db, x, now, e);
    case Blobs(b) => BlobFrame(limits, w.db, b, now);
  }

  /** A listing comes by its own replica's call alone, under that call's execution; it goes with its registration alone, and keeps its ordinal till then. */
  ghost predicate SlotRow(db: Db, op: Op, r: Db, s: Slot) {
    if s in db.registrations then (s in r.registrations <==> s.registration in r.executions) && (s in r.registrations ==> r.registrations[s] == db.registrations[s])
    else
      s in r.registrations ==>
        && op.Executions? && op.execution.Execute? && op.execution.replica == s.replica && s.replica in db.replicas
        && IsOf(r, s.registration, db.replicas[s.replica].account, op.execution.executionId)
  }

  lemma SlotsByExecute(limits: Limits, db: Db, replica: Did, mediator: Did, x: Text, id: Id, now: Time, s: Slot)
    requires Listed(db) && id !in db.executions
    ensures SlotRow(db, Executions(Execute(replica, mediator, x, id)), RegisterExecution(limits, db, replica, mediator, x, id, now), s)
  {
    hide Numbered, Places, FindExecution, ExecutionsOf;
  }

  lemma SlotsByEnding(db: Db, op: Op, r: Db, gone: set<Id>, s: Slot)
    requires Listed(db) && r.executions == db.executions - gone && r.registrations == SlotsWithout(db.registrations, gone)
    ensures SlotRow(db, op, r, s)
  {
    hide Numbered, Places;
  }

  lemma SlotsByMembership(limits: Limits, db: Db, op: MembershipOp, now: Time, s: Slot)
    requires Listed(db)
    ensures SlotRow(db, Membership(op), MembershipStep(limits, db, op, now), s)
  {
    hide SlotsWithout, ExecutionsOf, OnePerExecution, PlacesNumbered, LastAmong, UploadsWithout, DeliveriesWithout, PackagesOf, Members, RecipientsOf, BlobsOfAny, BlobsOf,
      RegisterReplicaAccount, AddReplica, AddSharedRecipient, RemoveSharedRecipient, RemoveReplica;
    if op.DeleteAccount? && IsAccount(db, op.account, op.mediator) {
      SlotsByEnding(db, Membership(op), MembershipStep(limits, db, op, now), ExecutionsOf(db.executions, op.account), s);
    }
  }

  lemma SlotsByExecutions(limits: Limits, db: Db, op: ExecutionOp, now: Time, s: Slot)
    requires Listed(db) && (op.Execute? ==> op.id !in db.executions)
    ensures SlotRow(db, Executions(op), ExecutionStep(limits, db, op, now), s)
  {
    hide Listed, SlotRow, RegisterExecution, SlotsWithout, LapsedExecutions;
    match op
    case Execute(replica, mediator, x, id) => SlotsByExecute(limits, db, replica, mediator, x, id, now, s);
    case PurgeRegistrations => SlotsByEnding(db, Executions(op), ExecutionStep(limits, db, op, now), LapsedExecutions(db.executions, now), s);
  }

  lemma SlotsAreLinked(db: Db, s: Slot)
    requires Listed(db)
    ensures s in db.registrations ==> s.registration in db.executions
  {
    hide OnePerExecution, PlacesNumbered;
  }

  lemma SlotRows(limits: Limits, w: World, op: Op, now: Time, s: Slot)
    requires Sound(limits, w) && Admissible(w, op, now)
    ensures SlotRow(w.db, op, Step(limits, w.db, op, now), s)
  {
    hide Sound, Listed, OrdinaryStep, MembershipStep, MailStep, ExecutionStep, BlobStep;
    SoundTables(limits, w);
    SlotsAreLinked(w.db, s);
    match op
    case Ordinary(o) => OrdinaryFrame(limits, w.db, o, now);
    case Membership(m) => SlotsByMembership(limits, w.db, m, now, s);
    case Mail(m) => MailFrame(limits, w.db, m, now);
    case Executions(x) =>
      assert x.Execute? ==> x.id in NewIds(op);
      SlotsByExecutions(limits, w.db, x, now, s);
    case Blobs(b) => BlobFrame(limits, w.db, b, now);
  }
}
