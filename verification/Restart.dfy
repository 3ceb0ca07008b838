/**
 * The one way two replicas both come first: the run in which they do. Two
 * replicas are enrolled, one registers, its registration is purged past its
 * retention, and the other registers.
 */
module Restart {
  import opened Dids
  import opened Tables
  import opened Numbering
  import opened StoreSpec
  import opened StoreRuns
  import opened Agreement
  import opened Responder

  const LIMITS := Limits(1, 1, 1, 2, 1, 1, 1, 2, 1)
  const ACCOUNT := Short(1)
  const MEDIATOR := Other(0)
  const FIRST := Short(2)
  const SECOND := Short(3)
  const EXECUTION: Text := 5

  const ROW := Account(MEDIATOR, Long(1, 0), 0, 10)
  const FIRST_ROW := Replica(ACCOUNT, 1, Long(2, 0), 0, 0, None)
  const SECOND_ROW := Replica(ACCOUNT, 2, Long(3, 0), 0, 0, None)

  const REGISTERED := EMPTY.(replicaAccounts := map[ACCOUNT := ROW])
  const ENROLLED_ONE := REGISTERED.(replicas := map[FIRST := FIRST_ROW])
  const ENROLLED := REGISTERED.(replicas := map[FIRST := FIRST_ROW, SECOND := SECOND_ROW])

  /** The state with one registration, listing one replica. */
  function Listing(id: Id, replica: Did, at: nat): (db: Db) {
    ENROLLED.(executions := map[id := Execution(ACCOUNT, EXECUTION, at, at + 1)], registrations := map[Slot(id, replica) := 1])
  }

  lemma Registers()
    ensures Step(LIMITS, EMPTY, Membership(Register(ACCOUNT, Long(1, 0), MEDIATOR, true, 10)), 0) == REGISTERED
  {
  }

  lemma MayEnrollFirst()
    ensures MayEnroll(LIMITS, REGISTERED, ACCOUNT, MEDIATOR, FIRST, Long(2, 0))
  {
    assert ActiveMembers(REGISTERED.replicas, ACCOUNT) == {};
  }

  lemma EnrollsFirst()
    ensures Step(LIMITS, REGISTERED, Membership(Enroll(ACCOUNT, MEDIATOR, FIRST, Long(2, 0), 0)), 0) == ENROLLED_ONE
  {
    hide MayEnroll;
    MayEnrollFirst();
    assert Ordinals(REGISTERED.replicas, ACCOUNT) == map[];
  }

  lemma MayEnrollSecond()
    ensures MayEnroll(LIMITS, ENROLLED_ONE, ACCOUNT, MEDIATOR, SECOND, Long(3, 0))
  {
    assert ActiveMembers(ENROLLED_ONE.replicas, ACCOUNT) == {FIRST};
  }

  lemma EnrollsSecond()
    ensures Step(LIMITS, ENROLLED_ONE, Membership(Enroll(ACCOUNT, MEDIATOR, SECOND, Long(3, 0), 0)), 0) == ENROLLED
  {
    hide MayEnroll;
    MayEnrollSecond();
    assert Ordinals(ENROLLED_ONE.replicas, ACCOUNT) == map[FIRST := 1];
    assert map[FIRST := FIRST_ROW][SECOND := SECOND_ROW] == map[FIRST := FIRST_ROW, SECOND := SECOND_ROW];
  }

  lemma CallerIs(db: Db, replica: Did)
    requires db.replicas == ENROLLED.replicas && db.replicaAccounts == ENROLLED.replicaAccounts
    requires replica == FIRST || replica == SECOND
    ensures CallerAccount(db, replica, MEDIATOR) == Some(ACCOUNT)
  {
  }

  lemma NewExecution(id: Id, now: Time)
    ensures WithExecution(LIMITS, map[], ACCOUNT, EXECUTION, id, now) == map[id := Execution(ACCOUNT, EXECUTION, now / 1000, now / 1000 + 1)]
  {
    assert ExecutionsOf(map[], ACCOUNT) == {};
  }

  lemma FoundIn(id: Id, row: Execution)
    requires row.account == ACCOUNT && row.executionId == EXECUTION
    ensures FindExecution(map[id := row], ACCOUNT, EXECUTION) == Some(id)
  {
    assert Names(map[id := row], id, ACCOUNT, EXECUTION);
  }

  lemma NewCaller(id: Id, replica: Did)
    ensures WithCaller(LIMITS, map[], id, replica) == map[Slot(id, replica) := 1]
  {
    assert Places(map[], id) == map[];
  }

  lemma OnePlace(id: Id, replica: Did)
    ensures var places := Places(map[Slot(id, replica) := 1], id); Numbered(places) && OrderOf(places) == [replica]
  {
    var places := Places(map[Slot(id, replica) := 1], id);
    assert places == map[replica := 1];
    assert IsNumbering(places, [replica]);
    NumberingUnique(places, [replica], OrderOf(places));
  }

  lemma RegistersExecution(replica: Did, id: Id, now: Time)
    requires replica == FIRST || replica == SECOND
    ensures Step(LIMITS, ENROLLED, Executions(Execute(replica, MEDIATOR, EXECUTION, id)), now) == Listing(id, replica, now / 1000)
  {
    hide CallerAccount, WithExecution, FindExecution, WithCaller;
    CallerIs(ENROLLED, replica);
    NewExecution(id, now);
    FoundIn(id, Execution(ACCOUNT, EXECUTION, now / 1000, now / 1000 + 1));
    NewCaller(id, replica);
  }

  lemma Purges()
    ensures Step(LIMITS, Listing(11, FIRST, 0), Executions(PurgeRegistrations), 1000) == ENROLLED
  {
    assert LapsedExecutions(Listing(11, FIRST, 0).executions, 1000) == {11};
    assert SlotsWithout(Listing(11, FIRST, 0).registrations, {11}) == map[];
  }

  lemma OutcomeIs(replica: Did, id: Id, at: nat)
    requires replica == FIRST || replica == SECOND
    ensures ExecutionOutcomeOf(Listing(id, replica, at), replica, MEDIATOR, EXECUTION) == ExecutionRegistered(Snapshot(EXECUTION, id, at, at + 1, [replica]))
  {
    hide CallerAccount, FindExecution, Places, Numbered;
    CallerIs(Listing(id, replica, at), replica);
    FoundIn(id, Execution(ACCOUNT, EXECUTION, at, at + 1));
    OnePlace(id, replica);
  }

  lemma Answers(replica: Did, id: Id, now: Time)
    requires replica == FIRST || replica == SECOND
    ensures AnswerTo(LIMITS, ENROLLED, Executions(Execute(replica, MEDIATOR, EXECUTION, id)), now) ==
      Some(Agreement.Reply(Some(ACCOUNT), replica, Snapshot(EXECUTION, id, now / 1000, now / 1000 + 1, [replica])))
  {
    hide Step, CallerAccount, ExecutionOutcomeOf, Listing;
    CallerIs(ENROLLED, replica);
    RegistersExecution(replica, id, now);
    OutcomeIs(replica, id, now / 1000);
  }

  const CALLS := [
    Call(Membership(Register(ACCOUNT, Long(1, 0), MEDIATOR, true, 10)), 0),
    Call(Membership(Enroll(ACCOUNT, MEDIATOR, FIRST, Long(2, 0), 0)), 0),
    Call(Membership(Enroll(ACCOUNT, MEDIATOR, SECOND, Long(3, 0), 0)), 0),
    Call(Executions(Execute(FIRST, MEDIATOR, EXECUTION, 11)), 0),
    Call(Executions(PurgeRegistrations), 1000),
    Call(Executions(Execute(SECOND, MEDIATOR, EXECUTION, 12)), 1000)]

  const NOTHING := History({}, {}, [], [])

  const AFTER_ONE := World(REGISTERED, 0, {10}, NOTHING)
  const AFTER_TWO := World(ENROLLED_ONE, 0, {10}, NOTHING)
  const AFTER_THREE := World(ENROLLED, 0, {10}, NOTHING)
  const AFTER_FOUR := World(Listing(11, FIRST, 0), 0, {10, 11}, NOTHING)
  const AFTER_FIVE := World(ENROLLED, 1000, {10, 11}, NOTHING)
  const AFTER_SIX := World(Listing(12, SECOND, 1), 1000, {10, 11, 12}, NOTHING)

  const WORLDS := [INITIAL, AFTER_ONE, AFTER_TWO, AFTER_THREE, AFTER_FOUR, AFTER_FIVE, AFTER_SIX]

  lemma FollowsBy(w: World, call: Call, db: Db, minted: set<Id>)
    requires w.clock <= call.now && NewIds(call.op) !! w.minted && w.history == NOTHING
    requires call.op.Executions? || (call.op.Membership? && LongFormsChecked(call.op.membership))
    requires Usable(w.db, call.op) ==> Step(LIMITS, w.db, call.op, call.now) == db
    requires minted == w.minted + NewIds(call.op)
    ensures Follows(LIMITS, w, call, World(db, call.now, minted, NOTHING))
  {
    hide Step, NewIds;
  }

  lemma Joins()
    ensures Follows(LIMITS, INITIAL, CALLS[0], AFTER_ONE) && Follows(LIMITS, AFTER_ONE, CALLS[1], AFTER_TWO) && Follows(LIMITS, AFTER_TWO, CALLS[2], AFTER_THREE)
  {
    hide Step, Follows, Usable;
    Registers();
    EnrollsFirst();
    EnrollsSecond();
    FollowsBy(INITIAL, CALLS[0], REGISTERED, {10});
    FollowsBy(AFTER_ONE, CALLS[1], ENROLLED_ONE, {10});
    FollowsBy(AFTER_TWO, CALLS[2], ENROLLED, {10});
  }

  lemma StartsOver()
    ensures Follows(LIMITS, AFTER_THREE, CALLS[3], AFTER_FOUR) && Follows(LIMITS, AFTER_FOUR, CALLS[4], AFTER_FIVE) && Follows(LIMITS, AFTER_FIVE, CALLS[5], AFTER_SIX)
  {
    hide Step, Follows, Usable, Listing;
    RegistersExecution(FIRST, 11, 0);
    Purges();
    RegistersExecution(SECOND, 12, 1000);
    FollowsBy(AFTER_THREE, CALLS[3], Listing(11, FIRST, 0), {10, 11});
    FollowsBy(AFTER_FOUR, CALLS[4], ENROLLED, {10, 11});
    FollowsBy(AFTER_FIVE, CALLS[5], Listing(12, SECOND, 1), {10, 11, 12});
  }

  lemma IsARun()
    ensures IsRun(LIMITS, WORLDS, CALLS)
  {
    hide Follows;
    Joins();
    StartsOver();
    forall i | 0 <= i < |CALLS| ensures Follows(LIMITS, WORLDS[i], CALLS[i], WORLDS[i + 1]) {
      assert i == 0 || i == 1 || i == 2 || i == 3 || i == 4 || i == 5;
    }
  }

  lemma Answered()
    requires IsRun(LIMITS, WORLDS, CALLS)
    ensures AnswerAt(LIMITS, WORLDS, CALLS, 3) == Some(Agreement.Reply(Some(ACCOUNT), FIRST, Snapshot(EXECUTION, 11, 0, 1, [FIRST])))
    ensures AnswerAt(LIMITS, WORLDS, CALLS, 5) == Some(Agreement.Reply(Some(ACCOUNT), SECOND, Snapshot(EXECUTION, 12, 1, 2, [SECOND])))
  {
    hide IsRun, AnswerTo, Listing;
    Answers(FIRST, 11, 0);
    Answers(SECOND, 12, 1000);
  }

  /** A replica answered with itself alone reads itself as the one to answer. */
  ghost predicate ReadsItself(limits: Limits, worlds: seq<World>, calls: seq<Call>, i: nat, executionId: Text, replica: Did)
    requires IsRun(limits, worlds, calls) && i < |calls|
  {
    exists heard: Heard :: heard.Self? && Hears(limits, worlds, calls, i, executionId, replica, heard)
  }

  lemma AloneReadsItself(limits: Limits, worlds: seq<World>, calls: seq<Call>, i: nat, reply: Agreement.Reply)
    requires IsRun(limits, worlds, calls) && i < |calls|
    requires AnswerAt(limits, worlds, calls, i) == Some(reply) && reply.snapshot.replicas == [reply.replica] && reply.replica.Short?
    ensures ReadsItself(limits, worlds, calls, i, reply.snapshot.executionId, reply.replica)
  {
    hide IsRun, AnswerAt, BodyOf, ResponderOf;
    ReadAsMeant(reply.snapshot, reply.snapshot.executionId, reply.replica);
    var heard := ResponderOf(BodyOf(reply.snapshot), reply.snapshot.executionId, reply.replica);
    assert heard.Self? && Hears(limits, worlds, calls, i, reply.snapshot.executionId, reply.replica, heard);
  }

  /** In this run both replicas read themselves as the one to answer. */
  lemma BothComeFirst()
    ensures IsRun(LIMITS, WORLDS, CALLS)
    ensures ReadsItself(LIMITS, WORLDS, CALLS, 3, EXECUTION, FIRST) && ReadsItself(LIMITS, WORLDS, CALLS, 5, EXECUTION, SECOND)
  {
    hide ReadsItself, AnswerAt, IsRun;
    IsARun();
    Answered();
    AloneReadsItself(LIMITS, WORLDS, CALLS, 3, AnswerAt(LIMITS, WORLDS, CALLS, 3).value);
    AloneReadsItself(LIMITS, WORLDS, CALLS, 5, AnswerAt(LIMITS, WORLDS, CALLS, 5).value);
  }
}
