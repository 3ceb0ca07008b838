/** Ordinals count an account's enrollments from one, and removal changes none. */
module Rosters {
  import opened Dids
  import opened Tables
  import opened StoreSpec
  import opened StoreRuns
  import opened StoreFrames
  import opened Numbering

  /** Every account's replicas are numbered from one without a gap, the removed ones among them. */
  ghost predicate Rostered(replicas: map<Did, Replica>) {
    forall a :: Numbered(Ordinals(replicas, a))
  }

  lemma OrdinalsAfterEnrollment(replicas: map<Did, Replica>, replica: Did, row: Replica)
    requires replica !in replicas
    ensures Ordinals(replicas[replica := row], row.account) == Ordinals(replicas, row.account)[replica := row.ordinal]
    ensures forall a :: a != row.account ==> Ordinals(replicas[replica := row], a) == Ordinals(replicas, a)
  {
  }

  /** Enrolling appends to one roster and leaves every other. */
  lemma RosteredAfterEnrollment(replicas: map<Did, Replica>, replica: Did, row: Replica)
    requires Rostered(replicas) && replica !in replicas
    requires row.ordinal == |Ordinals(replicas, row.account)| + 1
    ensures Rostered(replicas[replica := row])
    ensures OrderOf(Ordinals(replicas[replica := row], row.account)) == OrderOf(Ordinals(replicas, row.account)) + [replica]
  {
    hide Numbered, IsNumbering;
    var replicas' := replicas[replica := row];
    assert replica !in Ordinals(replicas, row.account);
    OrdinalsAfterEnrollment(replicas, replica, row);
    NumberingExtends(Ordinals(replicas, row.account), replica);
    forall a ensures Numbered(Ordinals(replicas', a)) {
      if a != row.account {
        assert Ordinals(replicas', a) == Ordinals(replicas, a);
      }
    }
  }

  /** A replica keeps its place whatever else of its row changes. */
  lemma OrdinalsAfterRemoval(replicas: map<Did, Replica>, replica: Did, row: Replica)
    requires replica in replicas
    requires row.account == replicas[replica].account && row.ordinal == replicas[replica].ordinal
    ensures forall a :: Ordinals(replicas[replica := row], a) == Ordinals(replicas, a)
  {
  }

  /** Without one account's replicas its roster is empty, and every other is as it was. */
  lemma OrdinalsAfterDeletion(replicas: map<Did, Replica>, account: Did)
    ensures Ordinals(replicas - Members(replicas, account), account) == map[]
    ensures forall a :: a != account ==> Ordinals(replicas - Members(replicas, account), a) == Ordinals(replicas, a)
  {
  }

  lemma RosteredAfterMembership(limits: Limits, db: Db, op: MembershipOp, now: Time)
    requires Rostered(db.replicas)
    ensures Rostered(MembershipStep(limits, db, op, now).replicas)
  {
    hide Numbered, Ordinals, Members, NotOrdinary, LastAmong, DeliveriesWithout, UploadsWithout, SlotsWithout;
    var replicas' := MembershipStep(limits, db, op, now).replicas;
    match op
    case DeleteAccount(account, mediator) =>
      OrdinalsAfterDeletion(db.replicas, account);
      NothingNumbered<Did>(map[]);
    case Enroll(account, mediator, replica, longForm, grant) =>
      if MayEnroll(limits, db, account, mediator, replica, longForm) {
        RosteredAfterEnrollment(db.replicas, replica, replicas'[replica]);
      }
    case RemoveMember(account, mediator, replica) =>
      if IsMember(db, account, mediator, replica) {
        OrdinalsAfterRemoval(db.replicas, replica, replicas'[replica]);
        forall a ensures Numbered(Ordinals(replicas', a)) {
          assert Ordinals(replicas', a) == Ordinals(db.replicas, a);
        }
      }
    case _ =>
  }

  lemma RosteredKept(limits: Limits, db: Db, op: Op, now: Time)
    requires Usable(db, op)
    requires Rostered(db.replicas)
    ensures Rostered(Step(limits, db, op, now).replicas)
  {
    hide Rostered, OrdinaryStep, MembershipStep, MailStep, ExecutionStep, BlobStep;
    match op
    case Ordinary(o) => OrdinaryFrame(limits, db, o, now);
    case Membership(m) => RosteredAfterMembership(limits, db, m, now);
    case Mail(m) => MailFrame(limits, db, m, now);
    case Executions(e) => ExecutionFrame(limits, db, e, now);
    case Blobs(b) => BlobFrame(limits, db, b, now);
  }
}
