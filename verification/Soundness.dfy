/** What every state the store can reach keeps, whatever was called and whenever. */
module Soundness {
  import opened Dids
  import opened Tables
  import opened StoreSpec
  import opened StoreRuns
  import opened StoreFrames
  import opened Exclusivity
  import opened Links
  import opened Rosters
  import opened Registrations
  import opened Mail
  import opened BlobRows
  import opened Quotas
  import opened Numbering

  /** The ids rows are kept under, or were, were all generated. */
  ghost predicate IdsMinted(db: Db, history: History, minted: set<Id>) {
    && db.messages.Keys <= minted
    && db.packages.Keys <= minted
    && db.executions.Keys <= minted
    && (forall a :: a in db.replicaAccounts ==> db.replicaAccounts[a].registration in minted)
    && history.targeted <= minted
    && history.blobsMade <= minted
    && db.uploads.Keys <= minted
    && (forall t :: t in history.claimed ==> t in minted)
  }

  ghost predicate TablesSound(db: Db) {
    && DidsBound(db)
    && Linked(db)
    && Rostered(db.replicas)
    && Listed(db)
    && Delivered(db)
    && Owned(db.accounts, db.replicas, db.blobs)
    && OnePerHash(db.blobs)
  }

  ghost predicate HistorySound(db: Db, history: History) {
    && KeptForTargets(db.packages, db.deliveries, history.targeted)
    && ConservedIn(db, history)
    && ClaimedOnce(db.uploads, history.claimed)
  }

  /** Every limit, at the moment `t`. */
  ghost predicate WithinLimits(limits: Limits, db: Db, t: Time) {
    && PackagesWithin(limits, db.packages, t)
    && MessagesWithin(limits, db.messages, t)
    && BlobsWithin(limits, db.blobs, t)
    && MembersWithin(limits, db.replicas, db.recipients)
    && ExecutionsWithin(limits, db.executions, db.registrations)
  }

  ghost predicate Sound(limits: Limits, w: World) {
    && IdsMinted(w.db, w.history, w.minted)
    && TablesSound(w.db)
    && HistorySound(w.db, w.history)
    && WithinLimits(limits, w.db, w.clock)
  }

  /** A moment may pass with no call at all. */
  lemma WithinLimitsLater(limits: Limits, db: Db, t: Time, t': Time)
    requires WithinLimits(limits, db, t) && t <= t'
    ensures WithinLimits(limits, db, t')
  {
    hide PackagesWithin, MessagesWithin, BlobsWithin, MembersWithin, ExecutionsWithin;
    PackagesShrink(limits, db.packages, t, db.packages, t');
    MessagesShrink(limits, db.messages, t, db.messages, t');
    BlobsShrink(limits, db.blobs, t, db.blobs, t');
  }

  // ---- ids ----

  lemma FewerExecutionsAfterMembership(limits: Limits, db: Db, op: MembershipOp, now: Time)
    ensures MembershipStep(limits, db, op, now).executions.Keys <= db.executions.Keys
  {
    hide LastAmong, DeliveriesWithout, UploadsWithout, SlotsWithout, Members, BlobsOf, BlobsOfAny, IsAccount, PackagesOf,
      RegisterReplicaAccount, AddReplica, AddSharedRecipient, RemoveSharedRecipient, RemoveReplica;
  }

  /** An account's registration is as it was, or newly generated. */
  lemma RegistrationsAfterMembership(limits: Limits, db: Db, op: MembershipOp, now: Time, a: Did)
    ensures var r := MembershipStep(limits, db, op, now);
      a in r.replicaAccounts ==>
        (a in db.replicaAccounts && r.replicaAccounts[a] == db.replicaAccounts[a]) || r.replicaAccounts[a].registration in NewIds(Membership(op))
  {
    hide DeliveriesWithout, UploadsWithout, SlotsWithout, Members, BlobsOfAny, PackagesOf, ExecutionsOf, RecipientsOf, IsAccount, MayRegister,
      AddReplica, AddSharedRecipient, RemoveSharedRecipient, RemoveReplica;
  }

  lemma MintedAfterMail(limits: Limits, db: Db, op: MailOp, now: Time)
    requires IdsUsable(db, op)
    ensures MailStep(limits, db, op, now).packages.Keys <= db.packages.Keys + NewIds(Mail(op))
    ensures MailStep(limits, db, op, now).messages.Keys <= db.messages.Keys
  {
    hide LastAmong, DeliveriesWithout, NewDeliveries, Accepts, FreshFor, Route, Targets, NextRowid;
  }

  lemma MintedAfterOrdinary(limits: Limits, db: Db, op: OrdinaryOp, now: Time)
    ensures OrdinaryStep(limits, db, op, now).messages.Keys <= db.messages.Keys + NewIds(Ordinary(op))
  {
    hide KeysWithout, UploadsWithout, BlobsOf, StoreOutcomeOf, GrantMediation, AddRecipient, RemoveRecipient;
  }

  lemma MintedAfterExecutions(limits: Limits, db: Db, op: ExecutionOp, now: Time)
    ensures ExecutionStep(limits, db, op, now).executions.Keys <= db.executions.Keys + NewIds(Executions(op))
  {
    hide FindExecution, WithCaller, SlotsWithout;
  }

  lemma MintedAfterBlobs(limits: Limits, db: Db, op: BlobOp, now: Time)
    ensures BlobStep(limits, db, op, now).uploads.Keys <= db.uploads.Keys + NewIds(Blobs(op))
  {
    hide KeptBlobs, MarkedBlobs, BlobNamed, LapsedBlobs;
  }

  lemma MintedAfterMembership(limits: Limits, db: Db, history: History, minted: set<Id>, op: MembershipOp, now: Time)
    requires IdsMinted(db, history, minted)
    ensures IdsMinted(MembershipStep(limits, db, op, now), history, minted + NewIds(Membership(op)))
  {
    hide MembershipStep, NewIds;
    MembershipFrame(limits, db, op, now);
    FewerPackagesAfterMembership(limits, db, op, now);
    FewerExecutionsAfterMembership(limits, db, op, now);
    FewerTokensMembership(limits, db, op, now);
    var r := MembershipStep(limits, db, op, now);
    forall a | a in r.replicaAccounts ensures r.replicaAccounts[a].registration in minted + NewIds(Membership(op)) {
      RegistrationsAfterMembership(limits, db, op, now, a);
    }
  }

  lemma MintedKept(limits: Limits, db: Db, history: History, minted: set<Id>, op: Op, now: Time)
    requires Usable(db, op)
    requires IdsMinted(db, history, minted)
    ensures IdsMinted(Step(limits, db, op, now), Recorded(limits, db, history, op, now), minted + NewIds(op))
  {
    hide OrdinaryStep, MembershipStep, MailStep, ExecutionStep, BlobStep, Accepts, Targets, PurgedBlobs, BlobNamed;
    match op
    case Ordinary(o) => OrdinaryFrame(limits, db, o, now); FewerTokensOrdinary(limits, db, o, now); MintedAfterOrdinary(limits, db, o, now);
    case Membership(m) => MintedAfterMembership(limits, db, history, minted, m, now);
    case Mail(m) => MailFrame(limits, db, m, now); MintedAfterMail(limits, db, m, now);
    case Executions(e) => ExecutionFrame(limits, db, e, now); MintedAfterExecutions(limits, db, e, now);
    case Blobs(b) => BlobFrame(limits, db, b, now); MintedAfterBlobs(limits, db, b, now);
  }

  // ---- every call ----

  lemma TablesKept(limits: Limits, w: World, op: Op, now: Time)
    requires Admissible(w, op, now) && IdsMinted(w.db, w.history, w.minted)
    requires TablesSound(w.db)
    ensures TablesSound(Step(limits, w.db, op, now))
  {
    hide Step, DidsBound, Linked, Rostered, Listed, Delivered, Owned, OnePerHash, NewIds, Usable;
    BoundKept(limits, w.db, op, now);
    LinkedKept(limits, w.db, op, now);
    RosteredKept(limits, w.db, op, now);
    ListedKept(limits, w.db, op, now);
    DeliveredKept(limits, w.db, op, now);
    OwnedKept(limits, w.db, op, now);
    OnePerHashKept(limits, w.db, op, now);
  }

  lemma TargetsKept(limits: Limits, w: World, op: Op, now: Time)
    requires Admissible(w, op, now) && IdsMinted(w.db, w.history, w.minted)
    requires Delivered(w.db)
    requires KeptForTargets(w.db.packages, w.db.deliveries, w.history.targeted)
    ensures var r := Step(limits, w.db, op, now); KeptForTargets(r.packages, r.deliveries, Recorded(limits, w.db, w.history, op, now).targeted)
  {
    hide KeptForTargets, OrdinaryStep, MembershipStep, MailStep, ExecutionStep, BlobStep, Accepts, Targets, Addressed, FreshFor;
    match op
    case Ordinary(o) => OrdinaryFrame(limits, w.db, o, now);
    case Membership(m) => KeptAfterMembership(limits, w.db, m, now, w.history.targeted);
    case Mail(m) =>
      assert m.Fan? ==> m.id in NewIds(op);
      KeptAfterMail(limits, w.db, m, now, w.history.targeted);
    case Executions(e) => ExecutionFrame(limits, w.db, e, now);
    case Blobs(b) => BlobFrame(limits, w.db, b, now);
  }

  lemma HistoryKept(limits: Limits, w: World, op: Op, now: Time)
    requires Admissible(w, op, now) && IdsMinted(w.db, w.history, w.minted)
    requires TablesSound(w.db) && HistorySound(w.db, w.history)
    ensures HistorySound(Step(limits, w.db, op, now), Recorded(limits, w.db, w.history, op, now))
  {
    hide Step, Recorded, DidsBound, Linked, Rostered, Listed, Delivered, Owned, OnePerHash, NewIds, Usable, KeptForTargets, ConservedIn, ClaimedOnce;
    TargetsKept(limits, w, op, now);
    ConservedKept(limits, w.db, w.history, op, now);
    ClaimedOnceKept(limits, w.db, w.history, op, now);
  }

  lemma LimitsKept(limits: Limits, w: World, op: Op, now: Time)
    requires Admissible(w, op, now) && IdsMinted(w.db, w.history, w.minted)
    requires OnePerHash(w.db.blobs) && ConservedIn(w.db, w.history)
    requires WithinLimits(limits, w.db, w.clock)
    ensures WithinLimits(limits, Step(limits, w.db, op, now), now)
  {
    hide Step, OnePerHash, NewIds, Usable, PackagesWithin, MessagesWithin, BlobsWithin, MembersWithin, ExecutionsWithin;
    WithinLimitsLater(limits, w.db, w.clock, now);
    BlobsAreMade(w.db, w.history);
    PackagesAfter(limits, w.db, op, now);
    MessagesAfterCall(limits, w.db, op, now);
    BlobsAfter(limits, w.db, op, now);
    MembersAfter(limits, w.db, op, now);
    ExecutionsAfter(limits, w.db, op, now);
  }

  lemma SoundKept(limits: Limits, w: World, op: Op, now: Time)
    requires Admissible(w, op, now) && Sound(limits, w)
    ensures Sound(limits, Next(limits, w, op, now))
  {
    hide Step, Recorded, TablesSound, WithinLimits, IdsMinted, NewIds, Usable, KeptForTargets, ConservedIn, ClaimedOnce;
    MintedKept(limits, w.db, w.history, w.minted, op, now);
    TablesKept(limits, w, op, now);
    HistoryKept(limits, w, op, now);
    OnePerHashOfTables(w.db);
    LimitsKept(limits, w, op, now);
  }

  lemma OnePerHashOfTables(db: Db)
    requires TablesSound(db)
    ensures OnePerHash(db.blobs)
  {
  }

  lemma EmptyTables()
    ensures TablesSound(EMPTY)
  {
    hide Numbered;
    forall a ensures Numbered(Ordinals(map[], a)) {
      NothingNumbered(Ordinals(map[], a));
    }
    forall e ensures Numbered(Places(map[], e)) {
      NothingNumbered(Places(map[], e));
    }
  }

  lemma EmptyLimits(limits: Limits)
    ensures WithinLimits(limits, EMPTY, 0)
  {
    forall a ensures PackagesWithinFor(limits, RetainedBytes(map[], a, 0)) {
      assert RetainedBytes(map[], a, 0) == map[];
    }
    forall o ensures |UnexpiredMessages(map[], o, 0)| == 0 {
      assert UnexpiredMessages(map[], o, 0) == {};
    }
    forall o ensures LiveBlobBytes(map[], o, 0) == map[] {
    }
    forall a ensures |ActiveMembers(map[], a)| == 0 && |RecipientsOf(map[], a)| == 0 && |ExecutionsOf(map[], a)| == 0 {
      assert ActiveMembers(map[], a) == {} && RecipientsOf(map[], a) == {} && ExecutionsOf(map[], a) == {};
    }
    forall e ensures |Places(map[], e)| == 0 {
      assert Places(map[], e) == map[];
    }
  }

  lemma InitialSound(limits: Limits)
    ensures Sound(limits, INITIAL)
  {
    hide TablesSound, WithinLimits;
    EmptyTables();
    EmptyLimits(limits);
    assert HandedBack([]) == {};
  }

  /** Over every run, in every state it goes through. */
  lemma {:induction false} RunsAreSound(limits: Limits, worlds: seq<World>, calls: seq<Call>, n: nat)
    requires IsRun(limits, worlds, calls) && n < |worlds|
    ensures Sound(limits, worlds[n])
  {
    hide Sound, Admissible, Next;
    if n == 0 {
      InitialSound(limits);
    } else {
      RunsAreSound(limits, worlds, calls, n - 1);
      assert Follows(limits, worlds[n - 1], calls[n - 1], worlds[n]);
      SoundKept(limits, worlds[n - 1], calls[n - 1].op, calls[n - 1].now);
    }
  }
}
