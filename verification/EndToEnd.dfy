/**
 * The replicas' queues and their agents together, over a line that loses,
 * delays and repeats requests, with agents that crash: mail leaves a queue
 * only once the agent's handle took it, or its receiver acknowledged it
 * itself, or with its replica, its account or its retention.
 */
module EndToEnd {
  import opened Dids
  import opened Tables
  import opened StoreSpec
  import opened StoreRuns
  import opened StoreFrames
  import opened Mail
  import opened Soundness
  import P = Pickup

  // ---- the mediator's half ----

  datatype Inbox = ReplicaInbox(did: Did) | OrdinaryInbox(owner: Did)

  /** A request to acknowledge, as it arrived: who proved to have sent it, the DID its connection is bound to, and whether it was sealed to the sender's key. */
  datatype Request = Request(sender: Did, bound: Option<Did>, authcrypted: bool, ids: set<Id>)

  /** How far the mediator is with a request: its inbox is looked for by one query after another, and only then is the store called. */
  datatype Handling = Arrived | NotAccount | NotReplica | TurnedAway | Found(inbox: Inbox)

  /** One query more, of the database as it is by then. */
  function Look(db: Db, request: Request, h: Handling): (r: Handling) {
    var did := Canonical(request.sender);
    match h
    case Arrived =>
      if (request.bound.Some? && Canonical(request.bound.value) != did) || did in db.replicaAccounts then TurnedAway else NotAccount
    case NotAccount =>
      if did !in db.replicas then NotReplica
      else if request.authcrypted && db.replicas[did].removedAt.None? then Found(ReplicaInbox(did))
      else TurnedAway
    case NotReplica => if request.sender in db.accounts then Found(OrdinaryInbox(request.sender)) else TurnedAway
    case _ => h
  }

  /** The store call an inbox acknowledges by. */
  function AcknowledgingOp(inbox: Inbox, ids: set<Id>): (r: Op) {
    match inbox
    case ReplicaInbox(did) => Op.Mail(Acknowledge(did, ids))
    case OrdinaryInbox(owner) => Ordinary(Delete(owner, ids))
  }

  /** The connection is bound to nobody, or to the sender. */
  predicate OwnConnection(request: Request) {
    request.bound.Some? ==> Canonical(request.bound.value) == Canonical(request.sender)
  }

  /** However the database changes between the queries, an inbox is found on the sender's own connection alone and is the sender's own, a replica's only by what was sealed to its key. */
  predicate OwnInbox(request: Request, h: Handling) {
    && (h.NotAccount? || h.NotReplica? || h.Found? ==> OwnConnection(request))
    && (h.Found? ==> (h.inbox == ReplicaInbox(Canonical(request.sender)) && request.authcrypted) || h.inbox == OrdinaryInbox(request.sender))
  }

  /** Asked of one database, the queries find a replica's queue for an active replica, an ordinary account's for an account, and none for anybody else. */
  lemma InboxOfOneState(db: Db, request: Request)
    ensures var did := Canonical(request.sender); var h := Look(db, request, Look(db, request, Look(db, request, Arrived)));
      && (h == Found(ReplicaInbox(did)) <==>
            OwnConnection(request) && did !in db.replicaAccounts && did in db.replicas && db.replicas[did].removedAt.None? && request.authcrypted)
      && (h == Found(OrdinaryInbox(request.sender)) <==>
            OwnConnection(request) && did !in db.replicaAccounts && did !in db.replicas && request.sender in db.accounts)
      && (h.Found? || h == TurnedAway)
  {
  }

  // ---- the whole ----

  /** An id an agent may have the mediator drop: its handle answered `acked` for it, or the receiver acknowledged it itself. */
  datatype Release = Release(agent: Did, id: Id)

  /** A request the mediator works on. */
  datatype Piece = Piece(request: Request, handling: Handling)

  /**
   * `sent` are all acknowledgements ever sent, any of which may yet arrive,
   * once, often or never; `pieces` is how far any of those that arrived ever
   * got, each of which may go on from there or not.
   */
  datatype System = System(world: World, sent: set<Request>, pieces: set<Piece>, released: set<Release>)

  datatype Event =
    /** any store call but the two pickup makes */
    | StoreCall(op: Op, now: Time)
    /** an agent took a delivery, fetched or pushed, and then told the mediator, or crashed before it did */
    | TookDelivery(agent: Did, attachments: seq<P.Attachment>, handle: P.Handle, told: bool, bound: Option<Did>)
    /** the receiver acknowledged deliveries itself */
    | AcknowledgedItself(agent: Did, ids: set<Id>, bound: Option<Did>)
    /** an acknowledgement reached the mediator */
    | Arrives(request: Request)
    /** the mediator looks further for its inbox */
    | Looks(piece: Piece)
    /** the inbox is found, and the store is called */
    | Acknowledges(piece: Piece, now: Time)

  function IdsOf(ids: seq<Id>): (r: set<Id>) {
    set i | i in ids
  }

  function Releases(agent: Did, ids: set<Id>): (r: set<Release>) {
    set i | i in ids :: Release(agent, i)
  }

  predicate ByPickup(op: Op) {
    (op.Mail? && op.mail.Acknowledge?) || (op.Ordinary? && op.ordinary.Delete?)
  }

  ghost predicate Enabled(s: System, e: Event) {
    match e
    case StoreCall(op, now) => Admissible(s.world, op, now) && !ByPickup(op)
    case TookDelivery(_, _, _, _, _) => true
    case AcknowledgedItself(_, _, _) => true
    case Arrives(request) => request in s.sent
    case Looks(piece) => piece in s.pieces
    case Acknowledges(piece, now) => piece in s.pieces && piece.handling.Found? && s.world.clock <= now
  }

  lemma AcknowledgingIsAdmissible(w: World, inbox: Inbox, ids: set<Id>, now: Time)
    requires w.clock <= now
    ensures Admissible(w, AcknowledgingOp(inbox, ids), now)
  {
  }

  ghost function After(limits: Limits, s: System, e: Event): (r: System)
    requires Enabled(s, e)
  {
    match e
    case StoreCall(op, now) => s.(world := Next(limits, s.world, op, now))
    case TookDelivery(agent, attachments, handle, told, bound) =>
      var taken := IdsOf(P.Taken(attachments, handle, |attachments|));
      s.(released := s.released + Releases(agent, taken),
         sent := if told && taken != {} then s.sent + {Request(agent, bound, true, taken)} else s.sent)
    case AcknowledgedItself(agent, ids, bound) =>
      s.(released := s.released + Releases(agent, ids), sent := s.sent + {Request(agent, bound, true, ids)})
    case Arrives(request) => s.(pieces := s.pieces + {Piece(request, Arrived)})
    case Looks(piece) => s.(pieces := s.pieces + {piece.(handling := Look(s.world.db, piece.request, piece.handling))})
    case Acknowledges(piece, now) =>
      AcknowledgingIsAdmissible(s.world, piece.handling.inbox, piece.request.ids, now);
      s.(world := Next(limits, s.world, AcknowledgingOp(piece.handling.inbox, piece.request.ids), now))
  }

  // ---- how mail leaves ----

  /** The replica is gone, its account is, or the package's time is. */
  predicate LeftOtherwise(db: Db, op: Op, now: Time, d: Id)
    requires d in db.deliveries
  {
    var row := db.deliveries[d];
    match op
    case Membership(RemoveMember(_, _, replica)) => replica == row.replica
    case Membership(DeleteAccount(account, _)) =>
      || (row.replica in db.replicas && db.replicas[row.replica].account == account)
      || (row.package in db.packages && db.packages[row.package].account == account)
    case Mail(PurgeMail) => row.package in db.packages && db.packages[row.package].expiresAt <= now
    case _ => false
  }

  lemma LeavesByMail(limits: Limits, db: Db, op: MailOp, now: Time, d: Id)
    requires IdsUsable(db, op)
    requires d in db.deliveries && d !in MailStep(limits, db, op, now).deliveries
    ensures (op.Acknowledge? && op.replica == db.deliveries[d].replica && d in op.ids) || LeftOtherwise(db, Op.Mail(op), now, d)
  {
    hide Accepts, NextRowid, LastAmong, MessagesAfter, ExpiryOf, Targets;
  }

  lemma LeavesByMembership(limits: Limits, db: Db, op: MembershipOp, now: Time, d: Id)
    requires d in db.deliveries && d !in MembershipStep(limits, db, op, now).deliveries
    ensures LeftOtherwise(db, Membership(op), now, d)
  {
    hide RegisterReplicaAccount, AddReplica, AddSharedRecipient, RemoveSharedRecipient, LastAmong, UploadsWithout, SlotsWithout, BlobsOf, BlobsOfAny, ExecutionsOf, RecipientsOf;
  }

  lemma LeavesByStep(limits: Limits, db: Db, op: Op, now: Time, d: Id)
    requires Usable(db, op)
    requires d in db.deliveries && d !in Step(limits, db, op, now).deliveries
    ensures (op.Mail? && op.mail.Acknowledge? && op.mail.replica == db.deliveries[d].replica && d in op.mail.ids) || LeftOtherwise(db, op, now, d)
  {
    hide OrdinaryStep, MembershipStep, MailStep, ExecutionStep, BlobStep;
    match op
    case Membership(m) => LeavesByMembership(limits, db, m, now, d);
    case Mail(m) => LeavesByMail(limits, db, m, now, d);
    case Ordinary(o) => OrdinaryFrame(limits, db, o, now);
    case Executions(e) => ExecutionFrame(limits, db, e, now);
    case Blobs(b) => BlobFrame(limits, db, b, now);
  }

  /** An ordinary message goes by its owner's deletion of it, with its account, or past its expiry. */
  predicate MessageLeftOtherwise(db: Db, op: Op, now: Time, m: Id)
    requires m in db.messages
  {
    match op
    case Ordinary(Revoke(did)) => did == db.messages[m].owner
    case Mail(PurgeMail) => db.messages[m].expiresAt <= now
    case _ => false
  }

  lemma MessageLeavesByOrdinary(limits: Limits, db: Db, op: OrdinaryOp, now: Time, m: Id)
    requires m in db.messages && m !in OrdinaryStep(limits, db, op, now).messages
    ensures (op.Delete? && op.owner == db.messages[m].owner && m in op.ids) || MessageLeftOtherwise(db, Ordinary(op), now, m)
  {
    hide GrantMediation, AddRecipient, RemoveRecipient, KeysWithout, UploadsWithout, BlobsOf, StoreOutcomeOf;
  }

  lemma MessageLeavesByMail(limits: Limits, db: Db, op: MailOp, now: Time, m: Id)
    requires IdsUsable(db, op)
    requires m in db.messages && m !in MailStep(limits, db, op, now).messages
    ensures MessageLeftOtherwise(db, Op.Mail(op), now, m)
  {
    hide FanOut, AcknowledgeDeliveries, DeliveriesWithout, FreshFor, LapsedPackages;
  }

  lemma MessageLeavesByStep(limits: Limits, db: Db, op: Op, now: Time, m: Id)
    requires Usable(db, op)
    requires m in db.messages && m !in Step(limits, db, op, now).messages
    ensures (op.Ordinary? && op.ordinary.Delete? && op.ordinary.owner == db.messages[m].owner && m in op.ordinary.ids) || MessageLeftOtherwise(db, op, now, m)
  {
    hide OrdinaryStep, MembershipStep, MailStep, ExecutionStep, BlobStep;
    match op
    case Ordinary(o) => MessageLeavesByOrdinary(limits, db, o, now, m);
    case Mail(x) => MessageLeavesByMail(limits, db, x, now, m);
    case Membership(x) => MembershipFrame(limits, db, x, now);
    case Executions(e) => ExecutionFrame(limits, db, e, now);
    case Blobs(b) => BlobFrame(limits, db, b, now);
  }

  // ---- over every run ----

  /** Whatever was sent was released first; what the mediator works on was sent, and is for the sender's own inbox. */
  ghost predicate SentReleased(s: System) {
    && (forall r, i :: r in s.sent && i in r.ids ==> Release(r.sender, i) in s.released)
    && (forall p :: p in s.pieces ==> p.request in s.sent && OwnInbox(p.request, p.handling))
  }

  lemma SentReleasedKept(limits: Limits, s: System, e: Event)
    requires SentReleased(s) && Enabled(s, e)
    ensures SentReleased(After(limits, s, e))
  {
    hide Next, Admissible, AcknowledgingOp;
  }

  /** An agent of the DID released the id. */
  ghost predicate ReleasedBy(s: System, did: Did, id: Id) {
    exists agent :: Release(agent, id) in s.released && Canonical(agent) == did
  }

  ghost predicate IsSystemRun(limits: Limits, states: seq<System>, events: seq<Event>) {
    && |states| == |events| + 1
    && states[0] == System(INITIAL, {}, {}, {})
    && forall i :: 0 <= i < |events| ==> Enabled(states[i], events[i]) && states[i + 1] == After(limits, states[i], events[i])
  }

  lemma {:induction false} RunsReleaseFirst(limits: Limits, states: seq<System>, events: seq<Event>, n: nat)
    requires IsSystemRun(limits, states, events) && n < |states|
    ensures SentReleased(states[n])
  {
    if n > 0 {
      hide SentReleased, Enabled, After;
      RunsReleaseFirst(limits, states, events, n - 1);
      SentReleasedKept(limits, states[n - 1], events[n - 1]);
    } else {
      assert states[0].sent == {} && states[0].pieces == {};
    }
  }

  /** What the event called of the store, and when. */
  ghost function CallOf(s: System, e: Event): (r: Option<Call>) {
    match e
    case StoreCall(op, now) => Some(Call(op, now))
    case Acknowledges(piece, now) => if piece.handling.Found? then Some(Call(AcknowledgingOp(piece.handling.inbox, piece.request.ids), now)) else None
    case _ => None
  }

  lemma CallSteps(limits: Limits, s: System, e: Event)
    requires Enabled(s, e)
    ensures var call := CallOf(s, e); var r := After(limits, s, e);
      && (call.None? ==> r.world == s.world)
      && (call.Some? ==> Admissible(s.world, call.value.op, call.value.now) && r.world == Next(limits, s.world, call.value.op, call.value.now))
  {
    hide Next, Step, AcknowledgingOp;
    if e.Acknowledges? {
      AcknowledgingIsAdmissible(s.world, e.piece.handling.inbox, e.piece.request.ids, e.now);
    }
  }

  /**
   * In every run: a delivery leaves a replica's queue only after the
   * replica's agent took it or its receiver acknowledged it, or by the
   * replica's removal, its account's deletion or its package's expiry.
   */
  lemma NoDeliveryLost(limits: Limits, states: seq<System>, events: seq<Event>, n: nat, d: Id)
    requires IsSystemRun(limits, states, events) && n < |events|
    requires d in states[n].world.db.deliveries && d !in states[n + 1].world.db.deliveries
    ensures var db := states[n].world.db;
      || ReleasedBy(states[n], db.deliveries[d].replica, d)
      || (events[n].StoreCall? && LeftOtherwise(db, events[n].op, events[n].now, d))
  {
    var s, e := states[n], events[n];
    RunsReleaseFirst(limits, states, events, n);
    hide Next, Step, Recorded, LeftOtherwise, Usable;
    CallSteps(limits, s, e);
    var call := CallOf(s, e).value;
    NextSteps(limits, s.world, call.op, call.now);
    LeavesByStep(limits, s.world.db, call.op, call.now, d);
    if e.Acknowledges? {
      var request := e.piece.request;
      assert d in request.ids && Release(request.sender, d) in s.released by { AcknowledgesNamed(s, e, d); }
    }
  }

  lemma NextSteps(limits: Limits, w: World, op: Op, now: Time)
    requires Admissible(w, op, now)
    ensures Usable(w.db, op) && Next(limits, w, op, now).db == Step(limits, w.db, op, now)
  {
    hide Step, Recorded, Usable;
  }

  lemma AcknowledgesNamed(s: System, e: Event, d: Id)
    requires e.Acknowledges? && Enabled(s, e) && SentReleased(s) && d in s.world.db.deliveries
    requires var op := AcknowledgingOp(e.piece.handling.inbox, e.piece.request.ids);
      (op.Mail? && op.mail.Acknowledge? && op.mail.replica == s.world.db.deliveries[d].replica && d in op.mail.ids) || LeftOtherwise(s.world.db, op, e.now, d)
    ensures var request := e.piece.request;
      d in request.ids && Canonical(request.sender) == s.world.db.deliveries[d].replica && Release(request.sender, d) in s.released
  {
  }

  /** The same of an ordinary account's messages: taken or acknowledged as the owner wrote its DID, or revoked or expired. */
  lemma NoMessageLost(limits: Limits, states: seq<System>, events: seq<Event>, n: nat, m: Id)
    requires IsSystemRun(limits, states, events) && n < |events|
    requires m in states[n].world.db.messages && m !in states[n + 1].world.db.messages
    ensures var db := states[n].world.db;
      || Release(db.messages[m].owner, m) in states[n].released
      || (events[n].StoreCall? && MessageLeftOtherwise(db, events[n].op, events[n].now, m))
  {
    var s, e := states[n], events[n];
    RunsReleaseFirst(limits, states, events, n);
    hide Next, Step, Recorded, MessageLeftOtherwise, Usable;
    CallSteps(limits, s, e);
    var call := CallOf(s, e).value;
    NextSteps(limits, s.world, call.op, call.now);
    MessageLeavesByStep(limits, s.world.db, call.op, call.now, m);
    if e.Acknowledges? {
      MessageNamed(s, e, m);
    }
  }

  lemma MessageNamed(s: System, e: Event, m: Id)
    requires e.Acknowledges? && Enabled(s, e) && SentReleased(s) && m in s.world.db.messages
    requires var op := AcknowledgingOp(e.piece.handling.inbox, e.piece.request.ids);
      (op.Ordinary? && op.ordinary.Delete? && op.ordinary.owner == s.world.db.messages[m].owner && m in op.ordinary.ids) || MessageLeftOtherwise(s.world.db, op, e.now, m)
    ensures Release(s.world.db.messages[m].owner, m) in s.released
  {
  }
}
