/** Every run of the store: its methods in any order, each one transaction, over a clock that never goes back. */
module StoreRuns {
  import opened Dids
  import opened Tables
  import opened StoreSpec

  /** A call that may change the tables, with the ids it generated, by the part of the store it works on. */
  datatype Op =
    | Ordinary(ordinary: OrdinaryOp)
    | Membership(membership: MembershipOp)
    | Mail(mail: MailOp)
    | Executions(execution: ExecutionOp)
    | Blobs(blob: BlobOp)

  datatype OrdinaryOp =
    | Grant(did: Did)
    | Revoke(did: Did)
    | AddKey(owner: Did, recipient: Did)
    | RemoveKey(owner: Did, recipient: Did)
    | Store(owner: Did, packed: Text, id: Id)
    | Delete(owner: Did, ids: set<Id>)

  datatype MembershipOp =
    | Register(did: Did, longForm: Did, mediator: Did, create: bool, id: Id)
    | DeleteAccount(account: Did, mediator: Did)
    | Enroll(account: Did, mediator: Did, replica: Did, longForm: Did, grant: Text)
    | RemoveMember(account: Did, mediator: Did, replica: Did)
    | Share(account: Did, mediator: Did, recipient: Did, longForm: Did)
    | Unshare(account: Did, mediator: Did, recipient: Did)

  datatype MailOp =
    | Fan(parcel: Parcel, id: Id, deliveryIds: map<Did, Id>)
    | Acknowledge(replica: Did, ids: set<Id>)
    | PurgeMail

  datatype ExecutionOp =
    | Execute(replica: Did, mediator: Did, executionId: Text, id: Id)
    | PurgeRegistrations

  datatype BlobOp =
    | KeepOne(keep: Keep)
    | DropOne(owner: Did, hash: Text)
    | Token(blob: Id, expiresAt: Time, id: Id)
    | Claim(token: Id)
    | Mark(blob: Id)
    | PurgeBlobRows

  /** The ids a call generated. */
  function NewIds(op: Op): set<Id> {
    match op
    case Ordinary(Store(_, _, id)) => {id}
    case Membership(Register(_, _, _, _, id)) => {id}
    case Mail(Fan(_, id, ids)) => {id} + ids.Values
    case Executions(Execute(_, _, _, id)) => {id}
    case Blobs(KeepOne(keep)) => {keep.id}
    case Blobs(Token(_, _, id)) => {id}
    case _ => {}
  }

  /** What the protocol layer checked of the long forms it hands on. */
  predicate LongFormsChecked(op: MembershipOp) {
    match op
    case Register(did, longForm, _, _, _) => Spells(longForm, did)
    case Enroll(_, _, replica, longForm, _) => Spells(longForm, replica)
    case Share(_, _, recipient, longForm) => Spells(longForm, recipient)
    case _ => true
  }

  /** The ids generated for a fan-out are new and pairwise different. */
  ghost predicate IdsUsable(db: Db, op: MailOp) {
    op.Fan? ==> FreshFor(db, op.parcel.next, op.deliveryIds) && op.id !in op.deliveryIds.Values && op.id !in db.packages
  }

  function OrdinaryStep(limits: Limits, db: Db, op: OrdinaryOp, now: Time): (r: Db) {
    match op
    case Grant(did) => GrantMediation(db, did, now)
    case Revoke(did) => RevokeMediation(db, did)
    case AddKey(owner, recipient) => AddRecipient(db, owner, recipient, now)
    case RemoveKey(owner, recipient) => RemoveRecipient(db, owner, recipient)
    case Store(owner, packed, id) => StoreMessage(limits, db, owner, packed, id, now)
    case Delete(owner, ids) => DeleteMessages(db, owner, ids)
  }

  function MembershipStep(limits: Limits, db: Db, op: MembershipOp, now: Time): (r: Db) {
    match op
    case Register(did, longForm, mediator, create, id) => RegisterReplicaAccount(db, did, longForm, mediator, create, id, now)
    case DeleteAccount(account, mediator) => DeleteReplicaAccount(db, account, mediator)
    case Enroll(account, mediator, replica, longForm, grant) => AddReplica(limits, db, account, mediator, replica, longForm, grant, now)
    case RemoveMember(account, mediator, replica) => RemoveReplica(db, account, mediator, replica, now)
    case Share(account, mediator, recipient, longForm) => AddSharedRecipient(limits, db, account, mediator, recipient, longForm, now)
    case Unshare(account, mediator, recipient) => RemoveSharedRecipient(db, account, mediator, recipient)
  }

  ghost function MailStep(limits: Limits, db: Db, op: MailOp, now: Time): (r: Db)
    requires IdsUsable(db, op)
  {
    match op
    case Fan(parcel, id, ids) => FanOut(limits, db, parcel, id, ids, now)
    case Acknowledge(replica, ids) => AcknowledgeDeliveries(db, replica, ids)
    case PurgeMail => PurgeExpired(db, now)
  }

  ghost function ExecutionStep(limits: Limits, db: Db, op: ExecutionOp, now: Time): (r: Db) {
    match op
    case Execute(replica, mediator, executionId, id) => RegisterExecution(limits, db, replica, mediator, executionId, id, now)
    case PurgeRegistrations => PurgeExecutions(db, now)
  }

  ghost function BlobStep(limits: Limits, db: Db, op: BlobOp, now: Time): (r: Db) {
    match op
    case KeepOne(keep) => KeepBlob(limits, db, keep, now)
    case DropOne(owner, hash) => DropBlob(db, owner, hash)
    case Token(blob, expiresAt, id) => GrantUpload(db, blob, expiresAt, id)
    case Claim(token) => ClaimUpload(db, token)
    case Mark(blob) => MarkUploaded(db, blob, now)
    case PurgeBlobRows => PurgeBlobs(db, now)
  }

  ghost predicate Usable(db: Db, op: Op) {
    && (op.Mail? ==> IdsUsable(db, op.mail))
    && (op.Membership? ==> LongFormsChecked(op.membership))
  }

  ghost function Step(limits: Limits, db: Db, op: Op, now: Time): (r: Db)
    requires Usable(db, op)
  {
    match op
    case Ordinary(o) => OrdinaryStep(limits, db, o, now)
    case Membership(m) => MembershipStep(limits, db, m, now)
    case Mail(m) => MailStep(limits, db, m, now)
    case Executions(e) => ExecutionStep(limits, db, e, now)
    case Blobs(b) => BlobStep(limits, db, b, now)
  }

  /** What happened so far that no table keeps. */
  datatype History = History(
    /** the packages accepted with at least one target */
    targeted: set<Id>,
    /** every blob id a row was ever made under */
    blobsMade: set<Id>,
    /** the blob ids handed to the caller for their bytes to be deleted, a batch at a time */
    handedBack: seq<set<Id>>,
    /** the upload tokens a claim was answered for */
    claimed: seq<Id>)

  /** `minted` are the generated ids so far. */
  datatype World = World(db: Db, clock: Time, minted: set<Id>, history: History)

  const INITIAL := World(EMPTY, 0, {}, History({}, {}, [], []))

  ghost function Recorded(limits: Limits, db: Db, history: History, op: Op, now: Time): (h: History)
    requires Usable(db, op)
  {
    match op
    case Mail(Fan(parcel, id, ids)) =>
      if Accepts(limits, db, parcel, now) && Targets(db, parcel.next) != {}
      then history.(targeted := history.targeted + {id}) else history
    case Blobs(KeepOne(keep)) =>
      if keep.id in Step(limits, db, op, now).blobs then history.(blobsMade := history.blobsMade + {keep.id}) else history
    case Blobs(DropOne(owner, hash)) =>
      history.(handedBack := history.handedBack + [BlobNamed(db.blobs, owner, hash)])
    case Blobs(PurgeBlobRows) => history.(handedBack := history.handedBack + [PurgedBlobs(db, now)])
    case Blobs(Claim(token)) =>
      if ClaimOf(db, token, now).Some? then history.(claimed := history.claimed + [token]) else history
    case _ => history
  }

  ghost predicate Admissible(w: World, op: Op, now: Time) {
    && w.clock <= now
    && NewIds(op) !! w.minted
    && Usable(w.db, op)
  }

  ghost function Next(limits: Limits, w: World, op: Op, now: Time): (w': World)
    requires Admissible(w, op, now)
  {
    World(Step(limits, w.db, op, now), now, w.minted + NewIds(op), Recorded(limits, w.db, w.history, op, now))
  }

  datatype Call = Call(op: Op, now: Time)

  /** `worlds` are the states before, between and after the calls, from the empty database on. */
  ghost predicate IsRun(limits: Limits, worlds: seq<World>, calls: seq<Call>) {
    && |worlds| == |calls| + 1
    && worlds[0] == INITIAL
    && forall i :: 0 <= i < |calls| ==> Follows(limits, worlds[i], calls[i], worlds[i + 1])
  }

  ghost predicate Follows(limits: Limits, w: World, call: Call, w': World) {
    Admissible(w, call.op, call.now) && w' == Next(limits, w, call.op, call.now)
  }
}
