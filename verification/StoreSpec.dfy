/**
 * What each store method does, as a function of the tables it finds: the
 * specification the statements of class SqlStore are proved against, and the
 * one every run of the store is made of.
 */
module StoreSpec {
  import opened Dids
  import opened Tables
  import opened Sums
  import opened Numbering

  // ---- who is bound where ----

  predicate NotOrdinary(db: Db, did: Did, longForm: Did) {
    && did !in db.accounts && longForm !in db.accounts
    && did !in db.keylist && longForm !in db.keylist
  }

  /** Neither the DID as written nor its short form is bound under replica mediation. */
  predicate NotReplicaMediation(db: Db, did: Did) {
    var short := Canonical(did);
    && did !in db.replicaAccounts && short !in db.replicaAccounts
    && did !in db.replicas && short !in db.replicas
    && did !in db.recipients && short !in db.recipients
  }

  // ---- ordinary mediation ----

  /** The DID holds an account afterwards iff it held one or replica mediation has not bound it. */
  function GrantMediation(db: Db, did: Did, now: Time): (r: Db)
    ensures r == db.(accounts := r.accounts)
  {
    db.(accounts := if did !in db.accounts && NotReplicaMediation(db, did) then db.accounts[did := now] else db.accounts)
  }

  /** The upload tokens left once the blobs are gone. */
  function UploadsWithout(uploads: map<Id, Upload>, gone: set<Id>): (r: map<Id, Upload>) {
    map t | t in uploads && uploads[t].blob !in gone :: uploads[t]
  }

  function KeysWithout(keylist: map<Did, KeyEntry>, owner: Did): (r: map<Did, KeyEntry>) {
    map k | k in keylist && keylist[k].owner != owner :: keylist[k]
  }

  function MessagesWithout(messages: map<Id, Message>, owner: Did): (r: map<Id, Message>) {
    map m | m in messages && messages[m].owner != owner :: messages[m]
  }

  /** All of an ordinary account goes; the ids of its blobs become ended ones. */
  function RevokeMediation(db: Db, did: Did): (r: Db)
    ensures r == db.(accounts := r.accounts, keylist := r.keylist, messages := r.messages, blobs := r.blobs, ended := r.ended, uploads := r.uploads)
  {
    if did !in db.accounts then db
    else
      var held := BlobsOf(db.blobs, did);
      db.(accounts := db.accounts - {did},
          keylist := KeysWithout(db.keylist, did),
          messages := MessagesWithout(db.messages, did),
          blobs := db.blobs - held,
          ended := db.ended + held,
          uploads := UploadsWithout(db.uploads, held))
  }

  datatype AddRecipientResult = RecipientAdded | AlreadyYours | Taken | NoSuchOwner

  function AddRecipient(db: Db, owner: Did, recipient: Did, now: Time): (r: Db)
    ensures r == db.(keylist := r.keylist)
  {
    db.(keylist :=
      if recipient !in db.keylist && NotReplicaMediation(db, recipient) && owner in db.accounts
      then db.keylist[recipient := KeyEntry(owner, now)] else db.keylist)
  }

  /** `NoSuchOwner`: the row would name no account, which its foreign key refuses. */
  function AddRecipientResultOf(db: Db, owner: Did, recipient: Did): (r: AddRecipientResult) {
    if recipient in db.keylist then (if db.keylist[recipient].owner == owner then AlreadyYours else Taken)
    else if !NotReplicaMediation(db, recipient) then Taken
    else if owner !in db.accounts then NoSuchOwner
    else RecipientAdded
  }

  function RemoveRecipient(db: Db, owner: Did, recipient: Did): (r: Db)
    ensures r == db.(keylist := r.keylist)
  {
    db.(keylist := if recipient in db.keylist && db.keylist[recipient].owner == owner then db.keylist - {recipient} else db.keylist)
  }

  datatype StoreOutcome = Stored | Full | NoAccount

  /** `NoAccount`: the row would name no account, which its foreign key refuses. */
  function StoreOutcomeOf(limits: Limits, db: Db, owner: Did, now: Time): (r: StoreOutcome) {
    if |UnexpiredMessages(db.messages, owner, now)| >= limits.maxMessages then Full
    else if owner !in db.accounts then NoAccount
    else Stored
  }

  function StoreMessage(limits: Limits, db: Db, owner: Did, packed: Text, id: Id, now: Time): (r: Db)
    ensures r == db.(messages := r.messages)
  {
    db.(messages :=
      if StoreOutcomeOf(limits, db, owner, now).Stored?
      then db.messages[id := Message(owner, packed, now, now + limits.ttl)] else db.messages)
  }

  /** The messages a deletion names that are the owner's. */
  function Named(messages: map<Id, Message>, owner: Did, ids: set<Id>): set<Id> {
    set m | m in messages && m in ids && messages[m].owner == owner
  }

  /** The ids a deletion reports, in the order asked: each where it first deleted a row. */
  function Reported(messages: map<Id, Message>, owner: Did, ids: seq<Id>): (r: seq<Id>) {
    if ids == [] then []
    else
      var before, id := ids[..|ids| - 1], ids[|ids| - 1];
      Reported(messages, owner, before) + if id in messages && messages[id].owner == owner && id !in before then [id] else []
  }

  function Asked(ids: seq<Id>): (r: set<Id>) {
    set i | i in ids
  }

  /** What a deletion reports is what it deleted, each id once. */
  lemma {:induction false} ReportedIsNamed(messages: map<Id, Message>, owner: Did, ids: seq<Id>)
    ensures forall i :: i in Reported(messages, owner, ids) <==> i in Named(messages, owner, Asked(ids))
    ensures forall i, j :: 0 <= i < j < |Reported(messages, owner, ids)| ==> Reported(messages, owner, ids)[i] != Reported(messages, owner, ids)[j]
  {
    if ids != [] {
      var before, id := ids[..|ids| - 1], ids[|ids| - 1];
      ReportedIsNamed(messages, owner, before);
      assert ids == before + [id];
      assert Asked(ids) == Asked(before) + {id};
      var less, more := Reported(messages, owner, before), Reported(messages, owner, ids);
      forall i, j | 0 <= i < j < |more| ensures more[i] != more[j] {
        assert more[i] in less;
      }
    }
  }

  function DeleteMessages(db: Db, owner: Did, ids: set<Id>): (r: Db)
    ensures r == db.(messages := r.messages)
  {
    db.(messages := db.messages - Named(db.messages, owner, ids))
  }

  // ---- replica-mediation accounts, replicas and recipients ----

  datatype RegisterOutcome = Registered(time: nat) | Refused | AccountConflict

  predicate MayRegister(db: Db, did: Did, longForm: Did) {
    && NotOrdinary(db, did, longForm)
    && did !in db.replicas && longForm !in db.replicas
    && did !in db.recipients && longForm !in db.recipients
    && did !in db.replicaAccounts
  }

  function RegisterReplicaAccount(db: Db, did: Did, longForm: Did, mediator: Did, create: bool, registration: Id, now: Time): (r: Db)
    ensures r == db.(replicaAccounts := r.replicaAccounts)
  {
    db.(replicaAccounts :=
      if create && MayRegister(db, did, longForm)
      then db.replicaAccounts[did := Account(mediator, longForm, now, registration)] else db.replicaAccounts)
  }

  /** Read back from the tables the call left. */
  function RegisterOutcomeOf(after: Db, did: Did, mediator: Did, create: bool): (r: RegisterOutcome) {
    if did !in after.replicaAccounts then (if create then AccountConflict else Refused)
    else if after.replicaAccounts[did].mediator == mediator then Registered(after.replicaAccounts[did].createdAt / 1000)
    else AccountConflict
  }

  predicate IsAccount(db: Db, account: Did, mediator: Did) {
    account in db.replicaAccounts && db.replicaAccounts[account].mediator == mediator
  }

  datatype AddOutcome = Added(time: nat) | UnknownAccount | Conflict | AtLimit

  predicate MayEnroll(limits: Limits, db: Db, account: Did, mediator: Did, replica: Did, longForm: Did) {
    && IsAccount(db, account, mediator)
    && NotOrdinary(db, replica, longForm)
    && replica !in db.replicaAccounts
    && replica !in db.recipients
    && |ActiveMembers(db.replicas, account)| < limits.maxReplicas
    && replica !in db.replicas
  }

  function AddReplica(limits: Limits, db: Db, account: Did, mediator: Did, replica: Did, longForm: Did, grant: Text, now: Time): (r: Db)
    ensures r == db.(replicas := r.replicas)
  {
    db.(replicas :=
      if MayEnroll(limits, db, account, mediator, replica, longForm)
      then db.replicas[replica := Replica(account, |Ordinals(db.replicas, account)| + 1, longForm, grant, now / 1000, None)]
      else db.replicas)
  }

  /** Read back from the tables the call left. */
  function AddReplicaOutcome(limits: Limits, after: Db, account: Did, mediator: Did, replica: Did): (r: AddOutcome) {
    if account !in after.replicaAccounts then UnknownAccount
    else if !IsAccount(after, account, mediator) then Conflict
    else if replica in after.replicas then
      if after.replicas[replica].account == account && after.replicas[replica].removedAt.None?
      then Added(after.replicas[replica].registeredAt) else Conflict
    else if |ActiveMembers(after.replicas, account)| >= limits.maxReplicas then AtLimit
    else Conflict
  }

  /** The packages whose last delivery is among `which`: they have one, and none outside it. */
  function LastAmong(deliveries: map<Id, Delivery>, which: set<Id>): (r: set<Id>) {
    set d | d in deliveries && d in which && DeliveriesOf(deliveries, deliveries[d].package) <= which :: deliveries[d].package
  }

  /**
   * Drops the deliveries and exactly the packages whose last delivery was among them;
   * a package with no delivery at all stays.
   */
  function EndDeliveries(db: Db, which: set<Id>): (r: Db)
    ensures r == db.(packages := r.packages, deliveries := r.deliveries)
  {
    db.(packages := db.packages - LastAmong(db.deliveries, which), deliveries := db.deliveries - which)
  }

  datatype RemoveOutcome = Removed(time: nat) | NoAccountBound | NotEnrolled

  predicate IsMember(db: Db, account: Did, mediator: Did, replica: Did) {
    IsAccount(db, account, mediator) && replica in db.replicas && db.replicas[replica].account == account
  }

  function DeliveriesTo(deliveries: map<Id, Delivery>, replica: Did): (r: set<Id>) {
    set d | d in deliveries && deliveries[d].replica == replica
  }

  function RowRemoved(row: Replica, now: Time): (r: Replica) {
    if row.removedAt.None? then row.(removedAt := Some(now / 1000)) else row
  }

  /** What waited for it alone goes, its blobs end, and its row is marked. */
  function RemoveReplica(db: Db, account: Did, mediator: Did, replica: Did, now: Time): (r: Db)
    ensures r == db.(packages := r.packages, deliveries := r.deliveries, blobs := r.blobs, ended := r.ended, uploads := r.uploads, replicas := r.replicas)
  {
    if !IsMember(db, account, mediator, replica) then db
    else
      var mail := DeliveriesTo(db.deliveries, replica);
      var held := BlobsOf(db.blobs, replica);
      db.(packages := db.packages - LastAmong(db.deliveries, mail),
          deliveries := db.deliveries - mail,
          blobs := db.blobs - held,
          ended := db.ended + held,
          uploads := UploadsWithout(db.uploads, held),
          replicas := db.replicas[replica := RowRemoved(db.replicas[replica], now)])
  }

  /** Read back from the tables the call left. */
  function RemoveOutcomeOf(after: Db, account: Did, mediator: Did, replica: Did): (r: RemoveOutcome) {
    if !IsAccount(after, account, mediator) then NoAccountBound
    else if !IsMember(after, account, mediator, replica) || after.replicas[replica].removedAt.None? then NotEnrolled
    else Removed(after.replicas[replica].removedAt.value)
  }

  /** The deliveries of other packages to other replicas. */
  function DeliveriesWithout(deliveries: map<Id, Delivery>, packages: set<Id>, replicas: set<Did>): (r: map<Id, Delivery>) {
    map d | d in deliveries && deliveries[d].package !in packages && deliveries[d].replica !in replicas :: deliveries[d]
  }

  /** The listings of other registrations. */
  function SlotsWithout(registrations: map<Slot, nat>, gone: set<Id>): (r: map<Slot, nat>) {
    map s | s in registrations && s.registration !in gone :: registrations[s]
  }

  function BlobsOfAny(blobs: map<Id, Blob>, owners: set<Did>): (r: set<Id>) {
    set b | b in blobs && blobs[b].owner in owners
  }

  /** All rows of a replica account go, and the blobs of its replicas end. */
  function DeleteReplicaAccount(db: Db, account: Did, mediator: Did): (r: Db)
    ensures r == db.(deliveries := r.deliveries, packages := r.packages, recipients := r.recipients, executions := r.executions,
                    registrations := r.registrations, blobs := r.blobs, ended := r.ended, uploads := r.uploads,
                    replicas := r.replicas, replicaAccounts := r.replicaAccounts)
  {
    if !IsAccount(db, account, mediator) then db
    else
      var members := Members(db.replicas, account);
      var mail := PackagesOf(db.packages, account);
      var executions := ExecutionsOf(db.executions, account);
      var held := BlobsOfAny(db.blobs, members);
      db.(deliveries := DeliveriesWithout(db.deliveries, mail, members),
          packages := db.packages - mail,
          recipients := db.recipients - RecipientsOf(db.recipients, account),
          executions := db.executions - executions,
          registrations := SlotsWithout(db.registrations, executions),
          blobs := db.blobs - held,
          ended := db.ended + held,
          uploads := UploadsWithout(db.uploads, held),
          replicas := db.replicas - members,
          replicaAccounts := db.replicaAccounts - {account})
  }

  predicate Unbound(db: Db, did: Did, longForm: Did) {
    && NotOrdinary(db, did, longForm)
    && did !in db.replicaAccounts && longForm !in db.replicaAccounts
    && did !in db.replicas && longForm !in db.replicas
  }

  predicate MayShare(limits: Limits, db: Db, account: Did, mediator: Did, recipient: Did, longForm: Did) {
    && IsAccount(db, account, mediator)
    && Unbound(db, recipient, longForm)
    && |RecipientsOf(db.recipients, account)| < limits.maxRecipients
    && recipient !in db.recipients
  }

  function AddSharedRecipient(limits: Limits, db: Db, account: Did, mediator: Did, recipient: Did, longForm: Did, now: Time): (r: Db)
    ensures r == db.(recipients := r.recipients)
  {
    db.(recipients :=
      if MayShare(limits, db, account, mediator, recipient, longForm)
      then db.recipients[recipient := Recipient(account, longForm, now)] else db.recipients)
  }

  /** Read back from the tables the call left. */
  function ShareOutcomeOf(after: Db, account: Did, mediator: Did, recipient: Did, longForm: Did): (r: AddOutcome) {
    if !IsAccount(after, account, mediator) then UnknownAccount
    else if recipient in after.recipients then
      if after.recipients[recipient].account == account then Added(after.recipients[recipient].createdAt / 1000) else Conflict
    else if Unbound(after, recipient, longForm) then AtLimit
    else Conflict
  }

  datatype UnshareOutcome = Unshared | NoChange | NoSuchAccount

  function RemoveSharedRecipient(db: Db, account: Did, mediator: Did, recipient: Did): (r: Db)
    ensures r == db.(recipients := r.recipients)
  {
    db.(recipients :=
      if IsAccount(db, account, mediator) && recipient in db.recipients && db.recipients[recipient].account == account
      then db.recipients - {recipient} else db.recipients)
  }

  function UnshareOutcomeOf(db: Db, account: Did, mediator: Did, recipient: Did): (r: UnshareOutcome) {
    if !IsAccount(db, account, mediator) then NoSuchAccount
    else if recipient in db.recipients && db.recipients[recipient].account == account then Unshared
    else NoChange
  }

  // ---- mail for replicas ----

  datatype FanOutOutcome = FannedOut(deliveries: map<Id, Delivery>) | Unknown | AccountFull | Lapsed

  /** When a package accepted at `now` expires. */
  function ExpiryOf(limits: Limits, now: Time, deadline: Option<int>): (t: int) {
    if deadline.Some? && deadline.value < now + limits.ttl then deadline.value else now + limits.ttl
  }

  /** The account a DID routes to: the one sharing it, or the one that enrolled it as a replica still active. */
  function Route(db: Db, next: Did): (r: Option<Did>) {
    if next in db.recipients then Some(db.recipients[next].account)
    else if IsActive(db.replicas, next) then Some(db.replicas[next].account)
    else None
  }

  /** Who a package for `next` is delivered to: every active replica of the account sharing it, or that active replica alone. */
  function Targets(db: Db, next: Did): (r: set<Did>) {
    if next in db.recipients then ActiveMembers(db.replicas, db.recipients[next].account)
    else if IsActive(db.replicas, next) then {next}
    else {}
  }

  ghost predicate HasRoom(limits: Limits, packages: map<Id, Package>, account: Did, bytes: nat, now: Time) {
    var retained := RetainedBytes(packages, account, now);
    |retained| < limits.maxMessages && Total(retained) + bytes <= limits.maxRetainedBytes
  }

  /** One more than the largest rowid in use, one when there is none. */
  ghost function NextRowid(packages: map<Id, Package>): (n: nat)
    ensures forall p :: p in packages ==> packages[p].rowid < n
    ensures n == 1 || n - 1 in Rowids(packages)
  {
    NextExists(Rowids(packages));
    var n: nat :| IsNext(Rowids(packages), n);
    assert forall p :: p in packages ==> packages[p].rowid in Rowids(packages);
    n
  }

  ghost predicate IsNext(s: set<nat>, n: nat) {
    && (forall k :: k in s ==> k < n)
    && (n == 1 || n - 1 in s)
  }

  lemma {:induction false} NextExists(s: set<nat>)
    ensures exists n: nat :: n >= 1 && IsNext(s, n)
    decreases |s|
  {
    if s == {} {
      assert IsNext(s, 1);
    } else {
      var x :| x in s;
      NextExists(s - {x});
      var n: nat :| n >= 1 && IsNext(s - {x}, n);
      var m := if x < n then n else x + 1;
      assert forall k :: k in s ==> k == x || k in s - {x};
      assert IsNext(s, m);
    }
  }

  /** No id is generated twice. */
  ghost predicate OneToOne(ids: map<Did, Id>) {
    forall a, b :: a in ids && b in ids && ids[a] == ids[b] ==> a == b
  }

  /** Each target's delivery under the id generated for it. */
  function NewDeliveries(targets: set<Did>, package: Id, ids: map<Did, Id>): (r: map<Id, Delivery>)
    requires targets <= ids.Keys && OneToOne(ids)
  {
    map r | r in targets :: ids[r] := Delivery(package, r)
  }

  /** The generated delivery ids are new and pairwise different, one for each target. */
  ghost predicate FreshFor(db: Db, next: Did, ids: map<Did, Id>) {
    && Targets(db, next) <= ids.Keys
    && OneToOne(ids)
    && (forall a :: a in ids ==> ids[a] !in db.deliveries)
  }

  datatype Parcel = Parcel(next: Did, packed: Text, bytes: nat, deadline: Option<int>)

  /** The deliveries made, when there are any, each with its target. */
  ghost function FanOutOutcomeOf(limits: Limits, db: Db, parcel: Parcel, id: Id, ids: map<Did, Id>, now: Time): (r: FanOutOutcome)
    requires Targets(db, parcel.next) <= ids.Keys && OneToOne(ids)
  {
    if ExpiryOf(limits, now, parcel.deadline) <= now then Lapsed
    else if Route(db, parcel.next).None? then Unknown
    else if !HasRoom(limits, db.packages, Route(db, parcel.next).value, parcel.bytes, now) then AccountFull
    else FannedOut(NewDeliveries(Targets(db, parcel.next), id, ids))
  }

  ghost predicate Accepts(limits: Limits, db: Db, parcel: Parcel, now: Time) {
    && ExpiryOf(limits, now, parcel.deadline) > now
    && Route(db, parcel.next).Some?
    && HasRoom(limits, db.packages, Route(db, parcel.next).value, parcel.bytes, now)
  }

  ghost function FanOut(limits: Limits, db: Db, parcel: Parcel, id: Id, ids: map<Did, Id>, now: Time): (r: Db)
    requires FreshFor(db, parcel.next, ids)
    ensures r == db.(packages := r.packages, deliveries := r.deliveries)
  {
    if !Accepts(limits, db, parcel, now) then db
    else
      var row := Package(Route(db, parcel.next).value, parcel.next, parcel.packed, parcel.bytes, now,
                         ExpiryOf(limits, now, parcel.deadline), NextRowid(db.packages));
      db.(packages := db.packages[id := row],
          deliveries := db.deliveries + NewDeliveries(Targets(db, parcel.next), id, ids))
  }

  /** The replica's own deliveries among those an acknowledgement names. */
  function Acknowledged(deliveries: map<Id, Delivery>, replica: Did, ids: set<Id>): set<Id> {
    set d | d in deliveries && deliveries[d].replica == replica && d in ids
  }

  function AcknowledgeDeliveries(db: Db, replica: Did, ids: set<Id>): (r: Db)
    ensures r == db.(packages := r.packages, deliveries := r.deliveries)
  {
    EndDeliveries(db, Acknowledged(db.deliveries, replica, ids))
  }

  function LapsedPackages(packages: map<Id, Package>, now: Time): (r: set<Id>) {
    set p | p in packages && packages[p].expiresAt <= now
  }

  function MessagesAfter(messages: map<Id, Message>, now: Time): (r: map<Id, Message>) {
    map m | m in messages && messages[m].expiresAt > now :: messages[m]
  }

  function ExpiredMessages(messages: map<Id, Message>, now: Time): (r: set<Id>) {
    set m | m in messages && messages[m].expiresAt <= now
  }

  /** How many messages and packages a purge reports it deleted. */
  function PurgeCount(db: Db, now: Time): (n: nat) {
    |ExpiredMessages(db.messages, now)| + |LapsedPackages(db.packages, now)|
  }

  function PurgeExpired(db: Db, now: Time): (r: Db)
    ensures r == db.(messages := r.messages, packages := r.packages, deliveries := r.deliveries)
  {
    var lapsed := LapsedPackages(db.packages, now);
    db.(messages := MessagesAfter(db.messages, now),
        deliveries := DeliveriesWithout(db.deliveries, lapsed, {}),
        packages := db.packages - lapsed)
  }

  // ---- execution registrations ----

  /** The caller's account at that mediator, unless it was removed. */
  function CallerAccount(db: Db, replica: Did, mediator: Did): (r: Option<Did>) {
    if IsActive(db.replicas, replica) && IsAccount(db, db.replicas[replica].account, mediator)
    then Some(db.replicas[replica].account) else None
  }

  predicate Names(executions: map<Id, Execution>, e: Id, account: Did, executionId: Text) {
    e in executions && executions[e].account == account && executions[e].executionId == executionId
  }

  ghost function FindExecution(executions: map<Id, Execution>, account: Did, executionId: Text): (r: Option<Id>)
    ensures r.Some? ==> Names(executions, r.value, account, executionId)
    ensures r.None? ==> forall e :: !Names(executions, e, account, executionId)
  {
    if e :| Names(executions, e, account, executionId) then Some(e) else None
  }

  datatype Snapshot = Snapshot(executionId: Text, registrationId: Id, createdTime: nat, retainUntil: nat, replicas: seq<Did>)

  datatype ExecutionOutcome = ExecutionRegistered(snapshot: Snapshot) | UnknownReplica | ExecutionFull

  /** The executions after the first insert: the account's registration when it kept none and has room for one. */
  ghost function WithExecution(limits: Limits, executions: map<Id, Execution>, account: Did, executionId: Text, id: Id, now: Time): (r: map<Id, Execution>) {
    if FindExecution(executions, account, executionId).None? && |ExecutionsOf(executions, account)| < limits.maxRetained
    then executions[id := Execution(account, executionId, now / 1000, now / 1000 + limits.retainSeconds)]
    else executions
  }

  /** The registrations after the second insert: the caller after every replica already listed. */
  function WithCaller(limits: Limits, registrations: map<Slot, nat>, registration: Id, replica: Did): (r: map<Slot, nat>) {
    if |Places(registrations, registration)| < limits.maxListed && Slot(registration, replica) !in registrations
    then registrations[Slot(registration, replica) := |Places(registrations, registration)| + 1]
    else registrations
  }

  ghost function RegisterExecution(limits: Limits, db: Db, replica: Did, mediator: Did, executionId: Text, id: Id, now: Time): (r: Db)
    ensures r == db.(executions := r.executions, registrations := r.registrations)
  {
    var account := CallerAccount(db, replica, mediator);
    if account.None? then db
    else
      var executions := WithExecution(limits, db.executions, account.value, executionId, id, now);
      var found := FindExecution(executions, account.value, executionId);
      if found.None? then db
      else db.(executions := executions, registrations := WithCaller(limits, db.registrations, found.value, replica))
  }

  /** Read back from the tables the call left. */
  ghost function ExecutionOutcomeOf(after: Db, replica: Did, mediator: Did, executionId: Text): (r: ExecutionOutcome) {
    var account := CallerAccount(after, replica, mediator);
    if account.None? then UnknownReplica
    else
      var found := FindExecution(after.executions, account.value, executionId);
      if found.None? || Slot(found.value, replica) !in after.registrations || !Numbered(Places(after.registrations, found.value))
      then ExecutionFull
      else
        var row := after.executions[found.value];
        ExecutionRegistered(Snapshot(executionId, found.value, row.createdTime, row.retainUntil, OrderOf(Places(after.registrations, found.value))))
  }

  function LapsedExecutions(executions: map<Id, Execution>, now: Time): (r: set<Id>) {
    set e | e in executions && executions[e].retainUntil <= now / 1000
  }

  function PurgeExecutions(db: Db, now: Time): (r: Db)
    ensures r == db.(executions := r.executions, registrations := r.registrations)
  {
    var lapsed := LapsedExecutions(db.executions, now);
    db.(executions := db.executions - lapsed, registrations := SlotsWithout(db.registrations, lapsed))
  }

  // ---- blobs ----

  /** The owner's blob of the hash: one id at most. */
  function BlobNamed(blobs: map<Id, Blob>, owner: Did, hash: Text): (r: set<Id>) {
    set b | b in blobs && blobs[b].owner == owner && blobs[b].hash == hash
  }

  ghost predicate HasBlobRoom(limits: Limits, blobs: map<Id, Blob>, owner: Did, size: nat, now: Time) {
    Total(LiveBlobBytes(blobs, owner, now)) + size <= limits.quotaBytes
  }

  datatype Keep = Keep(id: Id, owner: Did, hash: Text, size: nat, retainUntil: Time)

  datatype KeepOutcome = Kept(ids: set<Id>) | Mismatch | QuotaFull | Ended

  /** The size agrees, and the blob is still retained or there is room for it as for a new one. */
  ghost predicate MayKeep(limits: Limits, db: Db, keep: Keep, now: Time) {
    var held := BlobNamed(db.blobs, keep.owner, keep.hash);
    && HoldsBlobs(db.accounts, db.replicas, keep.owner)
    && (forall b :: b in held ==> db.blobs[b].size == keep.size)
    && ((exists b :: b in held && db.blobs[b].retainUntil > now) || HasBlobRoom(limits, db.blobs, keep.owner, keep.size, now))
  }

  function Renewed(row: Blob, retainUntil: Time): (r: Blob) {
    row.(retainUntil := if row.retainUntil < retainUntil then retainUntil else row.retainUntil)
  }

  function RenewedBlobs(blobs: map<Id, Blob>, held: set<Id>, retainUntil: Time): (r: map<Id, Blob>) {
    map b | b in blobs :: if b in held then Renewed(blobs[b], retainUntil) else blobs[b]
  }

  ghost function KeptBlobs(limits: Limits, db: Db, keep: Keep, now: Time): (r: map<Id, Blob>) {
    var held := BlobNamed(db.blobs, keep.owner, keep.hash);
    if !MayKeep(limits, db, keep, now) then db.blobs
    else if held == {} then db.blobs[keep.id := Blob(keep.owner, keep.hash, keep.size, now, None, keep.retainUntil)]
    else RenewedBlobs(db.blobs, held, keep.retainUntil)
  }

  ghost function KeepBlob(limits: Limits, db: Db, keep: Keep, now: Time): (r: Db)
    ensures r == db.(blobs := r.blobs)
  {
    db.(blobs := KeptBlobs(limits, db, keep, now))
  }

  /** `after` are the tables the call left. */
  ghost function KeepOutcomeOf(limits: Limits, db: Db, after: Db, keep: Keep, now: Time): (r: KeepOutcome) {
    var held := BlobNamed(db.blobs, keep.owner, keep.hash);
    if !HoldsBlobs(db.accounts, db.replicas, keep.owner) then Ended
    else if exists b :: b in held && db.blobs[b].size != keep.size then Mismatch
    else if !MayKeep(limits, db, keep, now) then QuotaFull
    else Kept(BlobNamed(after.blobs, keep.owner, keep.hash))
  }

  /** Takes the rows and their upload tokens out, and leaves the bytes. */
  function DropBlobs(db: Db, which: set<Id>): (r: Db)
    ensures r == db.(blobs := r.blobs, uploads := r.uploads)
  {
    db.(blobs := db.blobs - which,
        uploads := UploadsWithout(db.uploads, which))
  }

  function DropBlob(db: Db, owner: Did, hash: Text): (r: Db)
    ensures r == db.(blobs := r.blobs, uploads := r.uploads)
  {
    DropBlobs(db, BlobNamed(db.blobs, owner, hash))
  }

  /** A token for no row here is refused by its foreign key. */
  function GrantUpload(db: Db, blob: Id, expiresAt: Time, token: Id): (r: Db)
    ensures r == db.(uploads := r.uploads)
  {
    db.(uploads := if blob in db.blobs then db.uploads[token := Upload(blob, expiresAt)] else db.uploads)
  }

  /** The token is gone, whether it was live or not. */
  function ClaimUpload(db: Db, token: Id): (r: Db)
    ensures r == db.(uploads := r.uploads)
  {
    db.(uploads := db.uploads - {token})
  }

  /** Which blob may be uploaded under the token, if any. */
  function ClaimOf(db: Db, token: Id, now: Time): (r: Option<Id>) {
    if token in db.uploads && db.uploads[token].expiresAt > now then Some(db.uploads[token].blob) else None
  }

  function MarkedBlobs(blobs: map<Id, Blob>, id: Id, now: Time): (r: map<Id, Blob>) {
    if id in blobs && blobs[id].uploadedAt.None? then blobs[id := blobs[id].(uploadedAt := Some(now))] else blobs
  }

  function MarkUploaded(db: Db, id: Id, now: Time): (r: Db)
    ensures r == db.(blobs := r.blobs)
  {
    db.(blobs := MarkedBlobs(db.blobs, id, now))
  }

  function LapsedBlobs(blobs: map<Id, Blob>, now: Time): (r: set<Id>) {
    set b | b in blobs && blobs[b].retainUntil <= now
  }

  /** The ids whose bytes are now the caller's to delete. */
  function PurgedBlobs(db: Db, now: Time): (r: set<Id>) {
    LapsedBlobs(db.blobs, now) + db.ended
  }

  function LiveUploads(uploads: map<Id, Upload>, now: Time): (r: map<Id, Upload>) {
    map t | t in uploads && uploads[t].expiresAt > now :: uploads[t]
  }

  function PurgeBlobs(db: Db, now: Time): (r: Db)
    ensures r == db.(blobs := r.blobs, ended := r.ended, uploads := r.uploads)
  {
    var lapsed := LapsedBlobs(db.blobs, now);
    db.(blobs := db.blobs - lapsed,
        ended := {},
        uploads := LiveUploads(UploadsWithout(db.uploads, lapsed), now))
  }
}
