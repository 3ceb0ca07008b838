/** The tables of the mediator's store, one map per table, keyed as the schema keys them. */
module Tables {
  import opened Dids

  /** A generated id: of a row, an upload token, the name of a registration. Only compared, so a number stands for each. */
  type Id = nat
  /** A text only stored and compared: an envelope, a hash, a grant, the name of an execution. A number stands for each. */
  type Text = nat
  /** Milliseconds since the epoch, unless a field says whole seconds. */
  type Time = nat

  datatype KeyEntry = KeyEntry(owner: Did, createdAt: Time)

  datatype Message = Message(owner: Did, packed: Text, createdAt: Time, expiresAt: Time)

  datatype Account = Account(mediator: Did, longForm: Did, createdAt: Time, registration: Id)

  /** `registeredAt` and `removedAt` are whole seconds. */
  datatype Replica = Replica(
    account: Did, ordinal: nat, longForm: Did, grant: Text, registeredAt: nat, removedAt: Option<nat>)

  datatype Recipient = Recipient(account: Did, longForm: Did, createdAt: Time)

  /** `rowid` is SQLite's own: one more than the largest in the table when the row came in. */
  datatype Package = Package(
    account: Did, next: Did, packed: Text, bytes: nat, createdAt: Time, expiresAt: Time, rowid: nat)

  datatype Delivery = Delivery(package: Id, replica: Did)

  /** `createdTime` and `retainUntil` are whole seconds. */
  datatype Execution = Execution(account: Did, executionId: Text, createdTime: nat, retainUntil: nat)

  /** One replica listed under one execution registration. */
  datatype Slot = Slot(registration: Id, replica: Did)

  datatype Blob = Blob(owner: Did, hash: Text, size: nat, createdAt: Time, uploadedAt: Option<Time>, retainUntil: Time)

  datatype Upload = Upload(blob: Id, expiresAt: Time)

  datatype Db = Db(
    accounts: map<Did, Time>,
    keylist: map<Did, KeyEntry>,
    messages: map<Id, Message>,
    replicaAccounts: map<Did, Account>,
    replicas: map<Did, Replica>,
    recipients: map<Did, Recipient>,
    packages: map<Id, Package>,
    deliveries: map<Id, Delivery>,
    executions: map<Id, Execution>,
    registrations: map<Slot, nat>,
    blobs: map<Id, Blob>,
    ended: set<Id>,
    uploads: map<Id, Upload>)

  const EMPTY := Db(map[], map[], map[], map[], map[], map[], map[], map[], map[], map[], map[], {}, map[])

  /** What the configuration fixes. */
  datatype Limits = Limits(
    ttl: Time,
    maxMessages: nat,
    maxRetainedBytes: nat,
    maxReplicas: nat,
    maxRecipients: nat,
    retainSeconds: nat,
    maxRetained: nat,
    maxListed: nat,
    quotaBytes: nat)

  // ---- rows selected by what they hold ----

  function Members(replicas: map<Did, Replica>, account: Did): set<Did> {
    set r | r in replicas && replicas[r].account == account
  }

  /** The account's replicas, the removed ones included, each with its ordinal. */
  function Ordinals(replicas: map<Did, Replica>, account: Did): map<Did, nat> {
    map r | r in replicas && replicas[r].account == account :: replicas[r].ordinal
  }

  predicate IsActive(replicas: map<Did, Replica>, did: Did) {
    did in replicas && replicas[did].removedAt.None?
  }

  function ActiveMembers(replicas: map<Did, Replica>, account: Did): set<Did> {
    set r | r in replicas && replicas[r].account == account && replicas[r].removedAt.None?
  }

  function RecipientsOf(recipients: map<Did, Recipient>, account: Did): set<Did> {
    set d | d in recipients && recipients[d].account == account
  }

  function PackagesOf(packages: map<Id, Package>, account: Did): set<Id> {
    set p | p in packages && packages[p].account == account
  }

  /** The bytes of each package of the account still retained at `now`. */
  function RetainedBytes(packages: map<Id, Package>, account: Did, now: Time): map<Id, nat> {
    map p | p in packages && packages[p].account == account && packages[p].expiresAt > now :: packages[p].bytes
  }

  function DeliveriesOf(deliveries: map<Id, Delivery>, package: Id): set<Id> {
    set d | d in deliveries && deliveries[d].package == package
  }

  function ExecutionsOf(executions: map<Id, Execution>, account: Did): set<Id> {
    set e | e in executions && executions[e].account == account
  }

  /** The replicas a registration lists, each with its ordinal. */
  function Places(registrations: map<Slot, nat>, registration: Id): map<Did, nat> {
    map s | s in registrations && s.registration == registration :: s.replica := registrations[s]
  }

  function UnexpiredMessages(messages: map<Id, Message>, owner: Did, now: Time): set<Id> {
    set m | m in messages && messages[m].owner == owner && messages[m].expiresAt > now
  }

  /** The size of each blob of the owner still retained at `now`. */
  function LiveBlobBytes(blobs: map<Id, Blob>, owner: Did, now: Time): map<Id, nat> {
    map b | b in blobs && blobs[b].owner == owner && blobs[b].retainUntil > now :: blobs[b].size
  }

  function BlobsOf(blobs: map<Id, Blob>, owner: Did): set<Id> {
    set b | b in blobs && blobs[b].owner == owner
  }

  /** Who may own blobs: accounts are looked up as written, replicas shortened. */
  predicate HoldsBlobs(accounts: map<Did, Time>, replicas: map<Did, Replica>, did: Did) {
    did in accounts || IsActive(replicas, did)
  }

  /** The rowids in use. */
  function Rowids(packages: map<Id, Package>): set<nat> {
    set p | p in packages :: packages[p].rowid
  }
}
