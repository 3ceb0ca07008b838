/**
 * Blob rows and blob bytes: uploads, removals and purges as steps that
 * interleave, any of which a crash may cut off. Rows are the store's, bytes
 * the storage's, and no transaction spans the two.
 */
module BlobService {
  import opened Dids
  import opened Tables
  import opened StoreSpec
  import opened StoreRuns
  import opened StoreFrames
  import opened BlobRows
  import opened Quotas
  import opened Soundness

  /** What bytes are: a hash and a size. */
  datatype Bytes = Bytes(hash: Text, size: nat)

  /** An upload past its claim: its bytes still to put under the id, as the row named them, or put and still to mark. */
  datatype Upload = Putting(token: Id, id: Id, bytes: Bytes) | Marking(token: Id, id: Id)

  /**
   * `uploading` and `deleting`, the ids whose bytes are still to delete, go
   * with the process. `late` are the ids whose bytes were put when no row or
   * ended id was left and no deletion was under way, and `lost` those whose
   * deletion a crash or a failing storage cut off.
   */
  datatype State = State(world: World, storage: map<Id, Bytes>, uploading: set<Upload>, deleting: set<Id>, late: set<Id>, lost: set<Id>)

  datatype Event =
    /** any store call but those the service makes of its own */
    | StoreCall(op: Op, now: Time)
    | ClaimToken(token: Id, now: Time)
    | PutBytes(upload: Upload, body: Bytes)
    | MarkRow(upload: Upload, now: Time)
    | Remove(owner: Did, hash: Text, now: Time)
    | Purge(now: Time)
    | DeleteBytes(id: Id)
    /** the storage fails to delete one, and with it go the ones that were to follow */
    | AbandonDeletion(ids: set<Id>)
    | Crash

  predicate ByService(op: Op) {
    op.Blobs? && (op.blob.Claim? || op.blob.Mark? || op.blob.DropOne? || op.blob.PurgeBlobRows?)
  }

  /** The store call an event makes. */
  function CallOf(e: Event): (r: Option<Call>) {
    match e
    case StoreCall(op, now) => Some(Call(op, now))
    case ClaimToken(token, now) => Some(Call(Blobs(Claim(token)), now))
    case MarkRow(upload, now) => Some(Call(Blobs(Mark(upload.id)), now))
    case Remove(owner, hash, now) => Some(Call(Blobs(DropOne(owner, hash)), now))
    case Purge(now) => Some(Call(Blobs(PurgeBlobRows), now))
    case _ => None
  }

  ghost predicate Enabled(s: State, e: Event) {
    && (CallOf(e).Some? ==> Admissible(s.world, CallOf(e).value.op, CallOf(e).value.now))
    && match e
       case StoreCall(op, _) => !ByService(op)
       case PutBytes(upload, _) => upload in s.uploading && upload.Putting?
       case MarkRow(upload, _) => upload in s.uploading && upload.Marking?
       case DeleteBytes(id) => id in s.deleting
       case AbandonDeletion(ids) => ids <= s.deleting
       case _ => true
  }

  /** Some row or ended id still answers for the bytes. */
  predicate Answered(db: Db, id: Id) {
    id in db.blobs || id in db.ended
  }

  ghost function After(limits: Limits, s: State, e: Event): (r: State)
    requires Enabled(s, e)
  {
    var db := s.world.db;
    var world := if CallOf(e).Some? then Next(limits, s.world, CallOf(e).value.op, CallOf(e).value.now) else s.world;
    match e
    case StoreCall(_, _) => s.(world := world)
    case ClaimToken(token, now) =>
      var claim := ClaimOf(db, token, now);
      if claim.Some? && claim.value in db.blobs
      then s.(world := world, uploading := s.uploading + {Putting(token, claim.value, Bytes(db.blobs[claim.value].hash, db.blobs[claim.value].size))})
      else s.(world := world)
    case PutBytes(upload, body) =>
      if body != upload.bytes then s.(uploading := s.uploading - {upload})
      else s.(storage := s.storage[upload.id := body], uploading := s.uploading - {upload} + {Marking(upload.token, upload.id)},
              late := if Answered(db, upload.id) || upload.id in s.deleting then s.late else s.late + {upload.id})
    case MarkRow(upload, _) => s.(world := world, uploading := s.uploading - {upload})
    case Remove(owner, hash, _) => s.(world := world, deleting := s.deleting + BlobNamed(db.blobs, owner, hash))
    case Purge(now) => s.(world := world, deleting := s.deleting + PurgedBlobs(db, now))
    case DeleteBytes(id) => s.(storage := s.storage - {id}, deleting := s.deleting - {id})
    case AbandonDeletion(ids) => s.(deleting := s.deleting - ids, lost := s.lost + ids)
    case Crash => s.(uploading := {}, deleting := {}, lost := s.lost + s.deleting)
  }

  /** Whether a request for a blob goes on to its bytes: the row is marked and retained. */
  predicate Served(s: State, id: Id, now: Time) {
    id in s.world.db.blobs && s.world.db.blobs[id].uploadedAt.Some? && s.world.db.blobs[id].retainUntil > now
  }

  function NameOf(row: Blob): (r: Bytes) {
    Bytes(row.hash, row.size)
  }

  // ---- what a call keeps of a row ----

  /** A row that stays keeps its name and its mark; one is marked by its mark alone, and a new one comes under a new id. */
  ghost predicate RowKept(db: Db, after: Db, op: Op, b: Id) {
    && (b in after.blobs && b !in db.blobs ==> b in NewIds(op) && after.blobs[b].uploadedAt.None?)
    && (b in after.blobs && b in db.blobs ==>
          && after.blobs[b].hash == db.blobs[b].hash && after.blobs[b].size == db.blobs[b].size
          && (db.blobs[b].uploadedAt.Some? ==> after.blobs[b].uploadedAt.Some?)
          && (after.blobs[b].uploadedAt.Some? && db.blobs[b].uploadedAt.None? ==> op == Blobs(Mark(b))))
  }

  lemma RowKeptByFewer(db: Db, after: Db, op: Op, b: Id)
    requires b in after.blobs ==> b in db.blobs && after.blobs[b] == db.blobs[b]
    ensures RowKept(db, after, op, b)
  {
  }

  lemma RowKeptByKeep(limits: Limits, db: Db, keep: Keep, now: Time, b: Id)
    requires keep.id !in db.blobs
    ensures RowKept(db, KeepBlob(limits, db, keep, now), Blobs(KeepOne(keep)), b)
  {
    hide MayKeep, BlobNamed;
    var blobs := KeptBlobs(limits, db, keep, now);
  }

  lemma RowKeptByBlobs(limits: Limits, db: Db, op: BlobOp, now: Time, b: Id)
    requires op.KeepOne? ==> op.keep.id !in db.blobs
    ensures RowKept(db, BlobStep(limits, db, op, now), Blobs(op), b)
  {
    hide KeptBlobs, BlobNamed, LapsedBlobs, UploadsWithout, LiveUploads, NewIds, RowKept;
    match op
    case KeepOne(keep) => RowKeptByKeep(limits, db, keep, now, b);
    case Mark(id) => RowKeptByMark(db, id, now, b);
    case _ => RowKeptByFewer(db, BlobStep(limits, db, op, now), Blobs(op), b);
  }

  lemma RowKeptByMark(db: Db, id: Id, now: Time, b: Id)
    ensures RowKept(db, MarkUploaded(db, id, now), Blobs(Mark(id)), b)
  {
  }

  lemma RowKeptByStep(limits: Limits, db: Db, op: Op, now: Time, b: Id)
    requires Usable(db, op) && NewIds(op) !! db.blobs.Keys
    ensures RowKept(db, Step(limits, db, op, now), op, b)
  {
    hide OrdinaryStep, MembershipStep, MailStep, ExecutionStep, BlobStep, RowKept;
    var r := Step(limits, db, op, now);
    match op
    case Ordinary(o) => FewerBlobsAfterOrdinary(limits, db, o, now); RowKeptByFewer(db, r, op, b);
    case Membership(m) => FewerBlobsAfterMembership(limits, db, m, now); RowKeptByFewer(db, r, op, b);
    case Mail(m) => MailFrame(limits, db, m, now); RowKeptByFewer(db, r, op, b);
    case Executions(e) => ExecutionFrame(limits, db, e, now); RowKeptByFewer(db, r, op, b);
    case Blobs(x) =>
      assert x.KeepOne? ==> x.keep.id in NewIds(op);
      RowKeptByBlobs(limits, db, x, now, b);
  }

  // ---- rows against bytes ----

  /** The bytes under a row's id are the row's, and a marked row has them. */
  ghost predicate BytesMatch(blobs: map<Id, Blob>, storage: map<Id, Bytes>) {
    && (forall b :: b in blobs && b in storage ==> storage[b] == Bytes(blobs[b].hash, blobs[b].size))
    && (forall b :: b in blobs && blobs[b].uploadedAt.Some? ==> b in storage)
  }

  ghost predicate UploadsMatch(blobs: map<Id, Blob>, storage: map<Id, Bytes>, uploading: set<Upload>) {
    && (forall u :: u in uploading && u.Putting? && u.id in blobs ==> u.bytes == Bytes(blobs[u.id].hash, blobs[u.id].size))
    && (forall u :: u in uploading && u.Marking? && u.id in blobs ==> u.id in storage)
  }

  /** Only ids once made have bytes or are worked on. */
  ghost predicate OnlyMade(s: State) {
    && s.storage.Keys <= s.world.history.blobsMade
    && (forall u :: u in s.uploading ==> u.id in s.world.history.blobsMade)
    && s.deleting <= HandedBack(s.world.history.handedBack)
  }

  /** Bytes no row or ended id answers for are on their way out, or were put too late, or their deletion was lost. */
  ghost predicate Accounted(s: State) {
    forall b :: b in s.storage ==> Answered(s.world.db, b) || b in s.deleting || b in s.late || b in s.lost
  }

  /** Those were handed back before and are not being deleted: what has bytes among them keeps them. */
  ghost predicate Stranded(s: State) {
    && s.late <= s.storage.Keys
    && s.late + s.lost <= HandedBack(s.world.history.handedBack)
    && s.late + s.lost !! s.deleting
  }

  ghost predicate Tidy(limits: Limits, s: State) {
    && Sound(limits, s.world)
    && BytesMatch(s.world.db.blobs, s.storage)
    && UploadsMatch(s.world.db.blobs, s.storage, s.uploading)
    && OnlyMade(s)
    && Accounted(s)
    && Stranded(s)
  }

  // ---- a store call ----

  lemma MatchKept(limits: Limits, w: World, op: Op, now: Time, storage: map<Id, Bytes>, uploading: set<Upload>)
    requires Admissible(w, op, now) && Sound(limits, w)
    requires BytesMatch(w.db.blobs, storage) && UploadsMatch(w.db.blobs, storage, uploading)
    requires storage.Keys <= w.minted && forall u :: u in uploading ==> u.id in w.minted
    requires op.Blobs? && op.blob.Mark? && op.blob.blob in w.db.blobs ==> op.blob.blob in storage
    ensures var blobs := Step(limits, w.db, op, now).blobs; BytesMatch(blobs, storage) && UploadsMatch(blobs, storage, uploading)
  {
    hide Sound, Step, Usable, NewIds;
    RowsAreMinted(limits, w);
    var r := Step(limits, w.db, op, now);
    forall b | b in r.blobs
      ensures b in w.db.blobs ==> r.blobs[b].hash == w.db.blobs[b].hash && r.blobs[b].size == w.db.blobs[b].size
      ensures b !in w.db.blobs ==> b !in w.minted && r.blobs[b].uploadedAt.None?
      ensures b in w.db.blobs && r.blobs[b].uploadedAt.Some? ==> b in storage
    {
      RowKeptByStep(limits, w.db, op, now, b);
    }
  }

  lemma RowsAreMinted(limits: Limits, w: World)
    requires Sound(limits, w)
    ensures w.db.blobs.Keys <= w.history.blobsMade <= w.minted && ConservedIn(w.db, w.history)
  {
    BlobsAreMade(w.db, w.history);
  }

  /** An id a row or an ended id answers for stays so, or is handed back. */
  lemma AnsweredOrHanded(limits: Limits, db: Db, op: Op, now: Time, b: Id)
    requires Usable(db, op) && Answered(db, b)
    ensures || Answered(Step(limits, db, op, now), b)
            || (op.Blobs? && op.blob.DropOne? && b in BlobNamed(db.blobs, op.blob.owner, op.blob.hash))
            || (op.Blobs? && op.blob.PurgeBlobRows? && b in PurgedBlobs(db, now))
  {
    hide OrdinaryStep, MembershipStep, MailStep, ExecutionStep, BlobStep;
    match op
    case Ordinary(o) => EndedByOrdinary(limits, db, o, now);
    case Membership(m) => EndedByMembership(limits, db, m, now);
    case Mail(m) => MailFrame(limits, db, m, now);
    case Executions(e) => ExecutionFrame(limits, db, e, now);
    case Blobs(x) => AnsweredAfterBlobs(limits, db, x, now, b);
  }

  lemma AnsweredAfterBlobs(limits: Limits, db: Db, op: BlobOp, now: Time, b: Id)
    requires Answered(db, b)
    ensures || Answered(BlobStep(limits, db, op, now), b)
            || (op.DropOne? && b in BlobNamed(db.blobs, op.owner, op.hash))
            || (op.PurgeBlobRows? && b in PurgedBlobs(db, now))
  {
    hide KeptBlobs, UploadsWithout, LiveUploads, BlobNamed, LapsedBlobs;
    match op
    case KeepOne(keep) => KeysAfterKeep(limits, db, keep, now);
    case _ =>
  }

  /** What was made and what was handed back only grow. */
  lemma HistoryGrows(limits: Limits, w: World, op: Op, now: Time)
    requires Admissible(w, op, now)
    ensures var r := Next(limits, w, op, now);
      && w.history.blobsMade <= r.history.blobsMade
      && HandedBack(w.history.handedBack) <= HandedBack(r.history.handedBack)
      && (op.Blobs? && op.blob.DropOne? ==> BlobNamed(w.db.blobs, op.blob.owner, op.blob.hash) <= HandedBack(r.history.handedBack))
      && (op.Blobs? && op.blob.PurgeBlobRows? ==> PurgedBlobs(w.db, now) <= HandedBack(r.history.handedBack))
  {
    hide Step, Accepts, Targets, BlobNamed, PurgedBlobs, HandedBack, ClaimOf;
    if op.Blobs? && op.blob.DropOne? {
      HandedBackExtends(w.history.handedBack, BlobNamed(w.db.blobs, op.blob.owner, op.blob.hash));
    }
    if op.Blobs? && op.blob.PurgeBlobRows? {
      HandedBackExtends(w.history.handedBack, PurgedBlobs(w.db, now));
    }
  }

  // ---- every event ----

  lemma SoundAfter(limits: Limits, s: State, e: Event)
    requires Tidy(limits, s) && Enabled(s, e)
    ensures Sound(limits, After(limits, s, e).world)
  {
    hide Sound, Next, Admissible, BlobNamed, PurgedBlobs, ClaimOf;
    if CallOf(e).Some? {
      SoundKept(limits, s.world, CallOf(e).value.op, CallOf(e).value.now);
    }
  }

  lemma TidyAfterCall(limits: Limits, s: State, e: Event)
    requires Tidy(limits, s) && Enabled(s, e) && CallOf(e).Some?
    ensures var r := After(limits, s, e); BytesMatch(r.world.db.blobs, r.storage) && UploadsMatch(r.world.db.blobs, r.storage, r.uploading)
  {
    hide Sound, Step, Recorded, BlobNamed, PurgedBlobs, Usable, NewIds;
    var call := CallOf(e).value;
    RowsAreMinted(limits, s.world);
    assert e.MarkRow? && e.upload.id in s.world.db.blobs ==> e.upload.id in s.storage;
    MatchKept(limits, s.world, call.op, call.now, s.storage, s.uploading);
    if e.ClaimToken? {
      ClaimChangesNoRow(limits, s.world.db, e.token, e.now);
    }
  }

  lemma ClaimChangesNoRow(limits: Limits, db: Db, token: Id, now: Time)
    requires Usable(db, Blobs(Claim(token)))
    ensures Step(limits, db, Blobs(Claim(token)), now).blobs == db.blobs
  {
  }

  lemma MatchAfterPut(blobs: map<Id, Blob>, storage: map<Id, Bytes>, uploading: set<Upload>, upload: Upload)
    requires BytesMatch(blobs, storage) && UploadsMatch(blobs, storage, uploading)
    requires upload in uploading && upload.Putting?
    ensures var more := storage[upload.id := upload.bytes];
      BytesMatch(blobs, more) && UploadsMatch(blobs, more, uploading - {upload} + {Marking(upload.token, upload.id)})
  {
  }

  lemma MatchAfterDeletion(blobs: map<Id, Blob>, storage: map<Id, Bytes>, uploading: set<Upload>, id: Id)
    requires BytesMatch(blobs, storage) && UploadsMatch(blobs, storage, uploading) && id !in blobs
    ensures BytesMatch(blobs, storage - {id}) && UploadsMatch(blobs, storage - {id}, uploading)
  {
  }

  lemma TidyAfterBytes(limits: Limits, s: State, e: Event)
    requires Tidy(limits, s) && Enabled(s, e) && CallOf(e).None?
    ensures var r := After(limits, s, e); BytesMatch(r.world.db.blobs, r.storage) && UploadsMatch(r.world.db.blobs, r.storage, r.uploading)
  {
    hide Sound, HandedBack, BytesMatch, Accounted;
    HandedAreGone(limits, s.world);
    match e
    case PutBytes(upload, body) => MatchAfterPut(s.world.db.blobs, s.storage, s.uploading, upload);
    case DeleteBytes(id) => MatchAfterDeletion(s.world.db.blobs, s.storage, s.uploading, id);
    case _ =>
  }

  lemma HandedAreGone(limits: Limits, w: World)
    requires Sound(limits, w)
    ensures w.db.blobs.Keys !! HandedBack(w.history.handedBack) && w.db.ended !! HandedBack(w.history.handedBack)
    ensures HandedBack(w.history.handedBack) <= w.history.blobsMade && w.db.ended <= w.history.blobsMade
  {
    hide HandedBack;
    assert ConservedIn(w.db, w.history);
  }

  lemma OnlyMadeKept(limits: Limits, s: State, e: Event)
    requires Tidy(limits, s) && Enabled(s, e)
    ensures OnlyMade(After(limits, s, e))
  {
    hide Sound, Next, Admissible, HandedBack, BlobNamed, PurgedBlobs, BytesMatch, UploadsMatch, Accounted, Stranded, ConservedIn;
    RowsAreMinted(limits, s.world);
    if CallOf(e).Some? {
      HistoryGrows(limits, s.world, CallOf(e).value.op, CallOf(e).value.now);
    }
  }

  lemma AccountedKept(limits: Limits, s: State, e: Event)
    requires Tidy(limits, s) && Enabled(s, e)
    ensures Accounted(After(limits, s, e))
  {
    hide Sound, Step, Recorded, BlobNamed, PurgedBlobs, ClaimOf, Usable, NewIds;
    var r := After(limits, s, e);
    if CallOf(e).Some? {
      var call := CallOf(e).value;
      forall b | b in s.storage && Answered(s.world.db, b)
        ensures Answered(r.world.db, b) || b in r.deleting
      {
        AnsweredOrHanded(limits, s.world.db, call.op, call.now, b);
      }
    }
  }

  lemma StrandedAfterCall(limits: Limits, s: State, e: Event)
    requires Tidy(limits, s) && Enabled(s, e) && CallOf(e).Some?
    ensures Stranded(After(limits, s, e))
  {
    hide Sound, Next, Admissible, HandedBack, BytesMatch, UploadsMatch, OnlyMade, Accounted, ClaimOf, BlobNamed, PurgedBlobs, ConservedIn;
    HandedAreGone(limits, s.world);
    HistoryGrows(limits, s.world, CallOf(e).value.op, CallOf(e).value.now);
    NamedAreRows(s.world.db);
  }

  lemma StrandedKept(limits: Limits, s: State, e: Event)
    requires Tidy(limits, s) && Enabled(s, e)
    ensures Stranded(After(limits, s, e))
  {
    hide Tidy, After, Enabled, Stranded;
    if CallOf(e).Some? {
      StrandedAfterCall(limits, s, e);
    } else {
      StrandedAfterBytes(limits, s, e);
    }
  }

  lemma StrandedAfterBytes(limits: Limits, s: State, e: Event)
    requires Tidy(limits, s) && Enabled(s, e) && CallOf(e).None?
    ensures Stranded(After(limits, s, e))
  {
    hide Sound, HandedBack, BytesMatch, UploadsMatch, Accounted, Next, Admissible;
    MadeAreSomewhere(limits, s.world);
  }

  lemma MadeAreSomewhere(limits: Limits, w: World)
    requires Sound(limits, w)
    ensures forall b :: b in w.history.blobsMade && !Answered(w.db, b) ==> b in HandedBack(w.history.handedBack)
  {
    hide HandedBack;
    assert ConservedIn(w.db, w.history);
  }

  lemma NamedAreRows(db: Db)
    ensures forall owner, hash :: BlobNamed(db.blobs, owner, hash) <= db.blobs.Keys
    ensures forall now :: PurgedBlobs(db, now) <= db.blobs.Keys + db.ended
  {
  }

  lemma TidyKept(limits: Limits, s: State, e: Event)
    requires Tidy(limits, s) && Enabled(s, e)
    ensures Tidy(limits, After(limits, s, e))
  {
    hide Sound, Enabled, After, BytesMatch, UploadsMatch, OnlyMade, Accounted, Stranded;
    StrandedKept(limits, s, e);
    SoundAfter(limits, s, e);
    OnlyMadeKept(limits, s, e);
    AccountedKept(limits, s, e);
    if CallOf(e).Some? {
      TidyAfterCall(limits, s, e);
    } else {
      TidyAfterBytes(limits, s, e);
    }
  }

  // ---- every run ----

  ghost predicate IsServiceRun(limits: Limits, states: seq<State>, events: seq<Event>) {
    && |states| == |events| + 1
    && states[0] == State(INITIAL, map[], {}, {}, {}, {})
    && forall i :: 0 <= i < |events| ==> Enabled(states[i], events[i]) && states[i + 1] == After(limits, states[i], events[i])
  }

  lemma StepOf(limits: Limits, states: seq<State>, events: seq<Event>, i: nat)
    requires IsServiceRun(limits, states, events) && i + 1 < |states|
    ensures i < |events| && Enabled(states[i], events[i]) && states[i + 1] == After(limits, states[i], events[i])
  {
    hide Enabled, After;
  }

  lemma {:induction false} RunsAreTidy(limits: Limits, states: seq<State>, events: seq<Event>, n: nat)
    requires IsServiceRun(limits, states, events) && n < |states|
    ensures Tidy(limits, states[n])
  {
    hide IsServiceRun, Tidy, Enabled, After;
    if n == 0 {
      TidyAtFirst(limits, states, events);
    } else {
      StepOf(limits, states, events, n - 1);
      RunsAreTidy(limits, states, events, n - 1);
      TidyKept(limits, states[n - 1], events[n - 1]);
    }
  }

  lemma TidyAtFirst(limits: Limits, states: seq<State>, events: seq<Event>)
    requires IsServiceRun(limits, states, events)
    ensures |states| > 0 && Tidy(limits, states[0])
  {
    hide Enabled, After, Sound;
    InitialSound(limits);
  }

  // ---- from one moment to a later one ----

  /** Everything there is of the id, row, bytes or upload, is of that name; a row of it is marked. */
  ghost predicate Settled(s: State, id: Id, name: Bytes) {
    && id in s.world.history.blobsMade
    && (id in s.world.db.blobs ==> NameOf(s.world.db.blobs[id]) == name && s.world.db.blobs[id].uploadedAt.Some?)
    && (id in s.storage ==> s.storage[id] == name)
    && (forall u :: u in s.uploading && u.Putting? && u.id == id ==> u.bytes == name)
  }

  lemma SettledAfterCall(limits: Limits, s: State, e: Event, id: Id, name: Bytes)
    requires Tidy(limits, s) && Enabled(s, e) && Settled(s, id, name) && CallOf(e).Some?
    ensures Settled(After(limits, s, e), id, name)
  {
    hide Sound, Step, Recorded, BlobNamed, PurgedBlobs, Usable, NewIds, BytesMatch, UploadsMatch, OnlyMade, Accounted, Stranded, HandedBack, ConservedIn;
    RowsAreMinted(limits, s.world);
    var call := CallOf(e).value;
    HistoryGrows(limits, s.world, call.op, call.now);
    RowKeptByStep(limits, s.world.db, call.op, call.now, id);
  }

  lemma SettledKept(limits: Limits, s: State, e: Event, id: Id, name: Bytes)
    requires Tidy(limits, s) && Enabled(s, e) && Settled(s, id, name)
    ensures Settled(After(limits, s, e), id, name)
  {
    hide Tidy, Next, Admissible;
    if CallOf(e).Some? {
      SettledAfterCall(limits, s, e, id, name);
    }
  }

  lemma {:induction false} StaysSettled(limits: Limits, states: seq<State>, events: seq<Event>, n: nat, m: nat, id: Id, name: Bytes)
    requires IsServiceRun(limits, states, events) && n <= m < |states| && Settled(states[n], id, name)
    ensures Settled(states[m], id, name)
    decreases m
  {
    hide IsServiceRun, Tidy, Enabled, After, Settled, Sound;
    if m > n {
      StepOf(limits, states, events, m - 1);
      StaysSettled(limits, states, events, n, m - 1, id, name);
      RunsAreTidy(limits, states, events, m - 1);
      SettledKept(limits, states[m - 1], events[m - 1], id, name);
    }
  }

  /**
   * In every run, a blob whose row is looked at in one state and whose bytes
   * are got in that or a later one: they are exactly what the row named, and
   * they are there while the row is.
   */
  lemma ServedAsNamed(limits: Limits, states: seq<State>, events: seq<Event>, n: nat, m: nat, id: Id, now: Time)
    requires IsServiceRun(limits, states, events) && n <= m < |states| && Served(states[n], id, now)
    ensures id in states[m].storage ==> states[m].storage[id] == NameOf(states[n].world.db.blobs[id])
    ensures id in states[m].world.db.blobs ==> id in states[m].storage
    ensures id in LiveBlobBytes(states[n].world.db.blobs, states[n].world.db.blobs[id].owner, now) && id !in LapsedBlobs(states[n].world.db.blobs, now)
  {
    hide Enabled, After, Sound, OnlyMade, Accounted, Stranded;
    RunsAreTidy(limits, states, events, n);
    RowsAreMinted(limits, states[n].world);
    StaysSettled(limits, states, events, n, m, id, NameOf(states[n].world.db.blobs[id]));
    RunsAreTidy(limits, states, events, m);
  }

  // ---- bytes left behind ----

  /** Bytes with no row or ended id to answer for them and no deletion under way. */
  predicate LeftBehind(s: State, id: Id) {
    id in s.storage && !Answered(s.world.db, id) && id !in s.deleting
  }

  /**
   * In every run: bytes are left behind iff an upload put them after its row
   * had been handed back and deleted, or their deletion was cut off.
   */
  lemma BytesLeftBehind(limits: Limits, states: seq<State>, events: seq<Event>, n: nat, id: Id)
    requires IsServiceRun(limits, states, events) && n < |states|
    ensures LeftBehind(states[n], id) <==> id in states[n].late || (id in states[n].lost && id in states[n].storage)
  {
    hide Enabled, After, Sound, HandedBack;
    RunsAreTidy(limits, states, events, n);
    HandedAreGone(limits, states[n].world);
  }

  lemma LeftBehindAfterCall(limits: Limits, s: State, e: Event, id: Id)
    requires Tidy(limits, s) && Enabled(s, e) && LeftBehind(s, id) && CallOf(e).Some?
    ensures LeftBehind(After(limits, s, e), id)
  {
    hide Sound, Next, Admissible, HandedBack, BytesMatch, UploadsMatch, Accounted, Stranded, ClaimOf, BlobNamed, PurgedBlobs, ConservedIn;
    MadeAreSomewhere(limits, s.world);
    SoundAfter(limits, s, e);
    HandedAreGone(limits, s.world);
    HandedAreGone(limits, After(limits, s, e).world);
    HistoryGrows(limits, s.world, CallOf(e).value.op, CallOf(e).value.now);
    NamedAreRows(s.world.db);
  }

  /** A step from where bytes are left behind leaves them there. */
  lemma LeftBehindStays(limits: Limits, s: State, e: Event, id: Id)
    requires Tidy(limits, s) && Enabled(s, e) && LeftBehind(s, id)
    ensures LeftBehind(After(limits, s, e), id)
  {
    hide Tidy, Next, Admissible;
    if CallOf(e).Some? {
      LeftBehindAfterCall(limits, s, e, id);
    }
  }

  /** In every run, for good: once left behind, bytes are left behind in every later state. */
  lemma {:induction false} LeftBehindForGood(limits: Limits, states: seq<State>, events: seq<Event>, n: nat, m: nat, id: Id)
    requires IsServiceRun(limits, states, events) && n <= m < |states| && LeftBehind(states[n], id)
    ensures LeftBehind(states[m], id)
    decreases m
  {
    hide IsServiceRun, Tidy, Enabled, After, LeftBehind, Sound;
    if m > n {
      StepOf(limits, states, events, m - 1);
      LeftBehindForGood(limits, states, events, n, m - 1, id);
      RunsAreTidy(limits, states, events, m - 1);
      LeftBehindStays(limits, states[m - 1], events[m - 1], id);
    }
  }
}
