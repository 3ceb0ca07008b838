/**
 * Listing an account's replicas a page at a time, while replicas come and go
 * between the pages: the pages are the roster as it was when the listing
 * began, whole and in order, or the listing is refused.
 */
module RosterPages {
  import opened Dids
  import opened Tables
  import opened Numbering
  import opened StoreSpec
  import opened StoreRuns
  import opened StoreFrames
  import opened Rosters
  import opened Soundness

  /** What a replica's row says that never changes, and when it was removed. */
  datatype Entry = Entry(did: Did, grant: Text, addedTime: nat, removedTime: Option<nat>)

  datatype Roster = Roster(registration: Id, size: nat, entries: seq<Entry>)

  /** Which of the account's replicas a page takes: past `after`, up to `through`, the first `limit` of them. */
  function Upto(size: nat, after: int, through: Option<int>, limit: nat): (n: int) {
    var end := if through.Some? && through.value < size then through.value else size;
    if after + limit < end then after + limit else end
  }

  function EntryOf(db: Db, did: Did): (e: Entry)
    requires did in db.replicas
  {
    var row := db.replicas[did];
    Entry(did, row.grant, row.registeredAt, row.removedAt)
  }

  ghost function RosterOrder(db: Db, account: Did): (r: seq<Did>)
    requires Rostered(db.replicas)
    ensures IsNumbering(Ordinals(db.replicas, account), r)
  {
    OrderOf(Ordinals(db.replicas, account))
  }

  /** Members ordered by ordinal are the numbering's order, so those past one ordinal and up to another are a slice of it. */
  ghost function RosterPage(db: Db, account: Did, mediator: Did, after: int, through: Option<int>, limit: nat): (r: Option<Roster>)
    requires Rostered(db.replicas)
  {
    if !IsAccount(db, account, mediator) then None
    else
      var order := RosterOrder(db, account);
      Some(Roster(db.replicaAccounts[account].registration, |order|, EntriesOf(db, account, after, Upto(|order|, after, through, limit))))
  }

  ghost function EntriesOf(db: Db, account: Did, after: int, upto: int): (r: seq<Entry>)
    requires Rostered(db.replicas)
    requires upto <= |RosterOrder(db, account)|
  {
    var order := RosterOrder(db, account);
    if 0 <= after <= upto then seq(upto - after, i requires 0 <= i < upto - after => assert order[after + i] in Ordinals(db.replicas, account); EntryOf(db, order[after + i]))
    else []
  }

  // ---- the request ----

  /** A cursor as a client holds it: its members in order, whoever wrote them. */
  datatype Cursor = Cursor(account: Did, registration: Id, through: int, after: int)

  function ReadCursor(written: Cursor): (r: Option<Cursor>) {
    if written.after < 1 || written.after >= written.through then None else Some(written)
  }

  datatype Reply = InvalidMessage | AccountUnknown | Page(entries: seq<Entry>, next: Option<Cursor>)

  ghost function ReplicaList(db: Db, sender: Did, mediator: Did, written: Option<Cursor>, limit: int, maxPage: nat): (r: Reply)
    requires Rostered(db.replicas)
  {
    var cursor := if written.Some? then ReadCursor(written.value) else None;
    if (written.Some? && (cursor.None? || cursor.value.account != sender)) || limit < 1 || limit > maxPage then InvalidMessage
    else
      var after := if cursor.Some? then cursor.value.after else 0;
      var roster := RosterPage(db, sender, mediator, after, if cursor.Some? then Some(cursor.value.through) else None, limit);
      if roster.None? then AccountUnknown
      else
        var through := if cursor.Some? then cursor.value.through else roster.value.size;
        if (cursor.Some? && cursor.value.registration != roster.value.registration) || through > roster.value.size then InvalidMessage
        else
          var last := if roster.value.entries == [] then through else after + |roster.value.entries|;
          Page(roster.value.entries, if last < through then Some(Cursor(sender, roster.value.registration, through, last)) else None)
  }

  // ---- one page ----

  /** Where a page began and the roster it lists to. */
  function After(written: Option<Cursor>): (n: int) {
    if written.Some? then written.value.after else 0
  }

  ghost function Through(db: Db, sender: Did, written: Option<Cursor>): (n: int)
    requires Rostered(db.replicas)
  {
    if written.Some? then written.value.through else |RosterOrder(db, sender)|
  }

  /**
   * A page answered is the roster from where the last one ended, not empty
   * unless the roster is; its cursor, when it has one, reads back and is
   * closer to the end, and it has none exactly when the end is reached.
   */
  lemma PageIsSlice(db: Db, sender: Did, mediator: Did, written: Option<Cursor>, limit: int, maxPage: nat)
    requires Rostered(db.replicas)
    requires ReplicaList(db, sender, mediator, written, limit, maxPage).Page?
    ensures var page := ReplicaList(db, sender, mediator, written, limit, maxPage);
      var after, through, n := After(written), Through(db, sender, written), |page.entries|;
      var order := RosterOrder(db, sender);
      && IsAccount(db, sender, mediator)
      && 0 <= after <= after + n <= through <= |order|
      && (forall i :: 0 <= i < n ==> order[after + i] in db.replicas && page.entries[i] == EntryOf(db, order[after + i]))
      && (page.next.None? <==> after + n == through)
      && (page.next.Some? ==>
            && n > 0
            && page.next.value == Cursor(sender, db.replicaAccounts[sender].registration, through, after + n)
            && ReadCursor(page.next.value) == Some(page.next.value)
            && through - page.next.value.after < through - after)
      && (written.Some? ==> written.value.registration == db.replicaAccounts[sender].registration)
  {
    hide Rostered;
    var order := RosterOrder(db, sender);
    assert forall i :: 0 <= i < |order| ==> order[i] in Ordinals(db.replicas, sender);
  }

  /** A cursor the account was handed for the roster as it is now numbered. */
  ghost predicate CursorFits(db: Db, sender: Did, cursor: Cursor)
    requires Rostered(db.replicas) && sender in db.replicaAccounts
  {
    cursor.registration == db.replicaAccounts[sender].registration && cursor.through <= |RosterOrder(db, sender)|
  }

  /**
   * Invalid iff the limit is out of bounds, the cursor is another account's
   * or no place in a roster, or it does not fit the account's; unknown iff it
   * is readable and the account is not registered there; and otherwise a page
   * of the limit's size, or of what is left.
   */
  lemma PageAnsweredExactly(db: Db, sender: Did, mediator: Did, written: Option<Cursor>, limit: int, maxPage: nat)
    requires Rostered(db.replicas)
    ensures var reply := ReplicaList(db, sender, mediator, written, limit, maxPage);
      var readable := 1 <= limit <= maxPage && (written.Some? ==> written.value.account == sender && 1 <= written.value.after < written.value.through);
      var stands := sender in db.replicaAccounts && db.replicaAccounts[sender].mediator == mediator;
      && (reply.AccountUnknown? <==> readable && !stands)
      && (reply.Page? <==> readable && stands && (written.Some? ==> CursorFits(db, sender, written.value)))
      && (reply.Page? ==>
            var left := Through(db, sender, written) - After(written);
            |reply.entries| == if limit < left then limit else left)
  {
    hide Rostered;
  }

  // ---- the roster from call to call ----

  /** While the account stays, its registration does, its roster is at most extended, and its replicas keep their grants. */
  ghost predicate RosterGoesOn(db: Db, after: Db, account: Did) {
    (account in db.replicaAccounts && account in after.replicaAccounts) ==>
      && after.replicaAccounts[account].registration == db.replicaAccounts[account].registration
      && Rostered(db.replicas) && Rostered(after.replicas)
      && RosterOrder(db, account) <= RosterOrder(after, account)
      && SameGrants(db, after, account)
  }

  ghost predicate SameGrants(db: Db, after: Db, account: Did) {
    forall r :: r in db.replicas && db.replicas[r].account == account ==>
      r in after.replicas && after.replicas[r].account == account
      && after.replicas[r].grant == db.replicas[r].grant && after.replicas[r].registeredAt == db.replicas[r].registeredAt
  }

  lemma RosterUnchanged(db: Db, after: Db, account: Did)
    requires Rostered(db.replicas)
    requires after.replicas == db.replicas
    requires account in db.replicaAccounts && account in after.replicaAccounts ==> after.replicaAccounts[account].registration == db.replicaAccounts[account].registration
    ensures RosterGoesOn(db, after, account)
  {
    hide Rostered;
  }

  lemma RosterAfterEnrollment(limits: Limits, db: Db, account: Did, mediator: Did, replica: Did, longForm: Did, grant: Text, now: Time, a: Did)
    requires Rostered(db.replicas)
    ensures RosterGoesOn(db, AddReplica(limits, db, account, mediator, replica, longForm, grant, now), a)
  {
    hide Numbered, Ordinals, NotOrdinary, ActiveMembers, IsNumbering;
    var r := AddReplica(limits, db, account, mediator, replica, longForm, grant, now);
    if MayEnroll(limits, db, account, mediator, replica, longForm) {
      RosteredAfterEnrollment(db.replicas, replica, r.replicas[replica]);
      OrdinalsAfterEnrollment(db.replicas, replica, r.replicas[replica]);
      assert a != account ==> Ordinals(r.replicas, a) == Ordinals(db.replicas, a);
    }
  }

  lemma RosterAfterRemoval(db: Db, account: Did, mediator: Did, replica: Did, now: Time, a: Did)
    requires Rostered(db.replicas)
    ensures RosterGoesOn(db, RemoveReplica(db, account, mediator, replica, now), a)
  {
    hide Numbered, Ordinals, LastAmong, UploadsWithout, BlobsOf, IsNumbering;
    var r := RemoveReplica(db, account, mediator, replica, now);
    if IsMember(db, account, mediator, replica) {
      OrdinalsAfterRemoval(db.replicas, replica, r.replicas[replica]);
      assert forall b :: Numbered(Ordinals(r.replicas, b)) by {
        forall b ensures Numbered(Ordinals(r.replicas, b)) {
          assert Ordinals(r.replicas, b) == Ordinals(db.replicas, b);
        }
      }
      assert Ordinals(r.replicas, a) == Ordinals(db.replicas, a);
    }
  }

  lemma RosterAfterDeletion(limits: Limits, db: Db, account: Did, mediator: Did, now: Time, a: Did)
    requires Rostered(db.replicas)
    ensures RosterGoesOn(db, DeleteReplicaAccount(db, account, mediator), a)
  {
    hide Numbered, Ordinals, IsNumbering, Rostered, DeleteReplicaAccount, IsAccount, Members;
    var r := DeleteReplicaAccount(db, account, mediator);
    RosteredAfterMembership(limits, db, DeleteAccount(account, mediator), now);
    DeletionLeaves(db, account, mediator);
    if IsAccount(db, account, mediator) && a != account {
      OrdinalsAfterDeletion(db.replicas, account);
      assert Ordinals(r.replicas, a) == Ordinals(db.replicas, a);
      OthersStay(db.replicas, account, a);
    }
  }

  lemma DeletionLeaves(db: Db, account: Did, mediator: Did)
    ensures var r := DeleteReplicaAccount(db, account, mediator);
      if IsAccount(db, account, mediator) then r.replicas == db.replicas - Members(db.replicas, account) && r.replicaAccounts == db.replicaAccounts - {account}
      else r == db
  {
    hide Members, DeliveriesWithout, UploadsWithout, SlotsWithout, BlobsOfAny, PackagesOf, ExecutionsOf, RecipientsOf;
  }

  lemma OthersStay(replicas: map<Did, Replica>, account: Did, a: Did)
    requires a != account
    ensures forall r :: r in replicas && replicas[r].account == a ==> r in replicas - Members(replicas, account)
  {
  }

  lemma RosterAfterMembership(limits: Limits, db: Db, op: MembershipOp, now: Time, account: Did)
    requires Rostered(db.replicas)
    ensures RosterGoesOn(db, MembershipStep(limits, db, op, now), account)
  {
    hide RosterGoesOn, Rostered, DeleteReplicaAccount, AddReplica, RemoveReplica, RegisterReplicaAccount;
    match op
    case DeleteAccount(a, mediator) => RosterAfterDeletion(limits, db, a, mediator, now, account);
    case Enroll(a, mediator, replica, longForm, grant) => RosterAfterEnrollment(limits, db, a, mediator, replica, longForm, grant, now, account);
    case RemoveMember(a, mediator, replica) => RosterAfterRemoval(db, a, mediator, replica, now, account);
    case Register(did, longForm, mediator, create, id) =>
      RosterAfterRegistration(db, did, longForm, mediator, create, id, now, account);
    case _ => RosterUnchanged(db, MembershipStep(limits, db, op, now), account);
  }

  lemma RosterAfterRegistration(db: Db, did: Did, longForm: Did, mediator: Did, create: bool, id: Id, now: Time, account: Did)
    requires Rostered(db.replicas)
    ensures RosterGoesOn(db, RegisterReplicaAccount(db, did, longForm, mediator, create, id, now), account)
  {
    hide RosterGoesOn, Rostered, MayRegister;
    MayRegisterMeans(db, did, longForm);
    RosterUnchanged(db, RegisterReplicaAccount(db, did, longForm, mediator, create, id, now), account);
  }

  lemma MayRegisterMeans(db: Db, did: Did, longForm: Did)
    ensures MayRegister(db, did, longForm) ==> did !in db.replicaAccounts
  {
  }

  lemma RosterStep(limits: Limits, db: Db, op: Op, now: Time, account: Did)
    requires Usable(db, op) && Rostered(db.replicas)
    ensures RosterGoesOn(db, Step(limits, db, op, now), account)
  {
    hide RosterGoesOn, Rostered, OrdinaryStep, MembershipStep, MailStep, ExecutionStep, BlobStep;
    var r := Step(limits, db, op, now);
    match op
    case Ordinary(o) => OrdinaryFrame(limits, db, o, now); RosterUnchanged(db, r, account);
    case Membership(m) => RosterAfterMembership(limits, db, m, now, account);
    case Mail(m) => MailFrame(limits, db, m, now); RosterUnchanged(db, r, account);
    case Executions(e) => ExecutionFrame(limits, db, e, now); RosterUnchanged(db, r, account);
    case Blobs(b) => BlobFrame(limits, db, b, now); RosterUnchanged(db, r, account);
  }

  // ---- over every run ----

  /** The account is there, under that registration. */
  predicate Holds(db: Db, account: Did, registration: Id) {
    account in db.replicaAccounts && db.replicaAccounts[account].registration == registration
  }

  lemma OnlyNewRegister(limits: Limits, db: Db, op: Op, now: Time, account: Did, registration: Id)
    requires Usable(db, op)
    ensures Holds(Step(limits, db, op, now), account, registration) ==> Holds(db, account, registration) || registration in NewIds(op)
  {
    hide OrdinaryStep, MembershipStep, MailStep, ExecutionStep, BlobStep, NewIds;
    match op
    case Ordinary(o) => OrdinaryFrame(limits, db, o, now);
    case Membership(m) => RegistrationsAfterMembership(limits, db, m, now, account);
    case Mail(m) => MailFrame(limits, db, m, now);
    case Executions(e) => ExecutionFrame(limits, db, e, now);
    case Blobs(b) => BlobFrame(limits, db, b, now);
  }

  lemma RosteredIn(limits: Limits, w: World)
    requires Sound(limits, w)
    ensures Rostered(w.db.replicas)
    ensures forall a :: a in w.db.replicaAccounts ==> w.db.replicaAccounts[a].registration in w.minted
  {
  }

  lemma {:induction false} MintedFrom(limits: Limits, worlds: seq<World>, calls: seq<Call>, i: nat, n: nat, account: Did, registration: Id)
    requires IsRun(limits, worlds, calls) && i <= n < |worlds|
    requires Holds(worlds[i].db, account, registration)
    ensures registration in worlds[n].minted
    decreases n
  {
    hide Sound, Step, Recorded, Usable, NewIds, Rostered;
    if n == i {
      RunsAreSound(limits, worlds, calls, i);
      RosteredIn(limits, worlds[i]);
    } else {
      MintedFrom(limits, worlds, calls, i, n - 1, account, registration);
      assert Follows(limits, worlds[n - 1], calls[n - 1], worlds[n]);
    }
  }

  /** A registration that has gone never comes back. */
  lemma RegistrationNeverReturns(limits: Limits, worlds: seq<World>, calls: seq<Call>, i: nat, m: nat, n: nat, account: Did, registration: Id)
    requires IsRun(limits, worlds, calls) && i <= m <= n < |worlds|
    requires Holds(worlds[i].db, account, registration) && Holds(worlds[n].db, account, registration)
    ensures Holds(worlds[m].db, account, registration)
    decreases n - m
  {
    if m < n {
      hide Sound, Step, Recorded, Usable, NewIds;
      RegistrationNeverReturns(limits, worlds, calls, i, m + 1, n, account, registration);
      assert Follows(limits, worlds[m], calls[m], worlds[m + 1]);
      MintedFrom(limits, worlds, calls, i, m, account, registration);
      OnlyNewRegister(limits, worlds[m].db, calls[m].op, calls[m].now, account, registration);
    }
  }

  /** Between two states of one registration the roster is at most extended, its replicas keeping their grants. */
  lemma {:induction false} RosterStands(limits: Limits, worlds: seq<World>, calls: seq<Call>, i: nat, n: nat, account: Did, registration: Id)
    requires IsRun(limits, worlds, calls) && i <= n < |worlds|
    requires Holds(worlds[i].db, account, registration) && Holds(worlds[n].db, account, registration)
    ensures Rostered(worlds[i].db.replicas) && Rostered(worlds[n].db.replicas)
    ensures RosterOrder(worlds[i].db, account) <= RosterOrder(worlds[n].db, account)
    ensures SameGrants(worlds[i].db, worlds[n].db, account)
    decreases n
  {
    hide Sound, Step, Recorded, Usable, NewIds, Rostered;
    RunsAreSound(limits, worlds, calls, n);
    RosteredIn(limits, worlds[n]);
    if i < n {
      RegistrationNeverReturns(limits, worlds, calls, i, n - 1, n, account, registration);
      RosterStands(limits, worlds, calls, i, n - 1, account, registration);
      assert Follows(limits, worlds[n - 1], calls[n - 1], worlds[n]);
      RosterStep(limits, worlds[n - 1].db, calls[n - 1].op, calls[n - 1].now, account);
    }
  }

  // ---- a listing ----

  /** A request for a page: at which state of the run, and for how many entries. */
  datatype Request = Request(at: nat, limit: int)

  /** The pages of one listing: the first with no cursor, each other with the one the page before gave. */
  ghost predicate IsListing(limits: Limits, worlds: seq<World>, calls: seq<Call>, sender: Did, mediator: Did, maxPage: nat, requests: seq<Request>, pages: seq<Reply>)
    requires IsRun(limits, worlds, calls)
  {
    && |requests| == |pages| > 0
    && (forall k :: 0 <= k < |requests| ==> requests[k].at < |worlds| && Rostered(worlds[requests[k].at].db.replicas) && pages[k].Page?)
    && (forall k :: 0 <= k < |pages| - 1 ==> requests[k].at <= requests[k + 1].at && pages[k].next.Some?)
    && (forall k :: 0 <= k < |requests| ==>
          pages[k] == ReplicaList(worlds[requests[k].at].db, sender, mediator, CursorFor(pages, k), requests[k].limit, maxPage))
  }

  function CursorFor(pages: seq<Reply>, k: nat): (r: Option<Cursor>)
    requires k <= |pages| && (k > 0 ==> pages[k - 1].Page?)
  {
    if k == 0 then None else pages[k - 1].next
  }

  /** The entries of the first k pages, one after the other. */
  function Listed(pages: seq<Reply>, k: nat): (r: seq<Entry>)
    requires k <= |pages| && forall j :: 0 <= j < |pages| ==> pages[j].Page?
  {
    if k == 0 then [] else Listed(pages, k - 1) + pages[k - 1].entries
  }

  ghost predicate SameEntry(db: Db, did: Did, e: Entry) {
    did in db.replicas && e.did == did && e.grant == db.replicas[did].grant && e.addedTime == db.replicas[did].registeredAt
  }

  /** What is listed so far is the beginning of the roster, with the cursor that goes on from there, or the whole of it. */
  ghost predicate Begun(start: Db, sender: Did, listed: seq<Entry>, next: Option<Cursor>)
    requires Rostered(start.replicas)
  {
    var order := RosterOrder(start, sender);
    && sender in start.replicaAccounts
    && |listed| <= |order|
    && (forall i :: 0 <= i < |listed| ==> SameEntry(start, order[i], listed[i]))
    && (next.None? <==> |listed| == |order|)
    && (next.Some? ==> next.value == Cursor(sender, start.replicaAccounts[sender].registration, |order|, |listed|))
  }

  lemma FirstPage(start: Db, sender: Did, mediator: Did, limit: int, maxPage: nat)
    requires Rostered(start.replicas)
    requires ReplicaList(start, sender, mediator, None, limit, maxPage).Page?
    ensures var page := ReplicaList(start, sender, mediator, None, limit, maxPage); Begun(start, sender, page.entries, page.next)
  {
    hide Rostered, ReplicaList, RosterOrder;
    PageIsSlice(start, sender, mediator, None, limit, maxPage);
    var page, order := ReplicaList(start, sender, mediator, None, limit, maxPage), RosterOrder(start, sender);
    forall i | 0 <= i < |page.entries| ensures SameEntry(start, order[i], page.entries[i]) {
      assert order[After(None) + i] == order[i];
    }
  }

  lemma NextPage(start: Db, db: Db, sender: Did, mediator: Did, listed: seq<Entry>, cursor: Cursor, limit: int, maxPage: nat)
    requires Rostered(start.replicas) && Rostered(db.replicas)
    requires RosterOrder(start, sender) <= RosterOrder(db, sender) && SameGrants(start, db, sender)
    requires Begun(start, sender, listed, Some(cursor))
    requires ReplicaList(db, sender, mediator, Some(cursor), limit, maxPage).Page?
    ensures var page := ReplicaList(db, sender, mediator, Some(cursor), limit, maxPage); Begun(start, sender, listed + page.entries, page.next)
  {
    hide Rostered, ReplicaList, RosterOrder, SameGrants, SameEntry;
    var page := ReplicaList(db, sender, mediator, Some(cursor), limit, maxPage);
    PageIsSlice(db, sender, mediator, Some(cursor), limit, maxPage);
    PageContinues(start, db, sender, page.entries, |listed|);
    var more, order := listed + page.entries, RosterOrder(start, sender);
    forall i | 0 <= i < |more| ensures SameEntry(start, order[i], more[i]) {
      if i >= |listed| {
        assert SameEntry(start, order[|listed| + (i - |listed|)], page.entries[i - |listed|]);
      }
    }
  }

  /**
   * Whatever is enrolled or removed meanwhile: the pages so far are the first
   * replicas of the roster as it was at first, each once and in order, and
   * a page with no cursor is the last, the roster then listed whole.
   */
  lemma {:induction false} PagesAreTheRoster(limits: Limits, worlds: seq<World>, calls: seq<Call>, sender: Did, mediator: Did, maxPage: nat, requests: seq<Request>, pages: seq<Reply>, k: nat)
    requires IsRun(limits, worlds, calls)
    requires IsListing(limits, worlds, calls, sender, mediator, maxPage, requests, pages)
    requires 0 < k <= |pages|
    ensures Begun(worlds[requests[0].at].db, sender, Listed(pages, k), pages[k - 1].next)
  {
    hide Rostered, ReplicaList, RosterOrder, IsRun, Begun;
    var start, db := worlds[requests[0].at].db, worlds[requests[k - 1].at].db;
    if k == 1 {
      FirstPage(start, sender, mediator, requests[0].limit, maxPage);
      assert Listed(pages, 1) == pages[0].entries;
    } else {
      PagesAreTheRoster(limits, worlds, calls, sender, mediator, maxPage, requests, pages, k - 1);
      AtOrdered(limits, worlds, calls, sender, mediator, maxPage, requests, pages, k - 1);
      var cursor := pages[k - 2].next.value;
      CursorHolds(start, db, sender, mediator, Listed(pages, k - 1), cursor, requests[k - 1].limit, maxPage);
      RosterStands(limits, worlds, calls, requests[0].at, requests[k - 1].at, sender, cursor.registration);
      NextPage(start, db, sender, mediator, Listed(pages, k - 1), cursor, requests[k - 1].limit, maxPage);
    }
  }

  lemma CursorHolds(start: Db, db: Db, sender: Did, mediator: Did, listed: seq<Entry>, cursor: Cursor, limit: int, maxPage: nat)
    requires Rostered(start.replicas) && Rostered(db.replicas)
    requires Begun(start, sender, listed, Some(cursor))
    requires ReplicaList(db, sender, mediator, Some(cursor), limit, maxPage).Page?
    ensures Holds(start, sender, cursor.registration) && Holds(db, sender, cursor.registration)
  {
    hide Rostered, ReplicaList, RosterOrder;
    PageIsSlice(db, sender, mediator, Some(cursor), limit, maxPage);
  }

  lemma PageContinues(start: Db, db: Db, sender: Did, entries: seq<Entry>, after: nat)
    requires Rostered(start.replicas) && Rostered(db.replicas)
    requires RosterOrder(start, sender) <= RosterOrder(db, sender) && SameGrants(start, db, sender)
    requires after + |entries| <= |RosterOrder(start, sender)|
    requires forall i :: 0 <= i < |entries| ==> RosterOrder(db, sender)[after + i] in db.replicas && entries[i] == EntryOf(db, RosterOrder(db, sender)[after + i])
    ensures forall i :: 0 <= i < |entries| ==> SameEntry(start, RosterOrder(start, sender)[after + i], entries[i])
  {
    var order := RosterOrder(start, sender);
    forall i | 0 <= i < |entries| ensures SameEntry(start, order[after + i], entries[i]) {
      assert order[after + i] in Ordinals(start.replicas, sender);
    }
  }

  lemma {:induction false} AtOrdered(limits: Limits, worlds: seq<World>, calls: seq<Call>, sender: Did, mediator: Did, maxPage: nat, requests: seq<Request>, pages: seq<Reply>, k: nat)
    requires IsRun(limits, worlds, calls)
    requires IsListing(limits, worlds, calls, sender, mediator, maxPage, requests, pages)
    requires k < |pages|
    ensures requests[0].at <= requests[k].at
  {
    hide ReplicaList, IsRun;
    if k > 0 {
      AtOrdered(limits, worlds, calls, sender, mediator, maxPage, requests, pages, k - 1);
    }
  }

  /** A cursor of a registration that has ended is refused, whatever has been registered since. */
  lemma EndedCursorRefused(limits: Limits, worlds: seq<World>, calls: seq<Call>, i: nat, m: nat, n: nat, sender: Did, mediator: Did, cursor: Cursor, limit: int, maxPage: nat)
    requires IsRun(limits, worlds, calls) && i <= m <= n < |worlds|
    requires Holds(worlds[i].db, sender, cursor.registration) && !Holds(worlds[m].db, sender, cursor.registration)
    ensures Rostered(worlds[n].db.replicas)
    ensures !ReplicaList(worlds[n].db, sender, mediator, Some(cursor), limit, maxPage).Page?
  {
    hide Rostered, ReplicaList, IsRun, Sound;
    assert |worlds| == |calls| + 1 by { RunLength(limits, worlds, calls); }
    RunsAreSound(limits, worlds, calls, n);
    RosteredIn(limits, worlds[n]);
    if Holds(worlds[n].db, sender, cursor.registration) {
      RegistrationNeverReturns(limits, worlds, calls, i, m, n, sender, cursor.registration);
    }
    if ReplicaList(worlds[n].db, sender, mediator, Some(cursor), limit, maxPage).Page? {
      PageIsSlice(worlds[n].db, sender, mediator, Some(cursor), limit, maxPage);
    }
  }

  lemma RunLength(limits: Limits, worlds: seq<World>, calls: seq<Call>)
    requires IsRun(limits, worlds, calls)
    ensures |worlds| == |calls| + 1
  {
  }
}
