/**
 * Listing an account's shared recipients a page at a time, under any adds and
 * removes of others between the pages: each recipient held throughout is
 * listed once, in the order of when it was added and then of its DID.
 */
module RecipientPages {
  import opened Dids
  import opened Tables
  import opened Listing
  import opened StoreSpec
  import opened Waiting

  /** Where the store orders a recipient. */
  datatype Place = Place(addedAt: int, did: Did)

  /** Where the text of a DID comes among those of one hash: the short form, then its long ones. */
  function Length(did: Did): (n: nat)
    requires !did.Other?
  {
    if did.Short? then 0 else did.document + 1
  }

  /** The order of the texts: a short form before its long ones, those before the next short form, any other text last. */
  predicate TextBefore(a: Did, b: Did) {
    if a.Other? then b.Other? && a.text < b.text
    else b.Other? || a.hash < b.hash || (a.hash == b.hash && Length(a) < Length(b))
  }

  predicate Before(p: Place, q: Place) {
    p.addedAt < q.addedAt || (p.addedAt == q.addedAt && TextBefore(p.did, q.did))
  }

  lemma BeforeIsTotal(p: Place, q: Place, r: Place)
    ensures !Before(p, p)
    ensures p != q ==> Before(p, q) || Before(q, p)
    ensures Before(p, q) && Before(q, r) ==> Before(p, r)
  {
  }

  predicate AtOrBefore(p: Place, q: Place) {
    p == q || Before(p, q)
  }

  // ---- the store's answer ----

  /** The account's recipients past a place, all of them when none is named. */
  function PlacesAfter(recipients: map<Did, Recipient>, account: Did, after: Option<Place>): (r: set<Place>) {
    set d | d in recipients && recipients[d].account == account && (after.None? || Before(after.value, Place(recipients[d].createdAt, d))) :: Place(recipients[d].createdAt, d)
  }

  lemma PlacesAreTotal(keys: set<Place>)
    ensures StrictTotalOn(keys, Before)
  {
    forall a, b, c | a in keys && b in keys && c in keys ensures !Before(a, a) && (a != b ==> Before(a, b) || Before(b, a)) && (Before(a, b) && Before(b, c) ==> Before(a, c)) {
      BeforeIsTotal(a, b, c);
    }
    forall a | a in keys ensures !Before(a, a) {
      BeforeIsTotal(a, a, a);
    }
  }

  datatype SharedPage = SharedPage(registration: Id, places: seq<Place>, more: bool)

  /** The first `limit` past the place, and whether one more was found. */
  ghost function SharedRecipients(db: Db, account: Did, mediator: Did, after: Option<Place>, limit: nat): (r: Option<SharedPage>) {
    if !IsAccount(db, account, mediator) then None
    else
      var keys := PlacesAfter(db.recipients, account, after);
      PlacesAreTotal(keys);
      var rows := Sorted(keys, Before);
      Some(SharedPage(db.replicaAccounts[account].registration, First(rows, limit), |rows| > limit))
  }

  // ---- the request ----

  datatype Cursor = Cursor(account: Did, registration: Id, after: Place)

  datatype Reply = InvalidMessage | AccountUnknown | Page(entries: seq<Place>, next: Option<Cursor>)

  ghost function RecipientList(db: Db, sender: Did, mediator: Did, cursor: Option<Cursor>, limit: int, maxPage: nat): (r: Reply) {
    if (cursor.Some? && cursor.value.account != sender) || limit < 1 || limit > maxPage then InvalidMessage
    else
      var page := SharedRecipients(db, sender, mediator, if cursor.Some? then Some(cursor.value.after) else None, limit);
      if page.None? then AccountUnknown
      else if cursor.Some? && cursor.value.registration != page.value.registration then InvalidMessage
      else
        var places := page.value.places;
        Page(places, if page.value.more && places != [] then Some(Cursor(sender, page.value.registration, places[|places| - 1])) else None)
  }

  // ---- one page ----

  /** What an answered page says of the recipients there, given where it began. */
  ghost predicate Answers(db: Db, sender: Did, after: Option<Place>, entries: seq<Place>, next: Option<Place>) {
    var keys := PlacesAfter(db.recipients, sender, after);
    && Ascending(entries, Before)
    && (forall p :: p in entries ==> p in keys)
    && (next.None? ==> forall p :: p in keys ==> p in entries)
    && (next.Some? ==> entries != [] && next.value == entries[|entries| - 1])
    && (next.Some? ==> forall p :: p in keys && AtOrBefore(p, next.value) ==> p in entries)
  }

  function PlaceIn(cursor: Option<Cursor>): (p: Option<Place>) {
    if cursor.Some? then Some(cursor.value.after) else None
  }

  lemma SharedAnswers(db: Db, sender: Did, mediator: Did, after: Option<Place>, limit: nat)
    requires limit >= 1 && IsAccount(db, sender, mediator)
    ensures var page := SharedRecipients(db, sender, mediator, after, limit).value;
      && (page.more ==> page.places != [])
      && Answers(db, sender, after, page.places, if page.more then Some(page.places[|page.places| - 1]) else None)
  {
    hide PlacesAfter, StrictTotalOn, Before, IsListing;
    var keys := PlacesAfter(db.recipients, sender, after);
    PlacesAreTotal(keys);
    FirstAnswers(Sorted(keys, Before), keys, limit);
  }

  lemma PageAnswers(db: Db, sender: Did, mediator: Did, cursor: Option<Cursor>, limit: int, maxPage: nat)
    requires RecipientList(db, sender, mediator, cursor, limit, maxPage).Page?
    ensures var page := RecipientList(db, sender, mediator, cursor, limit, maxPage);
      Answers(db, sender, PlaceIn(cursor), page.entries, PlaceIn(page.next))
  {
    assert limit >= 1 && IsAccount(db, sender, mediator);
    hide SharedRecipients, Answers, IsAccount;
    SharedAnswers(db, sender, mediator, PlaceIn(cursor), limit);
  }

  /** Invalid iff the limit is out of bounds or the cursor another's; unknown iff the account is not registered there; and otherwise a page of the limit's size, or of what is left. */
  lemma PageAnsweredExactly(db: Db, sender: Did, mediator: Did, cursor: Option<Cursor>, limit: int, maxPage: nat)
    ensures var reply := RecipientList(db, sender, mediator, cursor, limit, maxPage);
      var readable := 1 <= limit <= maxPage && (cursor.Some? ==> cursor.value.account == sender);
      var stands := sender in db.replicaAccounts && db.replicaAccounts[sender].mediator == mediator;
      && (reply.AccountUnknown? <==> readable && !stands)
      && (reply.Page? <==> readable && stands && (cursor.Some? ==> cursor.value.registration == db.replicaAccounts[sender].registration))
      && (reply.Page? ==>
            var left := |PlacesAfter(db.recipients, sender, PlaceIn(cursor))|;
            |reply.entries| == if limit < left then limit else left)
  {
    hide PlacesAfter, Before;
  }

  lemma FirstAnswers(rows: seq<Place>, keys: set<Place>, limit: nat)
    requires IsListing(rows, keys, Before) && limit >= 1
    ensures var entries := First(rows, limit);
      && Ascending(entries, Before)
      && (forall p :: p in entries ==> p in keys)
      && (|rows| <= limit ==> forall p :: p in keys ==> p in entries)
      && (|rows| > limit ==> entries != [] && forall p :: p in keys && AtOrBefore(p, entries[|entries| - 1]) ==> p in entries)
  {
    var entries := First(rows, limit);
    forall p | p in entries ensures p in keys {
      var i :| 0 <= i < |entries| && entries[i] == p;
      assert rows[i] in rows;
    }
    if |rows| > limit {
      var last := rows[limit - 1];
      forall p | p in keys && AtOrBefore(p, last) ensures p in entries {
        assert p in rows;
        var i :| 0 <= i < |rows| && rows[i] == p;
        if i >= limit {
          assert Before(last, p);
          BeforeIsTotal(p, last, p);
        }
        assert entries[i] == p;
      }
    }
  }

  // ---- a listing ----

  /** The pages of one listing: at each state asked, what was answered, each page from the place the one before ended at. */
  ghost predicate IsPaged(dbs: seq<Db>, sender: Did, mediator: Did, maxPage: nat, askedFor: seq<int>, pages: seq<Reply>) {
    && |dbs| == |pages| == |askedFor|
    && (forall k :: 0 <= k < |pages| ==> pages[k].Page?)
    && (forall k :: 0 <= k < |pages| ==> pages[k] == RecipientList(dbs[k], sender, mediator, CursorFor(pages, k), askedFor[k], maxPage))
    && (forall k :: 0 <= k < |pages| - 1 ==> pages[k].next.Some?)
  }

  function CursorFor(pages: seq<Reply>, k: nat): (r: Option<Cursor>)
    requires k <= |pages| && forall j :: 0 <= j < |pages| ==> pages[j].Page?
  {
    if k == 0 then None else pages[k - 1].next
  }

  function Listed(pages: seq<Reply>, k: nat): (r: seq<Place>)
    requires k <= |pages| && forall j :: 0 <= j < |pages| ==> pages[j].Page?
  {
    if k == 0 then [] else Listed(pages, k - 1) + pages[k - 1].entries
  }

  /** The account's recipient at that place, at every state of the listing. */
  ghost predicate HeldThroughout(dbs: seq<Db>, sender: Did, p: Place) {
    forall k :: 0 <= k < |dbs| ==> p in PlacesAfter(dbs[k].recipients, sender, None)
  }

  /** So far: what is listed is in order and ends where the next page begins, and every recipient held throughout up to there is in it. */
  ghost predicate ListedSoFar(dbs: seq<Db>, sender: Did, listed: seq<Place>, next: Option<Place>) {
    && Ascending(listed, Before)
    && (next.Some? ==> listed != [] && next.value == listed[|listed| - 1])
    && (forall p :: HeldThroughout(dbs, sender, p) && (next.None? || AtOrBefore(p, next.value)) ==> p in listed)
  }

  lemma AscendingOnwards(listed: seq<Place>, entries: seq<Place>, at: Place)
    requires Ascending(listed, Before) && Ascending(entries, Before)
    requires listed != [] && at == listed[|listed| - 1]
    requires forall p :: p in entries ==> Before(at, p)
    ensures Ascending(listed + entries, Before)
  {
    var more := listed + entries;
    forall i, j | 0 <= i < j < |more| ensures Before(more[i], more[j]) {
      if i < |listed| <= j {
        assert more[j] in entries;
        if i < |listed| - 1 {
          assert Before(listed[i], at);
          BeforeIsTotal(listed[i], at, more[j]);
        }
      }
    }
  }

  lemma NextPage(dbs: seq<Db>, k: nat, sender: Did, listed: seq<Place>, at: Place, entries: seq<Place>, next: Option<Place>)
    requires k < |dbs|
    requires ListedSoFar(dbs, sender, listed, Some(at))
    requires Answers(dbs[k], sender, Some(at), entries, next)
    ensures ListedSoFar(dbs, sender, listed + entries, next)
  {
    AscendingOnwards(listed, entries, at);
    forall p | HeldThroughout(dbs, sender, p) && (next.None? || AtOrBefore(p, next.value)) ensures p in listed + entries {
      assert p in PlacesAfter(dbs[k].recipients, sender, None);
      BeforeIsTotal(p, at, p);
      if Before(at, p) {
        assert p in PlacesAfter(dbs[k].recipients, sender, Some(at));
        assert p in entries;
      } else {
        assert p in listed;
      }
    }
  }

  lemma {:induction false} ListedUpTo(dbs: seq<Db>, sender: Did, mediator: Did, maxPage: nat, askedFor: seq<int>, pages: seq<Reply>, k: nat)
    requires IsPaged(dbs, sender, mediator, maxPage, askedFor, pages) && 0 < k <= |pages|
    ensures ListedSoFar(dbs, sender, Listed(pages, k), PlaceIn(pages[k - 1].next))
  {
    hide RecipientList, Answers, ListedSoFar;
    PageAnswers(dbs[k - 1], sender, mediator, CursorFor(pages, k - 1), askedFor[k - 1], maxPage);
    if k == 1 {
      assert Listed(pages, 1) == pages[0].entries;
      FirstPage(dbs, sender, pages[0].entries, PlaceIn(pages[0].next));
    } else {
      ListedUpTo(dbs, sender, mediator, maxPage, askedFor, pages, k - 1);
      NextPage(dbs, k - 1, sender, Listed(pages, k - 1), pages[k - 2].next.value.after, pages[k - 1].entries, PlaceIn(pages[k - 1].next));
    }
  }

  lemma FirstPage(dbs: seq<Db>, sender: Did, entries: seq<Place>, next: Option<Place>)
    requires |dbs| > 0 && Answers(dbs[0], sender, None, entries, next)
    ensures ListedSoFar(dbs, sender, entries, next)
  {
    forall p | HeldThroughout(dbs, sender, p) && (next.None? || AtOrBefore(p, next.value)) ensures p in entries {
      assert p in PlacesAfter(dbs[0].recipients, sender, None);
    }
  }

  /**
   * Once a page has no cursor: what was listed is in strict order, and a
   * recipient held from the first page to the last is in it exactly once.
   */
  lemma HeldAreListedOnce(dbs: seq<Db>, sender: Did, mediator: Did, maxPage: nat, askedFor: seq<int>, pages: seq<Reply>, p: Place)
    requires IsPaged(dbs, sender, mediator, maxPage, askedFor, pages) && |pages| > 0
    requires pages[|pages| - 1].next.None?
    requires HeldThroughout(dbs, sender, p)
    ensures Ascending(Listed(pages, |pages|), Before)
    ensures exists i :: 0 <= i < |Listed(pages, |pages|)| && Listed(pages, |pages|)[i] == p
    ensures forall i, j :: 0 <= i < j < |Listed(pages, |pages|)| ==> !(Listed(pages, |pages|)[i].did == p.did && Listed(pages, |pages|)[j].did == p.did)
  {
    var listed := Listed(pages, |pages|);
    ListedUpTo(dbs, sender, mediator, maxPage, askedFor, pages, |pages|);
    assert p in listed;
    forall i | 0 <= i < |listed| && listed[i].did == p.did ensures listed[i] == p {
      ListedIsHeld(dbs, sender, mediator, maxPage, askedFor, pages, |pages|, listed[i]);
    }
    forall i, j | 0 <= i < j < |listed| ensures !(listed[i].did == p.did && listed[j].did == p.did) {
      assert Before(listed[i], listed[j]);
      BeforeIsTotal(p, p, p);
    }
  }

  /** Whatever is listed was the account's when its page was answered. */
  lemma {:induction false} ListedIsHeld(dbs: seq<Db>, sender: Did, mediator: Did, maxPage: nat, askedFor: seq<int>, pages: seq<Reply>, k: nat, q: Place)
    requires IsPaged(dbs, sender, mediator, maxPage, askedFor, pages) && k <= |pages|
    requires q in Listed(pages, k)
    ensures exists j :: 0 <= j < k && q.did in dbs[j].recipients && q == Place(dbs[j].recipients[q.did].createdAt, q.did)
  {
    hide RecipientList;
    if q in Listed(pages, k - 1) {
      ListedIsHeld(dbs, sender, mediator, maxPage, askedFor, pages, k - 1, q);
    } else {
      PageAnswers(dbs[k - 1], sender, mediator, CursorFor(pages, k - 1), askedFor[k - 1], maxPage);
      assert q in pages[k - 1].entries;
      assert q in PlacesAfter(dbs[k - 1].recipients, sender, PlaceIn(CursorFor(pages, k - 1)));
    }
  }
}
