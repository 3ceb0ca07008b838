/**
 * The run in which bytes are left behind: a blob is kept, its upload granted
 * and claimed, its row purged and its bytes deleted, and then the upload puts
 * them.
 */
module LateUpload {
  import opened Dids
  import opened Tables
  import opened Sums
  import opened StoreSpec
  import opened StoreRuns
  import B = BlobService

  const LIMITS := Limits(1, 1, 1, 1, 1, 1, 1, 1, 1)
  const OWNER := Short(1)
  const KEEP := Keep(20, OWNER, 7, 1, 5)
  const BYTES := B.Bytes(7, 1)
  const UPLOAD := B.Putting(21, 20, BYTES)

  const GRANTED := EMPTY.(accounts := map[OWNER := 0])
  const KEPT := GRANTED.(blobs := map[20 := Blob(OWNER, 7, 1, 0, None, 5)])
  const TOKENED := KEPT.(uploads := map[21 := Upload(20, 5)])

  const NOTHING := History({}, {}, [], [])
  const MADE := History({}, {20}, [], [])
  const CLAIMED := History({}, {20}, [], [21])
  const HANDED := History({}, {20}, [{20}], [21])

  const W1 := World(GRANTED, 0, {}, NOTHING)
  const W2 := World(KEPT, 0, {20}, MADE)
  const W3 := World(TOKENED, 0, {20, 21}, MADE)
  const W4 := World(KEPT, 0, {20, 21}, CLAIMED)
  const W5 := World(GRANTED, 5, {20, 21}, HANDED)

  lemma Grants()
    ensures Admissible(INITIAL, Ordinary(Grant(OWNER)), 0) && Next(LIMITS, INITIAL, Ordinary(Grant(OWNER)), 0) == W1
  {
  }

  lemma Keeps()
    ensures KeptBlobs(LIMITS, GRANTED, KEEP, 0) == KEPT.blobs
  {
    assert BlobNamed(GRANTED.blobs, OWNER, 7) == {};
    assert LiveBlobBytes(GRANTED.blobs, OWNER, 0) == map[];
  }

  lemma KeepsOne()
    ensures Admissible(W1, Blobs(KeepOne(KEEP)), 0) && Next(LIMITS, W1, Blobs(KeepOne(KEEP)), 0) == W2
  {
    hide KeptBlobs;
    Keeps();
  }

  lemma Tokens()
    ensures Admissible(W2, Blobs(Token(20, 5, 21)), 0) && Next(LIMITS, W2, Blobs(Token(20, 5, 21)), 0) == W3
  {
  }

  lemma Claims()
    ensures Admissible(W3, Blobs(Claim(21)), 0) && Next(LIMITS, W3, Blobs(Claim(21)), 0) == W4
    ensures ClaimOf(W3.db, 21, 0) == Some(20)
  {
    assert TOKENED.uploads - {21} == map[];
  }

  lemma Purges()
    ensures Admissible(W4, Blobs(PurgeBlobRows), 5) && Next(LIMITS, W4, Blobs(PurgeBlobRows), 5) == W5
    ensures PurgedBlobs(W4.db, 5) == {20}
  {
    assert LapsedBlobs(KEPT.blobs, 5) == {20};
    assert KEPT.blobs - {20} == map[];
    assert LiveUploads(UploadsWithout(KEPT.uploads, {20}), 5) == map[];
    assert PurgedBlobs(KEPT, 5) == {20};
    assert CLAIMED.handedBack + [{20}] == HANDED.handedBack;
  }

  const EVENTS := [
    B.StoreCall(Ordinary(Grant(OWNER)), 0),
    B.StoreCall(Blobs(KeepOne(KEEP)), 0),
    B.StoreCall(Blobs(Token(20, 5, 21)), 0),
    B.ClaimToken(21, 0),
    B.Purge(5),
    B.DeleteBytes(20),
    B.PutBytes(UPLOAD, BYTES)]

  const S0 := B.State(INITIAL, map[], {}, {}, {}, {})
  const S1 := S0.(world := W1)
  const S2 := S0.(world := W2)
  const S3 := S0.(world := W3)
  const S4 := B.State(W4, map[], {UPLOAD}, {}, {}, {})
  const S5 := B.State(W5, map[], {UPLOAD}, {20}, {}, {})
  const S6 := B.State(W5, map[], {UPLOAD}, {}, {}, {})
  const S7 := B.State(W5, map[20 := BYTES], {B.Marking(21, 20)}, {}, {20}, {})

  const STATES := [S0, S1, S2, S3, S4, S5, S6, S7]

  ghost predicate Leads(s: B.State, e: B.Event, t: B.State) {
    B.Enabled(s, e) && B.After(LIMITS, s, e) == t
  }

  lemma Begins()
    ensures Leads(S0, EVENTS[0], S1) && Leads(S1, EVENTS[1], S2) && Leads(S2, EVENTS[2], S3)
  {
    hide Admissible, Next;
    Grants();
    KeepsOne();
    Tokens();
  }

  lemma Claiming()
    ensures Leads(S3, EVENTS[3], S4)
  {
    hide Admissible, Next, ClaimOf;
    Claims();
  }

  lemma Purging()
    ensures Leads(S4, EVENTS[4], S5) && Leads(S5, EVENTS[5], S6)
  {
    hide Admissible, Next, PurgedBlobs;
    Purges();
    assert S5.storage - {20} == map[];
  }

  lemma PutsLate()
    ensures Leads(S6, EVENTS[6], S7)
  {
  }

  lemma IsARun()
    ensures B.IsServiceRun(LIMITS, STATES, EVENTS)
  {
    hide Leads;
    Begins();
    Claiming();
    Purging();
    PutsLate();
    forall i | 0 <= i < |EVENTS| ensures Leads(STATES[i], EVENTS[i], STATES[i + 1]) {
      assert i == 0 || i == 1 || i == 2 || i == 3 || i == 4 || i == 5 || i == 6;
    }
    RunOf(STATES, EVENTS);
  }

  lemma RunOf(states: seq<B.State>, events: seq<B.Event>)
    requires |states| == |events| + 1 && states[0] == S0
    requires forall i :: 0 <= i < |events| ==> Leads(states[i], events[i], states[i + 1])
    ensures B.IsServiceRun(LIMITS, states, events)
  {
    hide B.Enabled, B.After;
    forall i | 0 <= i < |events| ensures B.Enabled(states[i], events[i]) && states[i + 1] == B.After(LIMITS, states[i], events[i]) {
      assert Leads(states[i], events[i], states[i + 1]);
    }
  }

  /** A run of the service that ends with bytes left behind. */
  lemma LateUploadLeavesBytes()
    ensures B.IsServiceRun(LIMITS, STATES, EVENTS) && B.LeftBehind(STATES[7], 20)
  {
    hide B.IsServiceRun;
    IsARun();
  }
}
