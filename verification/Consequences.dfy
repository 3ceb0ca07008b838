/** What soundness means, spelled out for every state of every run. */
module Consequences {
  import opened Dids
  import opened Tables
  import opened Sums
  import opened Numbering
  import opened StoreSpec
  import opened StoreRuns
  import opened Exclusivity
  import opened Links
  import opened Registrations
  import opened Rosters
  import opened Mail
  import opened BlobRows
  import opened Quotas
  import opened Soundness

  /**
   * A package accepted with a target still has a delivery and one accepted
   * with none has none; every delivery is of a package that is there, to an
   * active replica of its account, and no replica has two of one package.
   */
  lemma MailOfRuns(limits: Limits, worlds: seq<World>, calls: seq<Call>, n: nat)
    requires IsRun(limits, worlds, calls) && n < |worlds|
    ensures var db := worlds[n].db;
      && (forall p :: p in db.packages ==> (p in worlds[n].history.targeted <==> HasDelivery(db.deliveries, p)))
      && (forall d :: d in db.deliveries ==> db.deliveries[d].package in db.packages && IsActive(db.replicas, db.deliveries[d].replica))
      && (forall d :: d in db.deliveries && db.deliveries[d].replica in db.replicas && db.deliveries[d].package in db.packages ==>
            db.replicas[db.deliveries[d].replica].account == db.packages[db.deliveries[d].package].account)
      && (forall d, e :: d in db.deliveries && e in db.deliveries && db.deliveries[d] == db.deliveries[e] ==> d == e)
  {
    RunsAreSound(limits, worlds, calls, n);
    assert Delivered(worlds[n].db) && KeptForTargets(worlds[n].db.packages, worlds[n].db.deliveries, worlds[n].history.targeted);
    hide DidsBound, Linked, Rostered, Listed, Owned, OnePerHash, WithinLimits, ConservedIn, ClaimedOnce, IdsMinted, IsRun;
  }

  /**
   * No DID is bound twice: replica accounts, replicas and shared recipients
   * are apart, and neither a row's DID nor its stored long form is an
   * ordinary account or recipient. So the accounts a fan-out routes to are
   * one at most.
   */
  lemma DidsOfRuns(limits: Limits, worlds: seq<World>, calls: seq<Call>, n: nat, did: Did)
    requires IsRun(limits, worlds, calls) && n < |worlds|
    ensures var db := worlds[n].db;
      && !(did in db.replicaAccounts && did in db.replicas)
      && !(did in db.replicaAccounts && did in db.recipients)
      && !(did in db.recipients && did in db.replicas)
      && (did in db.replicaAccounts ==> NotOrdinary(db, did, db.replicaAccounts[did].longForm) && Spells(db.replicaAccounts[did].longForm, did))
      && (did in db.replicas ==> NotOrdinary(db, did, db.replicas[did].longForm) && Spells(db.replicas[did].longForm, did))
      && (did in db.recipients ==> NotOrdinary(db, did, db.recipients[did].longForm) && Spells(db.recipients[did].longForm, did))
  {
    RunsAreSound(limits, worlds, calls, n);
    assert DidsBound(worlds[n].db);
    hide IsRun, HistorySound, WithinLimits, IdsMinted, Delivered, Listed, Rostered, Linked;
  }

  /** Every foreign key of every row names a row that is there. */
  lemma KeysOfRuns(limits: Limits, worlds: seq<World>, calls: seq<Call>, n: nat)
    requires IsRun(limits, worlds, calls) && n < |worlds|
    ensures var db := worlds[n].db;
      && (forall k :: k in db.keylist ==> db.keylist[k].owner in db.accounts)
      && (forall m :: m in db.messages ==> db.messages[m].owner in db.accounts)
      && (forall t :: t in db.uploads ==> db.uploads[t].blob in db.blobs)
      && (forall r :: r in db.replicas ==> db.replicas[r].account in db.replicaAccounts)
      && (forall d :: d in db.recipients ==> db.recipients[d].account in db.replicaAccounts)
      && (forall p :: p in db.packages ==> db.packages[p].account in db.replicaAccounts)
      && (forall d :: d in db.deliveries ==> db.deliveries[d].package in db.packages && db.deliveries[d].replica in db.replicas)
      && (forall e :: e in db.executions ==> db.executions[e].account in db.replicaAccounts)
      && (forall s :: s in db.registrations ==> s.registration in db.executions && s.replica in db.replicas)
  {
    hide IsRun, Sound, Numbered, OneEach, RowidsUnique, OnePerExecution;
    RunsAreSound(limits, worlds, calls, n);
    LinkedIn(limits, worlds[n]);
  }

  lemma LinkedIn(limits: Limits, w: World)
    requires Sound(limits, w)
    ensures Linked(w.db) && Delivered(w.db) && Listed(w.db)
  {
  }

  /** Every limit holds at the state's own moment and at every later one, no call between. */
  lemma LimitsOfRuns(limits: Limits, worlds: seq<World>, calls: seq<Call>, n: nat, t: Time, did: Did, e: Id)
    requires IsRun(limits, worlds, calls) && n < |worlds| && worlds[n].clock <= t
    ensures var db := worlds[n].db;
      && |RetainedBytes(db.packages, did, t)| <= limits.maxMessages && Total(RetainedBytes(db.packages, did, t)) <= limits.maxRetainedBytes
      && |UnexpiredMessages(db.messages, did, t)| <= limits.maxMessages
      && Total(LiveBlobBytes(db.blobs, did, t)) <= limits.quotaBytes
      && |ActiveMembers(db.replicas, did)| <= limits.maxReplicas
      && |RecipientsOf(db.recipients, did)| <= limits.maxRecipients
      && |ExecutionsOf(db.executions, did)| <= limits.maxRetained
      && |Places(db.registrations, e)| <= limits.maxListed
  {
    RunsAreSound(limits, worlds, calls, n);
    assert WithinLimits(limits, worlds[n].db, worlds[n].clock);
    hide IsRun, TablesSound, HistorySound, IdsMinted, RetainedBytes, LiveBlobBytes, Total;
    WithinLimitsLater(limits, worlds[n].db, worlds[n].clock, t);
    assert PackagesWithinFor(limits, RetainedBytes(worlds[n].db.packages, did, t));
  }

  /** Every blob id ever made is in one place and one only, every row's owner may hold blobs, and no token was claimed twice. */
  lemma BlobsOfRuns(limits: Limits, worlds: seq<World>, calls: seq<Call>, n: nat)
    requires IsRun(limits, worlds, calls) && n < |worlds|
    ensures var db, history := worlds[n].db, worlds[n].history; var handed := HandedBack(history.handedBack);
      && history.blobsMade == db.blobs.Keys + db.ended + handed
      && db.blobs.Keys !! db.ended && db.blobs.Keys !! handed && db.ended !! handed
      && (forall i, j :: 0 <= i < j < |history.handedBack| ==> history.handedBack[i] !! history.handedBack[j])
      && (forall b :: b in db.blobs ==> HoldsBlobs(db.accounts, db.replicas, db.blobs[b].owner))
      && (forall i, j :: 0 <= i < j < |history.claimed| ==> history.claimed[i] != history.claimed[j])
  {
    RunsAreSound(limits, worlds, calls, n);
    assert ConservedIn(worlds[n].db, worlds[n].history) && ClaimedOnce(worlds[n].db.uploads, worlds[n].history.claimed);
    assert Owned(worlds[n].db.accounts, worlds[n].db.replicas, worlds[n].db.blobs);
    hide IsRun, Sound, HandedBack, HoldsBlobs;
  }

  /** An account's replicas are numbered one to how many there are, and a registration's likewise, one registration for each execution. */
  lemma NumbersOfRuns(limits: Limits, worlds: seq<World>, calls: seq<Call>, n: nat, account: Did, e: Id)
    requires IsRun(limits, worlds, calls) && n < |worlds|
    ensures Numbered(Ordinals(worlds[n].db.replicas, account)) && Numbered(Places(worlds[n].db.registrations, e))
    ensures OnePerExecution(worlds[n].db.executions)
  {
    RunsAreSound(limits, worlds, calls, n);
    assert Rostered(worlds[n].db.replicas) && Listed(worlds[n].db);
    hide IsRun, Sound, Numbered, OnePerExecution;
  }
}
