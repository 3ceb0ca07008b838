# estoc mediator store and agent delivery, in Dafny

A model of the parts of estoc that have to agree without sharing a transaction:
the mediator's SQL store, the replicas that register at it and pick mail up from
it, and the agent's outbound delivery, which may crash between any two of its
steps. The theorems are about every run: any calls in any order, any
interleaving, lost and repeated requests, crashes.

`dafny verify dfyconfig.toml` checks the whole project.

## How it is built

- **Tables and calls.** `Tables` holds the thirteen tables as maps, `StoreSpec`
  says what each store method does to them and answers, `StoreRuns` makes runs
  of those calls over a clock that never goes back and ids that are never
  generated twice. `SqlStore.Store` is the store as the source has it: a class
  with a field for each table, whose methods run their statements in order and
  are each proved to be one step of a run.
- **Invariants.** `Exclusivity`, `Links`, `Rosters`, `Registrations`, `Mail`,
  `BlobRows` and `Quotas` each show one kept by every call; `Soundness` puts
  them together over every run, and `Consequences` spells out what they mean.
- **The store by its tables.** `Rows`, `MailRows`, `ExecutionRows` and
  `BlobTableRows` say of each table, without the methods, when a row comes, what
  is in it and when it goes, and every call is proved to keep to that;
  `Admission` and `Fidelity` draw from it what callers are answered over every run.
- **Theorems over runs of the store.** `Agreement`, `Responder` and `Restart`
  (who answers an input), `Purging` and `Remnants` (what a purge does not show in,
  and what it does), `Spellings` (which spellings may stand beside a row),
  `Acknowledging`, `RosterPages` and `RecipientPages` (listings under change),
  `EndToEnd` and `Draining` (pickup over a bad line and over a good one),
  `BlobService` and `LateUpload` (rows against bytes).
- **Outbound delivery.** `Outbound` is the message's machine, `OutboundSafety`
  and `Carriages` what every run of it keeps, `Withdrawals` and `FailedLooks`
  exactly when that fails, `Due` when a call may be made and an expiry recorded,
  and `Outbox` the procedures of the agent as methods that take those steps.
- **Smaller algorithms.** `Pickup`, `Trace`, `Effects`, `Sessions`,
  `Dispatcher`, `Serially`; `Listing`, `Numbering` and `Sums` are what ORDER BY,
  ordinals and SUM mean.

## What is taken as given

A batch is one transaction. Generated ids are new. The clock does not go back.
Limits are fixed. The database starts empty at the current schema. A long form
handed to a replica-mediation method is one of the DID it comes with, as the
protocol layer checks. What the vault's fold reads of a message's evidence
arrives from outside and may change at any step. DIDs, envelopes, hashes and ids
are only compared, so numbers stand for their texts.

## What the code does otherwise than it says

- `closedBecause` reads a message as closed while a submission names a complete
  preparation, and evidence arriving later can make a preparation incomplete
  again (a conflicting sender leaves no channel). The comment on `submitted` says
  nothing withdraws it. `Withdrawals.CancellationBesideSubmission` gives the exact
  condition under which a cancellation is then recorded beside the submission,
  and `Withdrawals.WithdrawalLetsBoth` a run that does it.
- A local-record read that fails finds no record, so an owed acceptance can be
  passed over, though the comments promise that no call, cancellation or expiry
  comes in its place. `FailedLooks.CancellationPastFailedLook`,
  `FailedLooks.ReadyPastFailedLook` and `FailedLooks.CallPastFailedLook` say
  exactly when each does; `FailedLooks.FailedReadLetsBoth`,
  `FailedLooks.FailedReadLetsExpire` and `FailedLooks.FailedReadCallsAgain` are
  runs that do it.
- In the same way a selection can be passed over, though it is said never to fall
  to another preparation on its own. `Carriages.SelectionReplaced` says exactly
  when it does, `FailedLooks.ReplacedIsCarried` that the call then carries the
  other, and `FailedLooks.FailedReadCarriesAnother` is a run that does it.
- A wait longer than a timer takes is said to be reached by several timers; one
  is set, cut short, and the attempt is made when it fires.
  `Dispatcher.FiresWhenDue` gives the exact policies that never arm such a
  timer, and `Dispatcher.Dispatcher.Fire` says by which wait it comes too soon.
- A purge shows in the ids `deleteMessages` reports and in the count a later purge
  reports: `Remnants.DeletionTellsApart` and `Remnants.PurgeCountTellsApart` say
  exactly when, in any continuation.
- An upload claimed before its row is purged and its bytes deleted leaves its bytes
  behind, and they are never deleted: `LateUpload.LateUploadLeavesBytes` is a run
  that does it, `BlobService.BytesLeftBehind` says exactly when bytes are so left,
  and `BlobService.LeftBehindForGood` that they stay.
- An ordinary account or recipient under another long form of a DID is not looked
  up when a replica-mediation row of that DID is made. `Spellings.OtherLongFormEscapes`
  is a run that ends with both; `Spellings.OnlyOtherLongForms` and
  `Spellings.OrdinaryCameFirst` say that nothing else may stand beside a row, and
  that only what was there before it may.

## Model
| member | source | states |
|---|---|---|
| `Soundness.RunsAreSound` | mediator/src/store/sql-store.ts:61-65 | in every state of every run of the store's calls: DIDs bound once, foreign keys linked, rosters and registrations numbered without a gap, mail addressed and kept for its targets, blobs owned and conserved, tokens claimed once, every limit met |
| `Soundness.SoundKept` | mediator/src/store/sql-store.ts:522-1480 | any one call, made at any later moment with new ids, keeps all of that |
| `Consequences.DidsOfRuns` | mediator/src/store/sql-store.ts:228-253 | replica accounts, replicas and shared recipients are disjoint, and neither a row's DID nor its stored long form is an ordinary account or keylist recipient |
| `Spellings.OtherLongFormEscapes` | mediator/src/store/sql-store.ts:715-756 | a run of three calls, grant, register and enroll, that ends with an ordinary account under one long form beside a replica enrolled under another of the same DID |
| `Spellings.OnlyOtherLongForms` | mediator/src/store/sql-store.ts:223-253 | in every run, what ordinary mediation holds of a DID replica mediation binds is a long form other than the one the row stored |
| `Spellings.OrdinaryCameFirst` | mediator/src/store/sql-store.ts:522-587 | in every run, where both stand the ordinary one was held at a state that did not bind the DID, and ever since |
| `Spellings.RefusedOnceBound` | mediator/src/store/sql-store.ts:522-587 | once a row binds a DID, no call brings a spelling of it into ordinary mediation |
| `Exclusivity.BoundKept` | mediator/src/store/sql-store.ts:522-677 | every call keeps each DID bound at most once in either stored spelling |
| `Consequences.KeysOfRuns` | mediator/src/store/sql-store.ts:90-191 | in every state of every run each foreign key of each row names a row that is there, so none refuses a commit |
| `Links.LinkedKept` | mediator/src/store/sql-store.ts:120-176 | every call keeps the owner, account and upload keys linked; those of deliveries and listings are kept in Mail and Registrations |
| `Consequences.MailOfRuns` | mediator/src/store/sql-store.ts:1041-1166 | a package accepted with a target still has a delivery, one accepted with none has none, and every delivery names a package that is there and an active replica of its account |
| `Mail.DeliveredKept` | mediator/src/store/sql-store.ts:684-836 | every call keeps deliveries addressed to active replicas of their package's account, one for each replica and package, and rowids unique |
| `Mail.EndingLeaves` | mediator/src/store/sql-store.ts:1144-1166 | ending deliveries leaves all packages but exactly those that had a delivery and have none now |
| `Mail.KeptAfterFan` | mediator/src/store/sql-store.ts:1057-1090 | a fan-out keeps the born-with-targets invariant, the new package having a delivery iff it had a target |
| `Mail.KeptAfterDeletion` | mediator/src/store/sql-store.ts:684-712 | deleting an account keeps the born-with-targets invariant of every other account's packages |
| `Acknowledging.OthersDeliveredAlike` | mediator/src/store/sql-store.ts:1109-1142 | one replica's acknowledgement leaves what every other replica is delivered, and its order, as it was |
| `Acknowledging.WaitingAfter` | mediator/src/store/sql-store.ts:1135-1142 | after an acknowledgement exactly the replica's own named deliveries no longer wait |
| `Acknowledging.PackagesAfterAcknowledging` | mediator/src/store/sql-store.ts:1144-1166 | a package goes iff it had deliveries and all of them were the replica's and acknowledged; one with no target stays |
| `Consequences.LimitsOfRuns` | mediator/src/store/sql-store.ts:1057-1083 | at a state's moment and every later one: unexpired packages within count and bytes, messages, live blob bytes, active replicas, recipients, executions and listed replicas within their limits |
| `Quotas.BlobsAfterKeep` | mediator/src/store/sql-store.ts:1378-1420 | creating or renewing a blob, a lapsed one included, keeps every owner's live bytes within the quota |
| `Quotas.PackagesGrow` | mediator/src/store/sql-store.ts:1057-1083 | a package accepted with room keeps every account within count and bytes |
| `Consequences.NumbersOfRuns` | mediator/src/store/sql-store.ts:724-756 | an account's replica ordinals and a registration's are one to n without gap or repeat, with one registration for each account's execution |
| `Rosters.RosteredAfterEnrollment` | mediator/src/store/sql-store.ts:724-735 | enrolling appends to one account's roster and leaves every other |
| `Consequences.BlobsOfRuns` | mediator/src/store/sql-store.ts:1378-1480 | every blob id ever made is in exactly one of the blobs table, the ended ids and the ids handed back, each handed back once; every owner may hold blobs; no upload token is claimed twice |
| `BlobRows.ConservedKept` | mediator/src/store/sql-store.ts:1461-1480 | every call keeps blob ids conserved |
| `Rows.AccountRows` | mediator/src/store/sql-store.ts:522-541 | an ordinary account is there after a call iff it was and is not revoked, or is granted and no row binds its DID; with the moment it was granted |
| `Rows.KeylistRows` | mediator/src/store/sql-store.ts:560-598 | a recipient of an ordinary account comes iff added for an account that is there under a DID no row binds, and goes iff its owner removes it or is revoked |
| `Rows.MessageRows` | mediator/src/store/sql-store.ts:1264-1333 | a message comes iff stored for an account with fewer unexpired ones than the limit, holding what was stored for the time to live, and goes iff its owner deletes it or is revoked, or a purge finds it expired |
| `Rows.ReplicaAccountRows` | mediator/src/store/sql-store.ts:637-712 | a replica-mediation account comes iff registered under a DID nothing has, and goes iff deleted by way of its mediator |
| `Rows.ReplicaRows` | mediator/src/store/sql-store.ts:714-836 | a replica comes iff enrolled under a DID nothing has while fewer than the limit are active, one past the account's count, is marked with the second it is first removed in, and goes only with its account |
| `Rows.RecipientRows` | mediator/src/store/sql-store.ts:914-995 | a shared recipient comes iff shared under a DID nothing has while there are fewer than the limit, and goes iff unshared by its account or with it |
| `MailRows.FanOutAnswered` | mediator/src/store/sql-store.ts:1041-1107 | in every sound state: lapsed iff there is no time to live or the deadline has come, unknown iff nobody has the DID, full iff its account has no room in count or bytes, and otherwise one delivery for each replica it is for, under the id made for it |
| `MailRows.PackageRows` | mediator/src/store/sql-store.ts:1041-1166 | a package comes iff a fan-out of it is accepted, holding what was sent and expiring at the sooner of time to live and deadline, and goes iff a purge finds it expired, its account is deleted or its last delivery goes |
| `MailRows.DeliveryRows` | mediator/src/store/sql-store.ts:1084-1166 | a delivery comes iff an accepted package is for its replica, and goes iff its replica acknowledges it or is removed, or its package is purged or deleted |
| `ExecutionRows.ExecutionAnswered` | mediator/src/store/sql-store.ts:1174-1249 | in every run: unknown iff the caller is no active replica of an account at that mediator; registered iff the account keeps the execution or has a place and the caller is listed or fewer than the limit are; answered the order before the call, the caller at its end unless it was in it, with when it was made and is kept until |
| `ExecutionRows.ExecutionRowsOf` | mediator/src/store/sql-store.ts:1174-1262 | a registration comes iff a replica that may ask registers an execution not kept yet while there is a place, and goes iff purged past its retention or with its account |
| `ExecutionRows.SlotRows` | mediator/src/store/sql-store.ts:1208-1213 | a listing comes by its own replica's call alone, under that call's execution, and goes with its registration alone, keeping its ordinal |
| `BlobTableRows.KeepAnswered` | mediator/src/store/sql-store.ts:1378-1420 | ended iff its owner may own none, a mismatch iff one of its hash has another size, kept iff it is retained or fits the quota; then there is one row of that owner, hash and size, retained at least as long as asked for and as it was |
| `BlobTableRows.RetainedAsLong` | mediator/src/store/sql-store.ts:1378-1420 | in every run a blob still there is retained at least as long as it was in any state before |
| `BlobTableRows.BlobRowsOf` | mediator/src/store/sql-store.ts:1373-1480 | a blob comes iff kept for an owner with none of its hash, is retained to the later moment when kept again, and goes iff dropped, purged past its retention or its owner ends |
| `BlobTableRows.EndedRows` | mediator/src/store/sql-store.ts:1461-1480 | an id is ended iff its owner ends, and until the next purge |
| `BlobTableRows.UploadRows` | mediator/src/store/sql-store.ts:1431-1480 | a token comes iff granted for a blob that is there, and goes iff claimed, purged past its expiry, or with its blob |
| `BlobTableRows.EveryTokenWasGranted` | mediator/src/store/sql-store.ts:1431-1452 | in every run a token was granted by a call of the run, and a claim names that call's blob iff its expiry is still to come |
| `Admission.GrantAnswered` | mediator/src/store/sql-store.ts:522-534 | in every run a grant leaves an account iff there was one or no row binds the DID in either spelling |
| `Admission.KeyAnswered` | mediator/src/store/sql-store.ts:560-587 | in every run when a recipient is the owner's already, taken, of no owner or added |
| `Admission.RegistrationAnswered` | mediator/src/store/sql-store.ts:637-677 | in every run an account is registered iff it stood at that mediator, or is to be made and its DID is free, with the second it was made in |
| `Admission.EnrollmentAnswered` | mediator/src/store/sql-store.ts:714-796 | in every run a replica is added iff it is an active one of the account already, or its DID is free and fewer than the limit are active; at the limit iff it is nobody's and no fewer are |
| `Admission.RemovedIsNotAdded` | mediator/src/store/sql-store.ts:788-795 | in every run no enrollment of a replica once removed is answered as added, by any account, until its own is deleted |
| `Admission.RemovalAnswered` | mediator/src/store/sql-store.ts:798-836 | in every run a removal is answered for any replica of the account, with the second it was first removed in |
| `Admission.SharingAnswered` | mediator/src/store/sql-store.ts:914-972 | in every run a recipient is shared iff it is the account's already, or its DID is free and there are fewer than the limit |
| `Admission.UnsharingAnswered` | mediator/src/store/sql-store.ts:974-995 | in every run a recipient is unshared iff it is the account's, and then it is gone |
| `Admission.StoringAnswered` | mediator/src/store/sql-store.ts:1264-1282 | in every run a message is stored iff its owner has an account and the count it is told is under the limit |
| `Admission.EveryReplicaWasEnrolled` | mediator/src/store/sql-store.ts:854-903 | in every run each replica a roster lists was enrolled by a call of the run, with that call's grant and second, and was removed by one at the second it says |
| `Admission.EveryRecipientWasShared` | mediator/src/store/sql-store.ts:997-1027 | in every run each recipient listed was shared by a call of the run, in the place of its moment |
| `Admission.ListedAsShared` | mediator/src/store/sql-store.ts:997-1027 | in every run a page lists recipients by the moment they were shared and those of one moment by DID, each once |
| `Fidelity.EveryAnswerWasSent` | mediator/src/store/sql-store.ts:1041-1123 | in every run each message a replica is answered was sent to it by a call of the run: it carries that call's text and moment, is for the recipient asked about, and neither its time to live nor its deadline has come |
| `Fidelity.SentIsAnswered` | mediator/src/store/sql-store.ts:1041-1123 | in every run, until a call takes it, what was sent to a replica is answered at any moment iff its time to live and its deadline are still to come, with its text and moment |
| `Fidelity.AnsweredInOrder` | mediator/src/store/sql-store.ts:1113-1123 | in every run a replica is answered its messages in the order they were sent |
| `Fidelity.WaitsUntilTaken` | mediator/src/store/sql-store.ts:1041-1166 | in every run what was sent waits until it is acknowledged, its replica removed, its account deleted, or a purge finds its time past |
| `Fidelity.EveryMessageWasStored` | mediator/src/store/sql-store.ts:1264-1282 | in every run every ordinary message was stored by a call of the run, with its owner, text and moment, to expire after the time to live |
| `Numbering.NumberingExtends` | mediator/src/store/sql-store.ts:1208-1213 | the next key, numbered one past the count, goes to the end of the order and moves no other |
| `Agreement.AnswersAgree` | mediator/src/store/sql-store.ts:1174-1249 | any two answers under one registration id are of one account's execution, the later list extending the earlier |
| `Agreement.OneRegistrationOrStartedOver` | mediator/src/store/sql-store.ts:1168-1262 | two answers about one account's execution are under one registration unless a purge past its retention or the account's deletion came between |
| `Agreement.OnlyTheseEnd` | mediator/src/store/sql-store.ts:1254-1262 | nothing but a purge past its retention or its account's deletion ends a registration |
| `Agreement.RegistrationContinues` | mediator/src/store/sql-store.ts:1174-1213 | a registration that stays keeps its row, and its order is at most extended |
| `Responder.RegisterAtMediator` | packages/agent-core/src/responder.ts:110-122 | a lost answer is asked for once more, a refusal or a closed link is not, and only an answered reply is ever read |
| `Responder.ReadAsMeant` | packages/agent-core/src/responder.ts:124-136 | a registration listing this replica is read whole, as its own turn iff it is listed first |
| `Responder.ReadExactly` | packages/agent-core/src/responder.ts:124-136 | an answer is read iff it is about the execution, names a registration and lists did:peer:4 DIDs alone, this replica's among them; and when it is about another execution, names no registration or lists nobody, that is why it is not |
| `Responder.HearsAsMeant` | packages/agent-core/src/responder.ts:117-136 | in every run, an answer is heard as self iff the hearing replica is first in it, and unread only if it is about another execution |
| `Responder.OneResponder` | packages/agent-core/src/responder.ts:110-136 | under one registration at most one replica ever reads itself as the one to answer |
| `Responder.TwoRespondersMeanStartedOver` | packages/agent-core/src/responder.ts:110-136 | two replicas that each read themselves as answering one execution imply a purge past retention or the account's deletion between their calls |
| `Restart.BothComeFirst` | mediator/src/store/sql-store.ts:1254-1262 | a run of six calls in which, across such a purge, two replicas each read themselves as answering one execution |
| `Purging.PurgeIsUnobservable` | mediator/src/store/sql-store.ts:1320-1333 | in any continuation, from the purge's moment on: the same deliveries in the same order, the same counts of what waits, the same outcomes of fan-out and of a message to store |
| `Purging.StepsAlike` | mediator/src/store/sql-store.ts:522-1480 | states that differ only in expired rows, and in rowids that order the rest alike, stay so through every call |
| `Remnants.DeletionTellsApart` | mediator/src/store/sql-store.ts:1310-1333 | in any continuation a deletion reports the same ids of the purged database and the other iff it names no message of the owner's that the purge took and that is still there |
| `Remnants.PurgeCountTellsApart` | mediator/src/store/sql-store.ts:1320-1333 | in any continuation a later purge counts of the unpurged database exactly what the first took and is still there more; the counts are the same iff nothing of it is |
| `Remnants.StaysWithout` | mediator/src/store/sql-store.ts:1320-1333 | in any continuation the purged database is the other without exactly the rows the purge took |
| `Remnants.BothShow` | mediator/src/store/sql-store.ts:1310-1333 | a run of the store after which a purge makes both answers differ |
| `RosterPages.PageIsSlice` | mediator/src/protocols/replica-mediation.ts:541-590 | a page is the roster from where the last ended, its cursor reads back and is closer to the end, and there is none iff the end is reached |
| `RosterPages.PageAnsweredExactly` | mediator/src/protocols/replica-mediation.ts:541-590 | invalid iff the limit is out of bounds or the cursor is another account's, no place in a roster or not of the one there now; unknown iff the account is not at that mediator; and otherwise as many as the limit, or what is left |
| `RosterPages.PagesAreTheRoster` | mediator/src/protocols/replica-mediation.ts:494-590 | whatever is enrolled or removed between pages, they concatenate to the roster as it was at the first page, each replica once and in order |
| `RosterPages.RosterStands` | mediator/src/protocols/replica-mediation.ts:494-503 | between two states of one registration the roster is at most extended, its replicas keeping grant and time |
| `RosterPages.EndedCursorRefused` | mediator/src/protocols/replica-mediation.ts:569-577 | a cursor of a registration that has ended is refused, whatever was registered since |
| `RecipientPages.PageAnswers` | mediator/src/store/sql-store.ts:997-1027 | a page is in strict order, past its cursor, and misses no recipient up to where it ends |
| `RecipientPages.PageAnsweredExactly` | mediator/src/protocols/replica-mediation.ts:751-791 | invalid iff the limit is out of bounds or the cursor is another's; unknown iff the account is not at that mediator; and otherwise as many as the limit, or what is left |
| `RecipientPages.HeldAreListedOnce` | mediator/src/protocols/replica-mediation.ts:751-791 | following cursors to the end lists every recipient held throughout exactly once, in order of added time and DID, under any adds and removes between pages |
| `Pickup.Take` | packages/agent-core/src/pickup.ts:195-227 | the ids taken are exactly those of attachments with an id the handle answered acked, in order; one bad attachment stops nothing |
| `Pickup.Drain` | packages/agent-core/src/pickup.ts:114-156 | at most ten rounds, each going on only if something was acknowledged; how it ended; and what is counted is exactly what the mediator was told of |
| `Draining.DrainQuietly` | packages/agent-core/src/pickup.ts:53-156 | over the mediator's own answers, with nothing lost: a drain acknowledges the first hundred of what waits, in the queue's order, exactly the rest still waits in order, and it ends having found the queue empty iff there were ninety or fewer |
| `Draining.OrderAfterAcknowledging` | mediator/src/store/sql-store.ts:1109-1142 | the first so many acknowledged, the rest wait in the order they did |
| `EndToEnd.NoDeliveryLost` | packages/agent-core/src/pickup.ts:123-241 | over lost, delayed and repeated requests and crashes, a delivery leaves its queue only after its agent took or acknowledged it, or by its replica's removal, its account's deletion or its expiry |
| `EndToEnd.NoMessageLost` | mediator/src/protocols/pickup.ts:65-175 | the same of an ordinary account's messages; the database may change between the queries that find an inbox and the call that acknowledges |
| `EndToEnd.LeavesByStep` | mediator/src/store/sql-store.ts:1135-1333 | which store calls take a delivery out of its queue, and which deliveries they take |
| `EndToEnd.InboxOfOneState` | mediator/src/protocols/pickup.ts:65-101 | asked of one database, the queries find a replica's queue iff the sender is an active replica, not an account, whose request was sealed to its key on its own connection, an ordinary one iff it has an account, and none for anybody else |
| `BlobService.ServedAsNamed` | mediator/src/blobs/service.ts:112-141 | in every run, a row looked at in one state and its bytes got in that or a later one: the bytes are of exactly the hash and size the row named, and they are there while the row is; what is served still counts against its owner's quota |
| `BlobService.BytesLeftBehind` | mediator/src/blobs/service.ts:101-150 | in every run, bytes are left with nothing to answer for them and no deletion under way iff they were put after their row had been handed back and deleted, or their deletion was cut off |
| `BlobService.LeftBehindForGood` | mediator/src/blobs/service.ts:143-150 | bytes once so left are so in every later state of the run |
| `LateUpload.LateUploadLeavesBytes` | mediator/src/blobs/service.ts:116-132 | a run of the service (grant, keep, token, claim, purge, delete, put) that ends with bytes left behind |
| `BlobService.RowKeptByStep` | mediator/src/store/sql-store.ts:1378-1480 | a row that stays keeps its hash, size and mark, only its own mark marks it, and a new row comes under a new id |
| `OutboundSafety.OneOutcome` | packages/agent-core/src/acceptance.ts:1-59 | over every run with crashes at any step, in which no failed look passes over an acceptance not yet recorded and nothing complete is withdrawn: never both a submission and a failure from this runtime; after an acceptance is kept no failure and no further call; a recorded submission names what a call carried |
| `OutboundSafety.SafeKept` | packages/agent-core/src/dispatch.ts:101-146 | every step keeps that, an open's steps running beside it |
| `OutboundSafety.OpenMeansUndecided` | packages/agent-core/src/prepare.ts:132-145 | past the look at what is owed, a message the fold reads as open has no outcome from this runtime |
| `OutboundSafety.PathsAreSafe` | packages/agent-core/src/dispatch.ts:101-146 | the same along any path of such steps |
| `Due.CallsAreDue` | packages/agent-core/src/dispatch.ts:130-138 | over every run a call comes only after a recheck that found the message open and its expiry not come in whole seconds, the channel free, the preparation here, complete and not erased and the action live, with nothing between; and then it is made iff the action is still live |
| `Due.RecheckedExactly` | packages/agent-core/src/dispatch.ts:217-237 | the recheck lets the call go ahead iff all of that holds, and records an expiry iff the message is open and its second has come |
| `Due.ExpiryRecordedExactly` | packages/agent-core/src/prepare.ts:128-195 | a step records an expiry iff it looks at an open message at a moment whose second is the expiry's or past it |
| `Due.CancellationRecordedExactly` | packages/agent-core/src/dispatch.ts:351-367 | a step records a cancellation iff it is the cancellation's own and the message is open |
| `Due.OpenRecordsExactly` | packages/agent-core/src/acceptance.ts:36-46 | an open looks at a message iff it has a preparation here and does not show as submitted, and what it finds owed it records and then drops |
| `Outbox.MessageIsSafe` | packages/agent-core/src/dispatch.ts:101-146 | so wherever any procedure of the agent leaves the message, undisturbed, it has one outcome at most and no call or failure after it |
| `Carriages.CallsCarryTheSelected` | packages/agent-core/src/prepare.ts:197-295 | whatever fails, a call carries the preparation selected when it is made; while no failed look replaces a selection, any two calls with no choice between them carry the same one |
| `Carriages.SelectionReplaced` | packages/agent-core/src/prepare.ts:197-262 | in every run, the look at a selection puts another preparation in its place iff it fails where an open, unexpired message to dispatch has exactly one candidate, another than the selected |
| `Carriages.NoMoreCallsThanActions` | packages/agent-core/src/action.ts:1-57 | no action calls twice, and there are no more calls than actions minted, whatever fails or crashes |
| `Withdrawals.FailureBesideMeansWithdrawn` | packages/agent-core/src/prepare.ts:132-145 | whatever evidence does, a failure recorded beside a submission comes after it, by a step that found every submitted preparation incomplete under a consistent, unterminated intent |
| `Withdrawals.CancellationBesideSubmission` | packages/agent-core/src/dispatch.ts:351-367 | a cancellation with nothing owed records a failure iff no submitted preparation is complete and nothing else closes the message |
| `Withdrawals.WithdrawalLetsBoth` | packages/agent-core/src/prepare.ts:140-145 | a run in which every look succeeds that ends with a submission and a failure |
| `FailedLooks.CancellationPastFailedLook` | packages/agent-core/src/dispatch.ts:351-367 | a cancellation whose look at the owed record fails records a failure iff the message is open; with an acceptance owed it is then unrecorded, and the next look that succeeds records the submission after the failure |
| `FailedLooks.ReadyPastFailedLook` | packages/agent-core/src/prepare.ts:152-195 | a preparation or dispatch whose look at the owed record fails records an expiry iff the message is open and expired, with an acceptance owed the submission after it, and a dispatch carries the selected preparation iff it may be carried |
| `FailedLooks.CallPastFailedLook` | packages/agent-core/src/dispatch.ts:107-146 | carried on, it calls iff the message has not expired by the recheck, and with an acceptance owed the call, or the expiry, comes after it was kept and before it is recorded |
| `FailedLooks.FailedReadLetsBoth` | packages/agent-core/src/local-records.ts:100-108 | a run with steady evidence and one failed read that ends with a failure and a submission |
| `FailedLooks.FailedReadLetsExpire` | packages/agent-core/src/local-records.ts:100-108 | a run with one failed read in which an accepted message is recorded as expired |
| `FailedLooks.FailedReadCallsAgain` | packages/agent-core/src/local-records.ts:100-108 | a run with one failed read in which an accepted message is called for again |
| `FailedLooks.ReplacedIsCarried` | packages/agent-core/src/prepare.ts:235-262 | where a failed look replaces the selection and the write is taken, an unexpired message's call carries the other preparation, so that two calls with no choice between them differ |
| `FailedLooks.FailedReadCarriesAnother` | packages/agent-core/src/local-records.ts:100-108 | a run with steady evidence and one failed read whose two calls carry two preparations with none chosen |
| `Outbox.Message.Attempt` | packages/agent-core/src/dispatch.ts:107-146 | every statement is a step of the machine, and the vault may receive anything wherever the lock is free; an acceptance found owed is the outcome; the action is spent iff the call was made, and the call carries what is selected; the premise of safety survives if the look passes over no unrecorded acceptance and nothing arriving withdraws anything; no call is made once its expiry's second has come by the recheck, and an open message whose second has come is recorded as expired |
| `Outbox.Message.MintAction` | packages/agent-core/src/action.ts:29-57 | a new action is live and unspent, the others as they were |
| `Outbox.SendOnce` | packages/agent-core/src/dispatch.ts:101-146 | a message decided and dispatched under its first action is safe after, whatever the world answers that withdraws nothing |
| `Outbox.Message.Carry` | packages/agent-core/src/dispatch.ts:122-146 | a prerequisite missing, no way out, a refused recheck, a passed deadline or a closed caller calls nothing and spends nothing; the call is made of the preparation picked iff none of these is so; the premise of safety survives if nothing arriving withdraws anything |
| `Outbox.Message.Receive` | packages/agent-core/src/dispatch.ts:8-24 | the next look at the fold sees the events that arrived, none taken back; the premise of safety survives iff they withdraw nothing |
| `Outbox.Message.RecheckUnderLock` | packages/agent-core/src/dispatch.ts:217-237 | the call goes ahead iff the message is open, its expiry has not come in whole seconds, the preparation can go on the wire and the action is live and unspent; an expiry that has come is recorded iff the message is open |
| `Outbox.Message.CallOut` | packages/agent-core/src/dispatch.ts:306-327 | the action is consumed in the step that calls, and an accepted call ends with its submission recorded |
| `Outbox.Message.PrepareUnderLock` | packages/agent-core/src/prepare.ts:183-195 | an expiry is recorded iff the message is open and its second has come; a preparation is carried only once selected, and one found selected is never replaced |
| `Outbox.Message.PrepareMessage` | packages/agent-core/src/prepare.ts:152-161 | every statement is a step of the machine; an acceptance found owed is recorded before the fold is read; exactly when the premise of safety survives |
| `Outbox.Message.PreparationOf` | packages/agent-core/src/prepare.ts:235-295 | a preparation found selected is carried or nothing is; with none found the only candidate, or one made where there is none and it can be made, is to be selected; otherwise why not, and nothing else is written |
| `Outbox.Message.RecordOwedAcceptance` | packages/agent-core/src/acceptance.ts:30-34 | an acceptance the look finds owed is recorded before the work goes on |
| `Outbox.Message.RecordAcceptanceOwed` | packages/agent-core/src/acceptance.ts:36-46 | an open records what it finds owed of an unsubmitted message that has a preparation, and calls nothing |
| `Outbox.Message.RecordAcceptance` | packages/agent-core/src/acceptance.ts:20-28 | an acceptance ends recorded whether or not it could be kept as owed |
| `Outbox.Message.Committed` | packages/agent-core/src/acceptance.ts:48-59 | the submission is recorded once, and the owed record dropped after |
| `Outbox.Message.CancelMessage` | packages/agent-core/src/dispatch.ts:343-367 | a cancellation is recorded iff nothing is found owed and the message, with what arrived after the look, is open; an acceptance found owed is recorded instead; exactly when the premise of safety survives |
| `Outbox.Message.SelectPreparation` | packages/agent-core/src/dispatch.ts:374-400 | a choice is written iff nothing is found owed, it is a candidate of a message a call may carry, its envelope is here and the write is taken; exactly when the premise of safety survives |
| `Trace.TraceOf` | packages/agent-core/src/trace.ts:156-197 | terminates on any parent graph and returns, in sequence order, exactly the least set closed inward over the least chain closed outward from the message's ends |
| `Trace.Outward` | packages/agent-core/src/trace.ts:173-182 | the least set with the ends in it that is closed under kept parents, cycles included |
| `Trace.Inward` | packages/agent-core/src/trace.ts:183-195 | the least set with the chain in it that is closed under children, but for envelopes hanging on a non-end of the chain |
| `Effects.Settle` | packages/agent-core/src/effects.ts:220-264 | a recorded result in scope is returned as it stands; an operation with none is settled by the receipt's first response or the handler's first to it, recorded and answered as that says and the disk allows, refused where the handler it was asked of threw, and otherwise left alone; the handler is asked for exactly what it declares in scope that has no result and is not the receipt's |
| `Effects.Settlement.Decide` | packages/agent-core/src/effects.ts:243-248 | the first response to an open operation settles it: an output is recorded iff it is content with a channel and a skip iff it is a skip, where the disk takes it, and it is answered as created or skipped iff the disk did not throw; any other response changes nothing |
| `Effects.OneResultPerOperation` | packages/agent-core/src/effects.ts:132-208 | over any turns, whatever arrives between them, this runtime commits one output or one skip for an operation, never both |
| `Effects.AnsweredIsRecorded` | packages/agent-core/src/effects.ts:275-318 | after a turn, what it answered as created has an output for its result, and what it answered as skipped that skip |
| `Effects.AnsweredOnce` | packages/agent-core/src/effects.ts:132-264 | over any turns, an operation once answered as created or skipped is asked of the handler in no later turn, created in none and committed for in none |
| `Sessions.Registry.BindFirst` | mediator/src/transport/sessions.ts:90-97 | a session is bound to the first DID it proves, never again and never once closed; the index stays exact |
| `Sessions.Registry.Open` | mediator/src/transport/sessions.ts:48-62 | a session starts bound to nothing, or as it was saved, and moves no other |
| `Sessions.Registry.Close` | mediator/src/transport/sessions.ts:99-116 | a closed session is under no key, and no empty set is kept |
| `Sessions.Registry.SetFlags` | mediator/src/transport/sessions.ts:72-84 | flags are saved beside the socket while it is open, and what was saved stays once it is closed |
| `Sessions.Registry.LiveSessionsFor` | mediator/src/transport/sessions.ts:153-165 | a push to either spelling reaches exactly the open sessions of its short form with live delivery on |
| `Sessions.Wake` | mediator/src/workers/inbox-hub.ts:48-91 | every socket is reopened as it was saved, each its own session |
| `Sessions.Rewake` | mediator/src/workers/inbox-hub.ts:48-91 | a host that wakes with its open sockets builds of their saved states an index with the same keys and each socket under the keys it was under |
| `Sessions.WakingRebuilds` | mediator/src/workers/inbox-hub.ts:67-91 | a socket reopened is under a key iff it was before, in the state it had |
| `Sessions.WakingKeepsKeys` | mediator/src/workers/inbox-hub.ts:48-55 | and the index has the same keys |
| `Dispatcher.Dispatcher.Run` | packages/agent-core/src/dispatcher.ts:96-109 | a new action retires the message's wait for good, taking its timer back, leaves every other wait, and a closed dispatcher runs nothing |
| `Dispatcher.Dispatcher.Cancel` | packages/agent-core/src/dispatcher.ts:116-120 | a cancellation retires the message's wait and no other |
| `Dispatcher.RetiredStaysQuiet` | packages/agent-core/src/dispatcher.ts:150-199 | a wait replaced, cancelled, given up on or done has no timer and is no message's; no method un-retires one |
| `Dispatcher.ReplacedNeverSchedules` | packages/agent-core/src/dispatcher.ts:96-163 | a wait replaced while its attempt ran arms nothing, however that attempt ends |
| `Dispatcher.Dispatcher.Finish` | packages/agent-core/src/dispatcher.ts:150-163 | a wait is kept and a timer armed iff the attempt was held up, the wait is not retired, attempts are left and the dispatcher is open; otherwise it is retired, and every other wait stays |
| `Dispatcher.Dispatcher.Schedule` | packages/agent-core/src/dispatcher.ts:165-182 | the next attempt is due after the delay of its attempt count and a timer is set for as much of it as one takes, or the wait is given up |
| `Dispatcher.Dispatcher.Fire` | packages/agent-core/src/dispatcher.ts:175-179 | a timer fires for the wait held for its message, once, within the policy's attempts, and before the wait is due iff that is longer than a timer takes |
| `Dispatcher.Dispatcher.Close` | packages/agent-core/src/dispatcher.ts:138-143 | no wait is kept and no timer stays armed |
| `Dispatcher.DelayDoubles` | packages/agent-core/src/dispatcher.ts:173-173 | the first wait, then each twice the one before, up to the longest |
| `Dispatcher.FiresWhenDue` | packages/agent-core/src/dispatcher.ts:33-34 | every timer a policy lets be armed fires when its wait is due iff the last of those waits is one a timer takes |
| `Dispatcher.WhichFireWhenDue` | packages/agent-core/src/dispatcher.ts:31-34 | the default policy's do, and a policy whose first wait is longer does not |
| `Serially.Queues.Ask` | packages/agent-core/src/procedure.ts:30-43 | work is asked for after everything under its key, and becomes the key's tail |
| `Serially.Queues.Start` | packages/agent-core/src/procedure.ts:37-38 | work starts only once all earlier work of its key is done |
| `Serially.Queues.Follow` | packages/agent-core/src/procedure.ts:44-48 | a key is forgotten once its last work is done, unless more was asked for |
| `Serially.OneAtATime` | packages/agent-core/src/procedure.ts:24-29 | at any moment one piece of work of a key runs at most, and they finish in order |
| `Serially.NothingOutlives` | packages/agent-core/src/procedure.ts:24-29 | a key with no work left is not in the map |
| `SqlStore.Store.GrantMediation` | mediator/src/store/sql-store.ts:522-534 | one step of the run; held iff the DID has an account afterwards |
| `SqlStore.Store.RevokeMediation` | mediator/src/store/sql-store.ts:536-541 | one step: all rows of the account go, its blob ids end |
| `SqlStore.Store.AddRecipient` | mediator/src/store/sql-store.ts:560-587 | one step; the answer is read off the owner before and after |
| `SqlStore.Store.RemoveRecipient` | mediator/src/store/sql-store.ts:589-598 | one step; removed iff the entry was the owner's |
| `SqlStore.Store.StoreMessage` | mediator/src/store/sql-store.ts:1264-1282 | one step; full iff the unexpired messages are at the limit |
| `SqlStore.Store.DeleteMessages` | mediator/src/store/sql-store.ts:1310-1318 | one statement for each id; reports in order exactly the owner's that were there, each where it first was deleted |
| `StoreSpec.ReportedIsNamed` | mediator/src/store/sql-store.ts:1310-1318 | what a deletion reports is what it deleted, each id once |
| `SqlStore.Store.RegisterReplicaAccount` | mediator/src/store/sql-store.ts:637-677 | one step; the outcome is read back from the row |
| `SqlStore.Store.DeleteReplicaAccount` | mediator/src/store/sql-store.ts:679-712 | one step: all rows of the account go, its replicas' blobs end |
| `SqlStore.Store.AddReplica` | mediator/src/store/sql-store.ts:714-796 | one step; which outcome it was is read back from the rows |
| `SqlStore.Store.RemoveReplica` | mediator/src/store/sql-store.ts:798-836 | one step: deliveries and last packages go, blobs end, the row stays as removed |
| `SqlStore.Store.EndDeliveries` | mediator/src/store/sql-store.ts:1144-1166 | packages deleted first and deliveries after drop the selected deliveries and exactly the packages whose last delivery was among them |
| `SqlStore.Store.ReplicaRoster` | mediator/src/store/sql-store.ts:854-903 | members past one ordinal and up to another, ordered and limited, are that slice of the roster |
| `SqlStore.Store.AddSharedRecipient` | mediator/src/store/sql-store.ts:914-972 | one step; full and conflict are told apart by whether the DID is bound elsewhere |
| `SqlStore.Store.RemoveSharedRecipient` | mediator/src/store/sql-store.ts:974-995 | one step; removed iff the recipient was the account's |
| `SqlStore.Store.ListSharedRecipients` | mediator/src/store/sql-store.ts:997-1027 | the first so many past a place, in order, and whether there is one more |
| `SqlStore.Store.FanOut` | mediator/src/store/sql-store.ts:1037-1107 | one step; the outcome and the deliveries made, read back, are the ones of the rule |
| `SqlStore.Store.InsertPackage` | mediator/src/store/sql-store.ts:1057-1083 | over the account rows, one at most, the package is inserted iff that account has room |
| `SqlStore.RowsAreRoute` | mediator/src/store/sql-store.ts:1053-1056 | the account subquery's two parts never both yield a row |
| `SqlStore.TargetRowsAreTargets` | mediator/src/store/sql-store.ts:1084-1090 | the delivery insert selects exactly the active replicas of the sharing account, or the one active replica named |
| `SqlStore.Store.DeliveriesFor` | mediator/src/store/sql-store.ts:1109-1123 | the first so many unexpired deliveries of the replica, by creation and rowid |
| `SqlStore.Store.AcknowledgeDeliveries` | mediator/src/store/sql-store.ts:1135-1142 | one step: the replica's own named deliveries end |
| `SqlStore.Store.RegisterExecution` | mediator/src/store/sql-store.ts:1168-1249 | one step; the outcome is the registration as it stands, its replicas by ordinal |
| `SqlStore.Store.PurgeExecutions` | mediator/src/store/sql-store.ts:1251-1262 | one step; how many lapsed |
| `SqlStore.Store.PurgeExpired` | mediator/src/store/sql-store.ts:1320-1333 | one step; how many messages and packages were past their expiry |
| `SqlStore.Store.KeepBlob` | mediator/src/store/sql-store.ts:1373-1420 | one step of insert and update; kept, mismatch, full or ended |
| `SqlStore.Store.DropBlob` | mediator/src/store/sql-store.ts:1422-1429 | one step; the id whose bytes are the caller's to delete |
| `SqlStore.Store.GrantUpload` | mediator/src/store/sql-store.ts:1431-1438 | one step: a token for a row that is there |
| `SqlStore.Store.ClaimUpload` | mediator/src/store/sql-store.ts:1440-1452 | one step: the token goes, live or not, and names its blob iff live |
| `SqlStore.Store.MarkUploaded` | mediator/src/store/sql-store.ts:1454-1459 | one step: a row not yet marked is |
| `SqlStore.Store.PurgeBlobs` | mediator/src/store/sql-store.ts:1468-1480 | one step; exactly the lapsed and the ended ids are handed back |
| `Listing.OrderBy` | mediator/src/store/sql-store.ts:1118-1120 | ORDER BY over distinct keys is the one listing of them in strict order |

## Left out
- Schema creation and migrations: legacy rows have no history; runs start from an empty current schema.
- Cryptography, DID resolution and document checks: who sent a message and that a long form is valid are inputs.
- The vault's fold over events: what it reads of a message's evidence is an input that may change at any step; its own rules for submitted, terminal and candidates are modelled.
- HTTP, WebSocket and storage backends, configuration, the app, the command line and the views.
- Cursor text: cursors are their members, base64url and JSON spelling not modelled; a recipient cursor a client forged is ordered by a fixed order of DIDs, which for texts that are no did:peer:4 is not their own.
- The list `messagesFor` returns: it leaves ties on creation time unordered, so only its members and count are modelled.
- `listRecipients`, `blobUsage` and the single-row lookups: they only read one table.
- Keeping the input left to another replica in the local records, and whether an input owes an output at all: easy members beside the election itself.
- SqlStore.Store.AddRecipient: a row naming no account is an outcome here, where the source lets the foreign key throw.
- Outbound and its steps: on values, not methods, because a crash between any two steps is the point; `Outbox` is the same in methods, in which nothing crashes and the vault receives events after the look at what is owed, after the preparation, after the recheck and during the call; between the writes that follow an acceptance or a choice, which read nothing of the fold but whether the submission is there, only `Outbound` has them arrive.
- BlobService and EndToEnd: steps on values, for the same reason; that an upload's declared length is checked before its body is part of the body not matching.
- Outbox.Message.Attempt: the mediator confirming a sender, resolving a route and sealing a forward are one answer, whether there is a way out now, later or never.
- Dispatcher.Dispatcher.Finish: what an attempt does is Outbox's; here it is held up, settled or threw.
- Effects.Settle: contents and drafts are whether there is a channel and what the disk does with the record.
- Draining.DrainQuietly: while it runs nothing else comes, goes or expires for the replica; what happens otherwise is EndToEnd's.
