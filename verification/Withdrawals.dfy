/**
 * When a failure does come beside a submission. The fold reads a message as
 * submitted while a preparation its submission names is complete, so evidence
 * that withdraws the last one's completeness opens the message again: then,
 * and only then while no failed look passes over an acceptance, a
 * cancellation or an expiry is recorded beside it.
 */
module Withdrawals {
  import opened Dids
  import opened Outbound
  import opened OutboundSafety

  /** What of safety needs no steady evidence. */
  ghost predicate Standing(s: State, c: Cid) {
    c in s.evidence.prepared && (c in s.submissions || NoFailure(s.log))
  }

  ghost predicate WorkStands(s: State) {
    match s.work
    case Idle => true
    case ReadingOwed(_) => true
    case RecordingOwed(_, c) => Standing(s, c) && (OwedRecorded(s) || s.owed == Some(c))
    case Invoking(_, c) => c in s.evidence.prepared && NoFailure(s.log) && OwedRecorded(s)
    case InFlight(c) => c in s.evidence.prepared && NoFailure(s.log) && OwedRecorded(s)
    case Keeping(c) => c in s.evidence.prepared && NoFailure(s.log) && OwedRecorded(s)
    case Committing(c) => c in s.evidence.prepared && NoFailure(s.log) && (OwedRecorded(s) || s.owed == Some(c))
    case _ => OwedRecorded(s)
  }

  ghost predicate OpeningStands(s: State) {
    match s.opening
    case OpenRecording(c) => Standing(s, c) && (c in s.submissions || s.owed == Some(c))
    case _ => true
  }

  ghost predicate Traceable(s: State) {
    && (forall c :: RecordedSubmission(c) in s.log ==> c in s.submissions && c in s.evidence.prepared)
    && FailureStands(s)
    && (s.owed.Some? ==> Standing(s, s.owed.value))
    && WorkStands(s)
    && OpeningStands(s)
  }

  lemma LogAfter(s: State, l: Label)
    requires Enabled(s, l)
    ensures var r := After(s, l); r.log == s.log || (|r.log| == |s.log| + 1 && r.log == s.log + [r.log[|s.log|]])
  {
    hide TodoOf, Candidates, IsClosed, CarriageOf;
  }

  lemma TraceableAfterWriting(s: State, l: Label)
    requires Traceable(s) && Enabled(s, l) && Heeded(s, l)
    requires l.CommitOwed? || l.CommitAccepted? || l.OpenCommit? || l.WriteOwed? || l.WriteChoice? || l.Invoke? || l.DropOwed? || l.OpenDrop?
    ensures Traceable(After(s, l))
  {
    LogAfter(s, l);
    var r := After(s, l);
    assert forall x :: x in r.log ==> x in s.log || x == r.log[|s.log|];
  }

  lemma TraceableAfterReady(s: State, l: Label)
    requires Traceable(s) && Enabled(s, l) && l.Ready?
    ensures Traceable(After(s, l))
  {
    hide CarriageOf, TodoOf;
    LogAfter(s, l);
    var r := After(s, l);
    assert forall x :: x in r.log ==> x in s.log || x == r.log[|s.log|];
  }

  lemma TraceableAfterDeciding(s: State, l: Label)
    requires Traceable(s) && Enabled(s, l)
    requires l.Recheck? || l.CancelLocked?
    ensures Traceable(After(s, l))
  {
    hide CarriageOf, TodoOf;
    LogAfter(s, l);
    var r := After(s, l);
    assert forall x :: x in r.log ==> x in s.log || x == r.log[|s.log|];
  }

  lemma TraceableAfterRest(s: State, l: Label)
    requires Traceable(s) && Enabled(s, l) && Heeded(s, l)
    requires l.Begin? || l.ReadOwed? || l.Answer? || l.CheckChoice? || l.GiveUp? || l.Crash? || l.Mint? || l.OpenLook? || l.OpenRead? || l.Learn? || l.WriteSelection?
    ensures Traceable(After(s, l))
  {
    hide TodoOf, Candidates, IsClosed;
  }

  lemma TraceableKept(s: State, l: Label)
    requires Traceable(s) && Enabled(s, l) && Heeded(s, l)
    ensures Traceable(After(s, l))
  {
    hide Traceable, After;
    if l.CommitOwed? || l.CommitAccepted? || l.OpenCommit? || l.WriteOwed? || l.WriteChoice? || l.Invoke? || l.DropOwed? || l.OpenDrop? {
      TraceableAfterWriting(s, l);
    } else if l.Ready? {
      TraceableAfterReady(s, l);
    } else if l.Recheck? || l.CancelLocked? {
      TraceableAfterDeciding(s, l);
    } else {
      TraceableAfterRest(s, l);
    }
  }

  // ---- every run in which no failed look passes over an unrecorded acceptance ----

  /** No submission is recorded after a failure. */
  predicate SubmissionsFirst(log: seq<Entry>) {
    forall i, j :: 0 <= i < j < |log| && log[i].RecordedFailure? ==> !log[j].RecordedSubmission?
  }

  lemma SubmissionsFirstKept(s: State, l: Label)
    requires Traceable(s) && SubmissionsFirst(s.log) && Enabled(s, l)
    ensures SubmissionsFirst(After(s, l).log)
  {
    hide CarriageOf, TodoOf, Candidates, IsClosed;
    LogAfter(s, l);
    var r := After(s, l);
    if r.log != s.log {
      var e := r.log[|s.log|];
      assert e.RecordedSubmission? ==> NoFailure(s.log);
      forall i | 0 <= i < |s.log| && s.log[i].RecordedFailure? ensures !e.RecordedSubmission? {
        assert s.log[i] in s.log;
      }
    }
  }

  lemma {:induction false} RunsAreTraceable(states: seq<State>, labels: seq<Label>, n: nat)
    requires IsRun(states, labels) && n < |states|
    requires forall i :: 0 <= i < |labels| ==> Heeded(states[i], labels[i])
    ensures Traceable(states[n]) && SubmissionsFirst(states[n].log)
  {
    if n > 0 {
      hide Traceable, Enabled, After, SubmissionsFirst, Heeded;
      RunsAreTraceable(states, labels, n - 1);
      TraceableKept(states[n - 1], labels[n - 1]);
      SubmissionsFirstKept(states[n - 1], labels[n - 1]);
    }
  }

  /** Every preparation this runtime recorded a submission of has lost its completeness under a consistent intent, and nothing else closes the message. */
  predicate Withdrawn(s: State) {
    s.evidence.consistent && !Terminal(s) && forall c :: c in s.submissions && c in s.evidence.prepared ==> c !in s.evidence.complete
  }

  lemma FailureFindsOpen(s: State, l: Label)
    requires Enabled(s, l)
    ensures |After(s, l).log| > |s.log| && After(s, l).log[|s.log|].RecordedFailure? ==> !IsClosed(s)
  {
    hide CarriageOf, TodoOf, Candidates;
  }

  /** Whatever the evidence does: a submission and a failure are both recorded only in that order, the failure by a step that found the submission withdrawn. */
  lemma FailureBesideMeansWithdrawn(states: seq<State>, labels: seq<Label>, n: nat, c: Cid)
    requires IsRun(states, labels) && n < |labels|
    requires forall i :: 0 <= i < |labels| ==> Heeded(states[i], labels[i])
    requires RecordedSubmission(c) in states[n].log
    requires |states[n + 1].log| > |states[n].log| && states[n + 1].log[|states[n].log|].RecordedFailure?
    ensures Withdrawn(states[n]) && c in states[n].submissions && c in states[n].evidence.prepared
    ensures SubmissionsFirst(states[n + 1].log)
  {
    hide After, Enabled, SubmissionsFirst;
    RunsAreTraceable(states, labels, n);
    RunsAreTraceable(states, labels, n + 1);
    FailureFindsOpen(states[n], labels[n]);
  }

  /** The three steps of a cancellation with nothing owed. */
  ghost function AfterCancellation(s: State): (r: State)
    requires s.work.Idle? && s.owed.None?
  {
    After(After(After(s, Begin(Cancel)), ReadOwed(true)), CancelLocked)
  }

  /** And there it is recorded: a cancellation of a message this runtime submitted comes to a failure iff the submission is withdrawn. */
  lemma CancellationBesideSubmission(s: State)
    requires s.work.Idle? && s.owed.None?
    ensures AfterCancellation(s).log == s.log + (if Withdrawn(s) then [RecordedFailure(Cancelled)] else [])
  {
    var t := After(After(s, Begin(Cancel)), ReadOwed(true));
    assert t == s.(work := Cancelling);
    assert IsClosed(t) <==> !Withdrawn(s);
  }

  // ---- a run that ends with both ----

  lemma AlongThree(s: State, a: Label, b: Label, c: Label)
    requires Enabled(s, a) && Enabled(After(s, a), b) && Enabled(After(After(s, a), b), c)
    ensures Along(s, [a, b, c]) == Some(After(After(After(s, a), b), c))
  {
    hide After, Enabled;
    AlongStep(s, a, [b] + ([c] + []));
    AlongStep(After(s, a), b, [c] + []);
    AlongStep(After(After(s, a), b), c, []);
    assert [a] + ([b] + ([c] + [])) == [a, b, c];
  }

  const OPEN := Evidence(true, Some(1), {7}, {7}, {}, false)
  const START := State(Evidence(true, Some(1), {}, {}, {}, false), {}, {}, None, None, Idle, Closed, map[], {}, [])
  const MADE := State(OPEN, {}, {}, None, None, Selecting(Dispatch(0), 7), Closed, map[0 := false], {0}, [])
  const RECHECKED := State(OPEN, {}, {}, Some(7), None, Invoking(0, 7), Closed, map[0 := false], {0}, [])
  const KEPT := State(OPEN, {}, {}, Some(7), Some(7), Committing(7), Closed, map[0 := true], {0}, [Called(0, 7), Kept(7)])

  const TO_MADE := [Mint(0), Begin(Dispatch(0)), ReadOwed(true), Ready(0, 7, true, true)]
  const TO_RECHECKED := [WriteSelection(true, false), Recheck(0)]
  const TO_KEPT := [Invoke, Answer(true), WriteOwed(true)]

  lemma ToMade()
    ensures Along(START, TO_MADE) == Some(MADE)
  {
    var s := After(After(After(START, Mint(0)), Begin(Dispatch(0))), ReadOwed(true));
    assert s == START.(actions := map[0 := false], minted := {0}, work := Readying(Dispatch(0)));
    assert TodoOf(s).ToPrepare?;
    assert After(s, Ready(0, 7, true, true)) == MADE;
  }

  lemma ToRechecked()
    ensures Along(MADE, TO_RECHECKED) == Some(RECHECKED)
  {
    assert 7 in Candidates(MADE);
    var s := After(MADE, WriteSelection(true, false));
    assert s == MADE.(selected := Some(7), work := Carrying(0, 7));
    assert 7 in Candidates(s);
    assert After(s, Recheck(0)) == RECHECKED;
  }

  lemma AcceptedAndKept()
    ensures Along(RECHECKED, TO_KEPT) == Some(KEPT)
  {
    hide Along;
    AlongThree(RECHECKED, Invoke, Answer(true), WriteOwed(true));
    assert map[0 := false][0 := true] == map[0 := true];
    assert After(After(After(RECHECKED, Invoke), Answer(true)), WriteOwed(true)) == KEPT;
  }

  lemma ToKept()
    ensures Along(START, TO_MADE + TO_RECHECKED + TO_KEPT) == Some(KEPT)
  {
    hide Along, After, Enabled;
    ToMade();
    AcceptedAndKept();
    ToRechecked();
    AlongOnwards(START, TO_MADE, TO_RECHECKED);
    AlongOnwards(START, TO_MADE + TO_RECHECKED, TO_KEPT);
  }

  const WITHDRAWN := Evidence(true, Some(1), {7}, {}, {}, false)
  const WITHDRAWAL := [CommitAccepted, DropOwed(true), Learn(WITHDRAWN, {7}, {})]
  const CANCELLATION := [Begin(Cancel), ReadOwed(true), CancelLocked]

  const RECORDED := State(WITHDRAWN, {7}, {}, Some(7), None, Idle, Closed, map[0 := true], {0}, [Called(0, 7), Kept(7), RecordedSubmission(7)])

  lemma ToWithdrawn()
    ensures Along(KEPT, WITHDRAWAL) == Some(RECORDED)
    ensures Along(RECORDED, CANCELLATION) == Some(AfterCancellation(RECORDED))
  {
    hide Along;
    AlongThree(KEPT, CommitAccepted, DropOwed(true), Learn(WITHDRAWN, {7}, {}));
    assert After(After(After(KEPT, CommitAccepted), DropOwed(true)), Learn(WITHDRAWN, {7}, {})) == RECORDED;
    AlongThree(RECORDED, Begin(Cancel), ReadOwed(true), CancelLocked);
  }

  /** With every read reliable, evidence that withdraws the preparation lets a cancellation in after the submission. */
  lemma WithdrawalLetsBoth()
    ensures var end := Along(START, TO_MADE + TO_RECHECKED + TO_KEPT + WITHDRAWAL + CANCELLATION);
      end.Some? && end.value.log == [Called(0, 7), Kept(7), RecordedSubmission(7), RecordedFailure(Cancelled)]
  {
    hide Along, After, Enabled;
    ToKept();
    ToWithdrawn();
    CancellationBesideSubmission(RECORDED);
    AlongOnwards(START, TO_MADE + TO_RECHECKED + TO_KEPT, WITHDRAWAL);
    AlongOnwards(START, TO_MADE + TO_RECHECKED + TO_KEPT + WITHDRAWAL, CANCELLATION);
  }
}
