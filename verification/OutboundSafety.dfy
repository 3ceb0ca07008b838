/**
 * Over every run with crashes at any step: an acceptance once kept is the
 * message's outcome, and this runtime records a submission or a failure of
 * it, never both.
 */
module OutboundSafety {
  import opened Dids
  import opened Outbound

  /** The preparation is here and complete, or the intent is in conflict. */
  predicate Good(s: State, c: Cid) {
    s.evidence.consistent ==> c in s.evidence.prepared && c in s.evidence.complete
  }

  predicate NoFailure(log: seq<Entry>) {
    forall code :: RecordedFailure(code) !in log
  }

  ghost predicate WasCalled(log: seq<Entry>, c: Cid) {
    exists a :: Called(a, c) in log
  }

  /** Nothing this runtime did has an outcome in it. */
  ghost predicate Undecided(log: seq<Entry>) {
    && NoFailure(log)
    && (forall c :: Kept(c) !in log)
    && (forall c :: RecordedSubmission(c) !in log)
  }

  /** An acceptance kept is recorded, or still owed; there is at most one, and no failure beside it. */
  ghost predicate OwedStands(s: State) {
    && (forall c :: Kept(c) in s.log ==>
          Good(s, c) && (c in s.submissions || s.owed == Some(c)) && NoFailure(s.log) && WasCalled(s.log, c))
    && (forall c, d :: Kept(c) in s.log && Kept(d) in s.log ==> c == d)
    && (s.owed.Some? ==> Kept(s.owed.value) in s.log)
  }

  ghost predicate SubmissionStands(s: State) {
    forall c :: RecordedSubmission(c) in s.log ==> c in s.submissions && Good(s, c) && NoFailure(s.log) && WasCalled(s.log, c)
  }

  predicate FailureStands(s: State) {
    NoFailure(s.log) || Cancelled in s.failures || (Expired in s.failures && s.evidence.expires.Some?)
  }

  ghost predicate WorkFits(s: State) {
    match s.work
    case Idle => true
    case ReadingOwed(_) => true
    case RecordingOwed(_, c) => Kept(c) in s.log
    case Invoking(_, c) => Good(s, c) && Undecided(s.log)
    case InFlight(c) => Good(s, c) && Undecided(s.log) && WasCalled(s.log, c)
    case Keeping(c) => Good(s, c) && Undecided(s.log) && WasCalled(s.log, c)
    case Committing(c) => Good(s, c) && NoFailure(s.log) && (forall d :: Kept(d) in s.log ==> d == c) && WasCalled(s.log, c)
    case _ => OwedRecorded(s)
  }

  ghost predicate OpeningFits(s: State) {
    match s.opening
    case OpenRecording(c) => Kept(c) in s.log
    case OpenDropping(c) => Kept(c) in s.log && c in s.submissions
    case _ => true
  }

  ghost predicate Safe(s: State) {
    OwedStands(s) && SubmissionStands(s) && FailureStands(s) && WorkFits(s) && OpeningFits(s)
  }

  /** Past the look at what is owed, an open message has no outcome yet. */
  lemma OpenMeansUndecided(s: State)
    requires OwedStands(s) && SubmissionStands(s) && FailureStands(s) && OwedRecorded(s)
    requires !IsClosed(s)
    ensures Undecided(s.log)
  {
    assert forall c :: Kept(c) in s.log ==> c in s.submissions;
    assert forall c :: RecordedSubmission(c) in s.log ==> c in s.submissions;
  }

  lemma SafeAfterFailure(s: State, code: Code)
    requires Safe(s) && Undecided(s.log)
    requires code.Expired? ==> s.evidence.expires.Some?
    ensures Safe(CommitFailure(s, code))
  {
    var r := CommitFailure(s, code);
    assert forall e :: e in r.log ==> e in s.log || e == RecordedFailure(code);
  }

  lemma CalledStays(log: seq<Entry>, e: Entry)
    ensures forall c :: WasCalled(log, c) ==> WasCalled(log + [e], c)
  {
    forall c | WasCalled(log, c) ensures WasCalled(log + [e], c) {
      var a :| Called(a, c) in log;
      assert Called(a, c) in log + [e];
    }
  }

  lemma SafeAfterSubmission(s: State, c: Cid)
    requires OwedStands(s) && SubmissionStands(s) && FailureStands(s)
    requires Good(s, c) && NoFailure(s.log) && WasCalled(s.log, c)
    ensures var r := CommitSubmission(s, c); OwedStands(r) && SubmissionStands(r) && FailureStands(r)
  {
    CalledStays(s.log, RecordedSubmission(c));
    var r := CommitSubmission(s, c);
    assert forall e :: e in r.log ==> e in s.log || e == RecordedSubmission(c);
    assert forall e :: e in s.log ==> e in r.log;
  }

  lemma SafeAfterReading(s: State, l: Label)
    requires Safe(s) && Enabled(s, l) && Heeded(s, l)
    requires l.Begin? || l.ReadOwed? || l.CheckChoice? || l.Answer?
    ensures Safe(After(s, l))
  {
  }

  lemma SafeAfterOpening(s: State, l: Label)
    requires Safe(s) && Enabled(s, l)
    requires l.OpenLook? || l.OpenRead?
    ensures Safe(After(s, l))
  {
  }

  lemma SafeAfterDropping(s: State, l: Label)
    requires Safe(s) && Enabled(s, l)
    requires l.DropOwed? || l.GiveUp? || l.Crash? || l.Mint? || l.OpenDrop?
    ensures Safe(After(s, l))
  {
  }

  lemma SafeAfterCommit(s: State, l: Label)
    requires Safe(s) && Enabled(s, l)
    requires l.CommitOwed? || l.CommitAccepted? || l.OpenCommit?
    ensures Safe(After(s, l))
  {
    var c := if l.CommitOwed? then s.work.owing else if l.CommitAccepted? then s.work.carried else s.opening.owing;
    SafeAfterSubmission(s, c);
    assert forall e :: e in After(s, l).log ==> e in s.log || e == RecordedSubmission(c);
    assert forall e :: e in s.log ==> e in After(s, l).log;
    CalledStays(s.log, RecordedSubmission(c));
  }

  lemma SafeAfterReady(s: State, l: Label)
    requires Safe(s) && Enabled(s, l) && l.Ready?
    ensures Safe(After(s, l))
  {
    var now := l.now;
    if !IsClosed(s) {
      OpenMeansUndecided(s);
      if HasExpired(s, now) {
        SafeAfterFailure(s, Expired);
      }
    }
  }

  lemma SafeAfterRecheck(s: State, l: Label)
    requires Safe(s) && Enabled(s, l) && l.Recheck?
    ensures Safe(After(s, l))
  {
    var now := l.now;
    if !IsClosed(s) {
      OpenMeansUndecided(s);
      if HasExpired(s, now) {
        SafeAfterFailure(s, Expired);
      }
    }
  }

  lemma SafeAfterCancel(s: State)
    requires Safe(s) && s.work.Cancelling?
    ensures Safe(After(s, CancelLocked))
  {
    if !IsClosed(s) {
      OpenMeansUndecided(s);
      SafeAfterFailure(s, Cancelled);
    }
  }

  /** A call, an acceptance kept or a choice written. */
  lemma SafeAfterEntry(s: State, l: Label)
    requires Safe(s) && Enabled(s, l)
    requires l.Invoke? || l.WriteOwed? || l.WriteChoice?
    ensures Safe(After(s, l))
  {
    var r := After(s, l);
    if |r.log| > |s.log| {
      var e := r.log[|s.log|];
      assert r.log == s.log + [e];
      CalledStays(s.log, e);
      assert forall x :: x in r.log ==> x in s.log || x == e;
      assert forall x :: x in s.log ==> x in r.log;
      assert l.Invoke? ==> Called(s.work.action, s.work.carried) in r.log;
    } else {
      assert r.log == s.log;
    }
  }

  lemma SafeAfterSelection(s: State, l: Label)
    requires Safe(s) && Enabled(s, l) && l.WriteSelection?
    ensures Safe(After(s, l))
  {
  }

  lemma SafeAfterLearning(s: State, l: Label)
    requires Safe(s) && Enabled(s, l) && l.Learn? && Steady(s, l)
    ensures Safe(After(s, l))
  {
    assert forall c :: Good(s, c) ==> Good(After(s, l), c);
  }

  /** Every step keeps it, while no failed look passes over an unrecorded acceptance and nothing complete is withdrawn. */
  lemma SafeKept(s: State, l: Label)
    requires Safe(s) && Enabled(s, l) && Heeded(s, l) && Steady(s, l)
    ensures Safe(After(s, l))
  {
    hide Safe, After, AfterReady, AfterRecheck;
    match l
    case CommitOwed => SafeAfterCommit(s, l);
    case CommitAccepted => SafeAfterCommit(s, l);
    case OpenCommit => SafeAfterCommit(s, l);
    case Ready(_, _, _, _) => SafeAfterReady(s, l);
    case Recheck(_) => SafeAfterRecheck(s, l);
    case CancelLocked => SafeAfterCancel(s);
    case Invoke => SafeAfterEntry(s, l);
    case WriteOwed(_) => SafeAfterEntry(s, l);
    case WriteChoice(_) => SafeAfterEntry(s, l);
    case WriteSelection(_, _) => SafeAfterSelection(s, l);
    case Learn(_, _, _) => SafeAfterLearning(s, l);
    case DropOwed(_) => SafeAfterDropping(s, l);
    case GiveUp => SafeAfterDropping(s, l);
    case Crash => SafeAfterDropping(s, l);
    case Mint(_) => SafeAfterDropping(s, l);
    case OpenDrop(_) => SafeAfterDropping(s, l);
    case OpenLook => SafeAfterOpening(s, l);
    case OpenRead(_) => SafeAfterOpening(s, l);
    case _ => SafeAfterReading(s, l);
  }

  // ---- nothing after an outcome ----

  predicate IsOutcome(e: Entry) {
    e.Kept? || e.RecordedSubmission? || e.RecordedFailure?
  }

  /** No call follows an acceptance kept, a submission recorded or a failure recorded, and no failure follows the first two. */
  predicate Final(log: seq<Entry>) {
    forall i, j :: 0 <= i < j < |log| && IsOutcome(log[i]) ==> !log[j].Called? && (log[j].RecordedFailure? ==> log[i].RecordedFailure?)
  }

  /** A step adds one entry at most: a call while nothing is decided, a failure while none but a failure is. */
  lemma WhatIsAdded(s: State, l: Label)
    requires Safe(s) && Enabled(s, l)
    ensures var r := After(s, l);
      || r.log == s.log
      || (exists e :: r.log == s.log + [e] && (e.Called? || e.RecordedFailure? ==> Undecided(s.log)))
  {
    var r := After(s, l);
    if |r.log| > |s.log| {
      var e := r.log[|s.log|];
      assert r.log == s.log + [e];
      if e.RecordedFailure? {
        OpenMeansUndecided(s);
      }
    } else {
      assert r.log == s.log;
    }
  }

  lemma FinalKept(s: State, l: Label)
    requires Safe(s) && Final(s.log) && Enabled(s, l)
    ensures Final(After(s, l).log)
  {
    hide Safe, After;
    WhatIsAdded(s, l);
    var r := After(s, l);
    if r.log != s.log {
      var e :| r.log == s.log + [e] && (e.Called? || e.RecordedFailure? ==> Undecided(s.log));
      NothingDecided(s.log);
    }
  }

  lemma NothingDecided(log: seq<Entry>)
    ensures Undecided(log) ==> forall i :: 0 <= i < |log| ==> !IsOutcome(log[i])
  {
    assert forall i :: 0 <= i < |log| ==> log[i] in log;
  }

  // ---- every run ----

  /** No failed look in the run passes over an acceptance not yet recorded, and nothing complete is withdrawn in it. */
  ghost predicate Undisturbed(states: seq<State>, labels: seq<Label>)
    requires |states| == |labels| + 1
  {
    forall i :: 0 <= i < |labels| ==> Heeded(states[i], labels[i]) && Steady(states[i], labels[i])
  }

  lemma {:induction false} RunsAreSafe(states: seq<State>, labels: seq<Label>, n: nat)
    requires IsRun(states, labels) && Undisturbed(states, labels) && n < |states|
    ensures Safe(states[n]) && Final(states[n].log)
  {
    if n > 0 {
      hide Safe, Enabled, After, Final, Heeded, Steady;
      RunsAreSafe(states, labels, n - 1);
      SafeKept(states[n - 1], labels[n - 1]);
      FinalKept(states[n - 1], labels[n - 1]);
    }
  }

  /**
   * However often the process crashes and wherever: this runtime never
   * records both a submission and a failure of one message, calls for it no
   * more once it has kept an acceptance or recorded either, and records no
   * failure once it has kept an acceptance.
   */
  lemma OneOutcome(states: seq<State>, labels: seq<Label>, n: nat)
    requires IsRun(states, labels) && Undisturbed(states, labels) && n < |states|
    ensures forall c, code :: RecordedSubmission(c) in states[n].log ==> RecordedFailure(code) !in states[n].log
    ensures forall c, code :: Kept(c) in states[n].log ==> RecordedFailure(code) !in states[n].log
    ensures forall i, j :: 0 <= i < j < |states[n].log| && IsOutcome(states[n].log[i]) ==> !states[n].log[j].Called?
    ensures forall c :: RecordedSubmission(c) in states[n].log ==> exists a :: Called(a, c) in states[n].log
    ensures forall c :: Kept(c) in states[n].log ==> c in states[n].submissions || states[n].owed == Some(c)
  {
    RunsAreSafe(states, labels, n);
    assert forall c :: RecordedSubmission(c) in states[n].log ==> WasCalled(states[n].log, c);
  }

  /** The same along a path of steps. */
  ghost predicate UndisturbedAlong(s: State, labels: seq<Label>)
    decreases |labels|
  {
    labels != [] && Enabled(s, labels[0]) ==> Heeded(s, labels[0]) && Steady(s, labels[0]) && UndisturbedAlong(After(s, labels[0]), labels[1..])
  }

  /** Wherever a path from a message just decided has come to, it is safe there. */
  lemma {:induction false} PathsAreSafe(s: State, labels: seq<Label>)
    requires Safe(s) && Final(s.log) && UndisturbedAlong(s, labels) && Along(s, labels).Some?
    ensures Safe(Along(s, labels).value) && Final(Along(s, labels).value.log)
    decreases |labels|
  {
    hide Safe, Enabled, After, Final, Heeded, Steady;
    if labels != [] {
      SafeKept(s, labels[0]);
      FinalKept(s, labels[0]);
      PathsAreSafe(After(s, labels[0]), labels[1..]);
    }
  }

  /** One step more. */
  lemma {:induction false} UndisturbedOnce(s: State, labels: seq<Label>, t: State, l: Label)
    requires UndisturbedAlong(s, labels) && Along(s, labels) == Some(t) && Heeded(t, l) && Steady(t, l)
    ensures UndisturbedAlong(s, labels + [l])
    decreases |labels|
  {
    hide Enabled, After, Heeded, Steady;
    if labels == [] {
      assert ([l])[1..] == [] && labels + [l] == [l];
    } else {
      assert (labels + [l])[1..] == labels[1..] + [l];
      UndisturbedOnce(After(s, labels[0]), labels[1..], t, l);
    }
  }

  lemma InitialIsSafe(s: State)
    requires Initial(s)
    ensures Safe(s) && Final(s.log)
  {
  }
}
