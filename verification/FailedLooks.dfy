/**
 * What comes of a look at a local record that fails, and so finds none. One
 * at the owed record passes over an acceptance: the message may then be
 * cancelled, expire or be called for again. One at the selection passes over
 * what is selected: another preparation may then be carried.
 */
module FailedLooks {
  import opened Dids
  import opened Outbound
  import opened OutboundSafety
  import opened Carriages
  import opened Withdrawals

  // ---- past an acceptance owed ----

  /** What a safe, open message owes was kept and is not recorded. */
  lemma OwedOfOpen(s: State)
    requires Safe(s) && s.owed.Some? && !IsClosed(s)
    ensures Kept(s.owed.value) in s.log && s.owed.value !in s.submissions
  {
    assert Kept(s.owed.value) in s.log && Good(s, s.owed.value);
  }

  /** The three steps of a cancellation whose look at the owed record fails. */
  ghost function AfterBlindCancellation(s: State): (r: State)
    requires s.work.Idle?
  {
    After(After(After(s, Begin(Cancel)), ReadOwed(false)), CancelLocked)
  }

  /** What a later piece of work whose look succeeds records of what is owed. */
  ghost function AfterLook(s: State): (r: State)
    requires s.work.Idle? && s.owed.Some?
  {
    After(After(After(s, Begin(Prepare)), ReadOwed(true)), CommitOwed)
  }

  /**
   * A cancellation whose look fails records a failure iff the message is
   * open. Where an acceptance is owed and the message is open, it is not yet
   * recorded, and the next look that succeeds records the submission after
   * the failure.
   */
  lemma CancellationPastFailedLook(s: State)
    requires s.work.Idle?
    ensures AfterBlindCancellation(s).log == s.log + (if IsClosed(s) then [] else [RecordedFailure(Cancelled)])
    ensures Safe(s) && s.owed.Some? && !IsClosed(s) ==>
      && s.owed.value !in s.submissions
      && AfterLook(AfterBlindCancellation(s)).log == s.log + [RecordedFailure(Cancelled), RecordedSubmission(s.owed.value)]
  {
    var t := After(After(s, Begin(Cancel)), ReadOwed(false));
    assert t == s.(work := Cancelling);
    assert IsClosed(t) <==> IsClosed(s);
    if Safe(s) && s.owed.Some? && !IsClosed(s) {
      var c := s.owed.value;
      OwedOfOpen(s);
      var u := AfterBlindCancellation(s);
      assert u.owed == Some(c) && c !in u.submissions && u.work.Idle?;
      assert AfterLook(u).log == u.log + [RecordedSubmission(c)];
    }
  }

  /** Work that reads the fold under the lock: a bare preparation, or a dispatch under a live action. */
  predicate MayBegin(s: State, job: Job) {
    s.work.Idle? && (job.Prepare? || (job.Dispatch? && job.action in s.actions && !s.actions[job.action]))
  }

  /** Such work whose look at the owed record fails, up to the fold it reads. */
  ghost function AfterBlindReady(s: State, job: Job, now: nat, made: Cid, sealed: bool): (r: State)
    requires MayBegin(s, job) && made !in s.evidence.prepared
  {
    After(After(After(s, Begin(job)), ReadOwed(false)), Ready(now, made, sealed, true))
  }

  /** The selected preparation may be carried at the moment. */
  predicate Carries(s: State, now: nat) {
    s.selected.Some? && !IsClosed(s) && !HasExpired(s, now) && TodoOf(s).ToDispatch? && s.selected.value in Candidates(s)
  }

  /**
   * Whatever is owed, work whose look fails records an expiry iff the message
   * is open and expired, and a dispatch carries the selected preparation iff
   * it may be carried. Where the expiry is recorded and an acceptance is
   * owed, the next look that succeeds records the submission after it.
   */
  lemma ReadyPastFailedLook(s: State, job: Job, now: nat, made: Cid, sealed: bool)
    requires MayBegin(s, job) && made !in s.evidence.prepared
    ensures var r := AfterBlindReady(s, job, now, made, sealed);
      && r.log == s.log + (if !IsClosed(s) && HasExpired(s, now) then [RecordedFailure(Expired)] else [])
      && (s.selected.Some? ==> r.work == if job.Dispatch? && Carries(s, now) then Carrying(job.action, s.selected.value) else Idle)
      && (Safe(s) && s.owed.Some? && !IsClosed(s) && HasExpired(s, now) ==>
            r.work.Idle? && r.owed.Some? && AfterLook(r).log == s.log + [RecordedFailure(Expired), RecordedSubmission(s.owed.value)])
  {
    hide TodoOf, Candidates, IsClosed, Safe;
    var t := After(After(s, Begin(job)), ReadOwed(false));
    assert t == s.(work := Readying(job));
    AlikeButWork(s, t);
    if Safe(s) && s.owed.Some? && !IsClosed(s) && HasExpired(s, now) {
      OwedOfOpen(s);
      var r := AfterBlindReady(s, job, now, made, sealed);
      assert AfterLook(r).log == r.log + [RecordedSubmission(s.owed.value)];
    }
  }

  lemma AlikeButWork(s: State, t: State)
    requires t == s.(work := t.work)
    ensures TodoOf(s) == TodoOf(t) && Candidates(s) == Candidates(t) && IsClosed(s) == IsClosed(t)
  {
    assert Candidates(s) == Candidates(t);
  }

  /** From a preparation picked to the call, or to the expiry that came meanwhile. */
  lemma CallFollows(s: State, later: nat)
    requires s.work.Carrying? && s.work.action in s.actions && !s.actions[s.work.action]
    requires !IsClosed(s) && TodoOf(s).ToDispatch? && s.work.carried in Candidates(s)
    ensures HasExpired(s, later) ==> After(s, Recheck(later)).log == s.log + [RecordedFailure(Expired)]
    ensures !HasExpired(s, later) ==>
      && After(s, Recheck(later)).work.Invoking?
      && After(After(s, Recheck(later)), Invoke).log == s.log + [Called(s.work.action, s.work.carried)]
  {
    hide TodoOf, Candidates, IsClosed;
  }

  /** A dispatch whose look fails, past its recheck. */
  ghost function AfterBlindRecheck(s: State, action: ActionId, now: nat, made: Cid, sealed: bool, later: nat): (r: State)
    requires MayBegin(s, Dispatch(action)) && made !in s.evidence.prepared && Carries(s, now)
  {
    ReadyPastFailedLook(s, Dispatch(action), now, made, sealed);
    After(AfterBlindReady(s, Dispatch(action), now, made, sealed), Recheck(later))
  }

  /** Carried on, it calls iff the message has not expired by the recheck; where an acceptance is owed, both come after it was kept and before it is recorded. */
  lemma CallPastFailedLook(s: State, action: ActionId, now: nat, made: Cid, sealed: bool, later: nat)
    requires MayBegin(s, Dispatch(action)) && made !in s.evidence.prepared && Carries(s, now)
    ensures var r := AfterBlindRecheck(s, action, now, made, sealed, later);
      && (r.work.Invoking? <==> !HasExpired(s, later))
      && r.log == s.log + (if HasExpired(s, later) then [RecordedFailure(Expired)] else [])
      && (r.work.Invoking? ==> After(r, Invoke).log == s.log + [Called(action, s.selected.value)])
      && (Safe(s) && s.owed.Some? ==> s.owed.value !in s.submissions && !Final(if r.work.Invoking? then After(r, Invoke).log else r.log))
  {
    hide TodoOf, Candidates, IsClosed, Safe, Final;
    var u := AfterBlindReady(s, Dispatch(action), now, made, sealed);
    ReadyPastFailedLook(s, Dispatch(action), now, made, sealed);
    assert u == s.(work := Carrying(action, s.selected.value));
    AlikeButWork(s, u);
    CallFollows(u, later);
    if Safe(s) && s.owed.Some? {
      OwedOfOpen(s);
      NotFinalAfter(s.log, Kept(s.owed.value), RecordedFailure(Expired));
      NotFinalAfter(s.log, Kept(s.owed.value), Called(action, s.selected.value));
    }
  }

  lemma NotFinalAfter(log: seq<Entry>, kept: Entry, e: Entry)
    requires kept in log && kept.Kept? && (e.RecordedFailure? || e.Called?)
    ensures !Final(log + [e])
  {
    var i :| 0 <= i < |log| && log[i] == kept;
    var more := log + [e];
    assert more[i] == kept && more[|log|] == e && IsOutcome(more[i]);
  }

  // ---- past what is selected ----

  lemma Written(s: State, picked: State, other: Cid)
    requires s.work.Readying? && s.work.job.Dispatch? && picked == s.(work := Selecting(s.work.job, other))
    requires !IsClosed(s) && TodoOf(s).ToDispatch? && other in Candidates(s)
    ensures var t := After(picked, WriteSelection(true, false));
      && t == s.(selected := Some(other), work := Carrying(s.work.job.action, other))
      && !IsClosed(t) && TodoOf(t).ToDispatch? && other in Candidates(t)
  {
    assert Candidates(s) == Candidates(picked);
    assert Candidates(s) == Candidates(After(picked, WriteSelection(true, false)));
  }

  lemma DifferentBetween(s: State, e: Entry)
    requires Sticky(s) && e.Called? && s.selected.Some? && s.selected.value != e.carried
    requires exists i :: 0 <= i < |s.log| && s.log[i].Called? && NoChoiceAfter(s.log, i)
    ensures !SameBetweenChoices(s.log + [e])
  {
    var i :| 0 <= i < |s.log| && s.log[i].Called? && NoChoiceAfter(s.log, i);
    var more := s.log + [e];
    assert more[..|s.log|] == s.log && more[i] == s.log[i] && more[|s.log|] == e;
  }

  /** Where a failed look replaces the selection and the write is taken, the call carries the other preparation, though nobody chose it. */
  lemma ReplacedIsCarried(s: State, now: nat, made: Cid, sealed: bool, later: nat, other: Cid)
    requires s.work.Readying? && s.work.job.Dispatch? && s.work.job.action in s.actions && !s.actions[s.work.job.action]
    requires made !in s.evidence.prepared && Replaces(s, Ready(now, made, sealed, false)) && Candidates(s) == {other}
    requires !HasExpired(s, later)
    ensures other != s.selected.value && After(s, Ready(now, made, sealed, false)).work == Selecting(s.work.job, other)
    ensures var t := After(After(s, Ready(now, made, sealed, false)), WriteSelection(true, false));
      && t.work == Carrying(s.work.job.action, other)
      && After(t, Recheck(later)).work.Invoking?
      && After(After(t, Recheck(later)), Invoke).log == s.log + [Called(s.work.job.action, other)]
    ensures Sticky(s) && (exists i :: 0 <= i < |s.log| && s.log[i].Called? && NoChoiceAfter(s.log, i)) ==>
      !SameBetweenChoices(s.log + [Called(s.work.job.action, other)])
  {
    hide IsClosed;
    var action := s.work.job.action;
    CarriedPastFailedLook(s);
    var picked := After(s, Ready(now, made, sealed, false));
    assert picked == s.(work := Selecting(s.work.job, other));
    Written(s, picked, other);
    CallFollows(After(picked, WriteSelection(true, false)), later);
    if Sticky(s) && exists i :: 0 <= i < |s.log| && s.log[i].Called? && NoChoiceAfter(s.log, i) {
      DifferentBetween(s, Called(action, other));
    }
  }

  // ---- runs of it ----

  const MISREAD := [Begin(Cancel), ReadOwed(false), CancelLocked]
  const RECOVERY := [Begin(Prepare), ReadOwed(true), CommitOwed]
  const FAILED := State(OPEN, {}, {Cancelled}, Some(7), Some(7), Idle, Closed, map[], {0}, [Called(0, 7), Kept(7), RecordedFailure(Cancelled)])

  lemma ToMisread()
    ensures Along(KEPT, [Crash] + MISREAD) == Some(FAILED)
  {
    hide Along;
    AlongStep(KEPT, Crash, MISREAD);
    AlongThree(After(KEPT, Crash), Begin(Cancel), ReadOwed(false), CancelLocked);
    assert After(After(After(After(KEPT, Crash), Begin(Cancel)), ReadOwed(false)), CancelLocked) == FAILED;
  }

  lemma ToRecovered()
    ensures var end := Along(FAILED, RECOVERY);
      end.Some? && end.value.log == [Called(0, 7), Kept(7), RecordedFailure(Cancelled), RecordedSubmission(7)]
  {
    hide Along;
    AlongThree(FAILED, Begin(Prepare), ReadOwed(true), CommitOwed);
  }

  /** With evidence steady, one read of the owed record that finds nothing lets a cancellation in, and the acceptance is recorded after it. */
  lemma FailedReadLetsBoth()
    ensures var end := Along(START, TO_MADE + TO_RECHECKED + TO_KEPT + ([Crash] + MISREAD) + RECOVERY);
      end.Some? && end.value.log == [Called(0, 7), Kept(7), RecordedFailure(Cancelled), RecordedSubmission(7)]
  {
    hide Along, After, Enabled;
    ToKept();
    ToMisread();
    ToRecovered();
    AlongOnwards(START, TO_MADE + TO_RECHECKED + TO_KEPT, [Crash] + MISREAD);
    AlongOnwards(START, TO_MADE + TO_RECHECKED + TO_KEPT + ([Crash] + MISREAD), RECOVERY);
  }

  const REOPENED := State(OPEN, {}, {}, Some(7), Some(7), Idle, Closed, map[1 := false], {0, 1}, [Called(0, 7), Kept(7)])
  const REOPENING := [Crash, Mint(1)]

  lemma ToReopened()
    ensures Along(KEPT, REOPENING) == Some(REOPENED)
  {
    assert After(After(KEPT, Crash), Mint(1)) == REOPENED;
  }

  lemma MayBeCarried()
    ensures Carries(REOPENED, 0) && !IsClosed(REOPENED)
  {
    assert 7 in Candidates(REOPENED);
  }

  function BlindReady(now: nat): (labels: seq<Label>) {
    [Begin(Dispatch(1)), ReadOwed(false), Ready(now, 8, true, true)]
  }

  lemma ToBlindReady(now: nat)
    ensures Along(REOPENED, BlindReady(now)) == Some(AfterBlindReady(REOPENED, Dispatch(1), now, 8, true))
  {
    hide Along, AfterReady;
    AlongThree(REOPENED, Begin(Dispatch(1)), ReadOwed(false), Ready(now, 8, true, true));
  }

  lemma AlongTwo(s: State, a: Label, b: Label)
    requires Enabled(s, a) && Enabled(After(s, a), b)
    ensures Along(s, [a, b]) == Some(After(After(s, a), b))
  {
    hide After, Enabled;
    AlongStep(s, a, [b] + []);
    AlongStep(After(s, a), b, []);
    assert [a] + ([b] + []) == [a, b];
  }

  /** One read of the owed record that finds nothing, and a message accepted is called for again. */
  lemma FailedReadCallsAgain()
    ensures var end := Along(START, TO_MADE + TO_RECHECKED + TO_KEPT + REOPENING + BlindReady(0) + [Recheck(0), Invoke]);
      end.Some? && end.value.log == [Called(0, 7), Kept(7), Called(1, 7)]
  {
    hide Along, After, AfterReady, TodoOf, Candidates, IsClosed, Safe, Final;
    ToKept();
    ToReopened();
    ToBlindReady(0);
    MayBeCarried();
    ReadyPastFailedLook(REOPENED, Dispatch(1), 0, 8, true);
    CallPastFailedLook(REOPENED, 1, 0, 8, true, 0);
    var t := AfterBlindReady(REOPENED, Dispatch(1), 0, 8, true);
    AlongTwo(t, Recheck(0), Invoke);
    AlongOnwards(START, TO_MADE + TO_RECHECKED + TO_KEPT, REOPENING);
    AlongOnwards(START, TO_MADE + TO_RECHECKED + TO_KEPT + REOPENING, BlindReady(0));
    AlongOnwards(START, TO_MADE + TO_RECHECKED + TO_KEPT + REOPENING + BlindReady(0), [Recheck(0), Invoke]);
  }

  /** The same at a later moment, and a message accepted is recorded as expired. */
  lemma FailedReadLetsExpire()
    ensures var end := Along(START, TO_MADE + TO_RECHECKED + TO_KEPT + REOPENING + BlindReady(1000));
      end.Some? && end.value.log == [Called(0, 7), Kept(7), RecordedFailure(Expired)]
  {
    hide Along, After, AfterReady, TodoOf, Candidates, IsClosed, Safe;
    ToKept();
    ToReopened();
    ToBlindReady(1000);
    MayBeCarried();
    ReadyPastFailedLook(REOPENED, Dispatch(1), 1000, 8, true);
    AlongOnwards(START, TO_MADE + TO_RECHECKED + TO_KEPT, REOPENING);
    AlongOnwards(START, TO_MADE + TO_RECHECKED + TO_KEPT + REOPENING, BlindReady(1000));
  }

  const ERASED := Evidence(true, Some(1), {7, 8}, {7, 8}, {7}, false)
  const UNANSWERED := State(ERASED, {}, {}, Some(7), None, Idle, Closed, map[0 := true], {0}, [Called(0, 7)])
  const RETRIED := State(ERASED, {}, {}, Some(7), None, Readying(Dispatch(1)), Closed, map[0 := true, 1 := false], {0, 1}, [Called(0, 7)])
  const TO_UNANSWERED := [Invoke, Answer(false), Learn(ERASED, {}, {})]
  const TO_RETRIED := [Mint(1), Begin(Dispatch(1)), ReadOwed(true)]

  lemma ToUnanswered()
    ensures Along(RECHECKED, TO_UNANSWERED) == Some(UNANSWERED)
  {
    hide Along;
    AlongThree(RECHECKED, Invoke, Answer(false), Learn(ERASED, {}, {}));
    assert map[0 := false][0 := true] == map[0 := true];
    assert After(After(After(RECHECKED, Invoke), Answer(false)), Learn(ERASED, {}, {})) == UNANSWERED;
  }

  lemma ToRetried()
    ensures Along(UNANSWERED, TO_RETRIED) == Some(RETRIED)
  {
    hide Along;
    AlongThree(UNANSWERED, Mint(1), Begin(Dispatch(1)), ReadOwed(true));
    assert After(After(After(UNANSWERED, Mint(1)), Begin(Dispatch(1))), ReadOwed(true)) == RETRIED;
  }

  lemma ReplacesHere()
    ensures Replaces(RETRIED, Ready(0, 9, true, false)) && Candidates(RETRIED) == {8}
  {
    assert Candidates(RETRIED) == {8};
    assert 8 in Candidates(RETRIED);
  }

  lemma AnotherCalled()
    ensures var end := Along(RETRIED, [Ready(0, 9, true, false), WriteSelection(true, false)] + [Recheck(0), Invoke]);
      end.Some? && end.value.log == [Called(0, 7), Called(1, 8)]
  {
    hide Along, AfterReady, TodoOf, Candidates, IsClosed, Replaces, Sticky, SameBetweenChoices, AfterRecheck, AfterInvoke, Picked;
    ReplacesHere();
    ReplacedIsCarried(RETRIED, 0, 9, true, 0, 8);
    AlongTwo(RETRIED, Ready(0, 9, true, false), WriteSelection(true, false));
    var t := After(After(RETRIED, Ready(0, 9, true, false)), WriteSelection(true, false));
    AlongTwo(t, Recheck(0), Invoke);
    AlongOnwards(RETRIED, [Ready(0, 9, true, false), WriteSelection(true, false)], [Recheck(0), Invoke]);
  }

  /** With evidence steady and nothing chosen, one read of the selection that finds nothing lets the second call carry another preparation. */
  lemma FailedReadCarriesAnother()
    ensures var end := Along(START, TO_MADE + TO_RECHECKED + TO_UNANSWERED + TO_RETRIED + ([Ready(0, 9, true, false), WriteSelection(true, false)] + [Recheck(0), Invoke]));
      end.Some? && end.value.log == [Called(0, 7), Called(1, 8)]
    ensures WithdrawsNothing(OPEN, ERASED)
  {
    hide Along, After, Enabled;
    ToMade();
    ToRechecked();
    ToUnanswered();
    ToRetried();
    AnotherCalled();
    AlongOnwards(START, TO_MADE, TO_RECHECKED);
    AlongOnwards(START, TO_MADE + TO_RECHECKED, TO_UNANSWERED);
    AlongOnwards(START, TO_MADE + TO_RECHECKED + TO_UNANSWERED, TO_RETRIED);
    AlongOnwards(START, TO_MADE + TO_RECHECKED + TO_UNANSWERED + TO_RETRIED, [Ready(0, 9, true, false), WriteSelection(true, false)] + [Recheck(0), Invoke]);
  }
}
