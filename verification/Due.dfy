/**
 * When a call may be made and when an expiry is recorded, told by the events
 * and the clock in whole seconds: over every run a call comes only after a
 * recheck that found all of it so, and an expiry only once its second has come.
 */
module Due {
  import opened Dids
  import opened Outbound

  /** The intent is not in conflict, no submission names a complete preparation that is here, and nothing terminated it. */
  predicate Open(s: State) {
    && s.evidence.consistent
    && (forall c :: c in s.submissions && c in s.evidence.prepared ==> c !in s.evidence.complete)
    && Cancelled !in s.failures
    && (Expired in s.failures ==> s.evidence.expires.None?)
  }

  /** The second the intent expires in has come. */
  predicate Passed(s: State, now: nat) {
    s.evidence.expires.Some? && s.evidence.expires.value <= now / 1000
  }

  /** The preparation can go on the wire: it is here, complete and not erased, and every submission names one that is here. */
  predicate CanCarry(s: State, c: Cid) {
    && !s.evidence.blocked && (forall x :: x in s.submissions ==> x in s.evidence.prepared)
    && c in s.evidence.prepared && c in s.evidence.complete && c !in s.evidence.erased
  }

  predicate IsLive(s: State, action: ActionId) {
    action in s.actions && !s.actions[action]
  }

  /** A call of the preparation under the action is due. */
  predicate MayCall(s: State, now: nat, action: ActionId, c: Cid) {
    Open(s) && !Passed(s, now) && CanCarry(s, c) && IsLive(s, action)
  }

  lemma OpenIsNotClosed(s: State)
    ensures Open(s) <==> !IsClosed(s)
  {
  }

  lemma PassedIsExpired(s: State, now: nat)
    ensures Passed(s, now) <==> HasExpired(s, now)
  {
    if s.evidence.expires.Some? {
      var v := s.evidence.expires.value;
      assert now == now / 1000 * 1000 + now % 1000;
    }
  }

  lemma CarriedIsCandidate(s: State, c: Cid)
    requires Open(s)
    ensures CanCarry(s, c) <==> TodoOf(s).ToDispatch? && c in Candidates(s)
  {
    OpenIsNotClosed(s);
    assert c in Candidates(s) <==> c in s.evidence.prepared && c in s.evidence.complete && c !in s.evidence.erased;
  }

  /** The step adds the entry to what this runtime did. */
  predicate Adds(s: State, l: Label, e: Entry)
    requires Enabled(s, l)
  {
    |After(s, l).log| > |s.log| && After(s, l).log[|s.log|] == e
  }

  /** The recheck lets the call go ahead iff it is due, and records an expiry iff the message is open and its second has come. */
  lemma RecheckedExactly(s: State, now: nat)
    requires s.work.Carrying?
    ensures var r := After(s, Recheck(now));
      && (r.work.Invoking? <==> MayCall(s, now, s.work.action, s.work.carried))
      && (r.work.Invoking? ==> r.work == Invoking(s.work.action, s.work.carried))
      && r.log == s.log + if Open(s) && Passed(s, now) then [RecordedFailure(Expired)] else []
  {
    hide IsClosed, TodoOf, Candidates, Open, Passed, HasExpired, CanCarry;
    OpenIsNotClosed(s);
    PassedIsExpired(s, now);
    if Open(s) {
      CarriedIsCandidate(s, s.work.carried);
    }
  }

  /** A step records an expiry iff it looks at an open message at a moment whose second is past it. */
  lemma ExpiryRecordedExactly(s: State, l: Label)
    requires Enabled(s, l)
    ensures Adds(s, l, RecordedFailure(Expired)) <==> (l.Ready? || l.Recheck?) && Open(s) && Passed(s, l.now)
  {
    hide TodoOf, Candidates, CarriageOf, Open, Passed, IsClosed, HasExpired;
    OpenIsNotClosed(s);
    if l.Ready? || l.Recheck? {
      PassedIsExpired(s, l.now);
    }
  }

  /** A step records a cancellation iff it is the cancellation's own and the message is open. */
  lemma CancellationRecordedExactly(s: State, l: Label)
    requires Enabled(s, l)
    ensures Adds(s, l, RecordedFailure(Cancelled)) <==> l.CancelLocked? && Open(s)
  {
    hide TodoOf, Candidates, CarriageOf, Open, IsClosed, HasExpired;
    OpenIsNotClosed(s);
  }

  /** A submission names a complete preparation that is here, under an intent not in conflict. */
  predicate ShowsSubmitted(s: State) {
    s.evidence.consistent && exists c :: c in s.submissions && c in s.evidence.prepared && c in s.evidence.complete
  }

  /** An open looks at a message iff it has a preparation here and does not show as submitted; what it then finds owed it records, and then drops. */
  lemma OpenRecordsExactly(s: State)
    requires s.opening.Closed?
    ensures var looking := After(s, OpenLook);
      && (looking.opening.Looking? <==> s.evidence.prepared != {} && !ShowsSubmitted(s))
      && (!looking.opening.Looking? ==> looking == s)
      && (looking.opening.Looking? && s.owed.Some? ==>
            var found := After(looking, OpenRead(true));
            && found.opening.OpenRecording? && s.owed.value in After(found, OpenCommit).submissions
            && After(found, OpenCommit).opening.OpenDropping? && After(After(found, OpenCommit), OpenDrop(true)).owed == None)
      && (looking.opening.Looking? && s.owed.None? ==> After(looking, OpenRead(true)).opening.Closed?)
  {
    hide TodoOf, Candidates, CarriageOf, IsClosed;
  }

  /** The call to come was found due at the step, and nothing has come of it since. */
  ghost predicate FoundDue(states: seq<State>, labels: seq<Label>, m: nat, n: nat)
    requires IsRun(states, labels) && n < |states|
  {
    && m < n && labels[m].Recheck? && states[n].work.Invoking?
    && MayCall(states[m], labels[m].now, states[n].work.action, states[n].work.carried)
    && forall k :: m < k <= n ==> states[k].work == states[n].work
  }

  lemma InvokingComesFromRecheck(s: State, l: Label)
    requires Enabled(s, l) && After(s, l).work.Invoking?
    ensures (s.work == After(s, l).work) || (l.Recheck? && s.work.Carrying?)
  {
    hide TodoOf, Candidates, CarriageOf, IsClosed;
  }

  lemma {:induction false} InvokingWasDue(states: seq<State>, labels: seq<Label>, n: nat) returns (m: nat)
    requires IsRun(states, labels) && n < |states| && states[n].work.Invoking?
    ensures FoundDue(states, labels, m, n)
  {
    hide MayCall, Enabled, After;
    var s, l := states[n - 1], labels[n - 1];
    InvokingComesFromRecheck(s, l);
    if s.work == states[n].work {
      m := InvokingWasDue(states, labels, n - 1);
    } else {
      m := n - 1;
      RecheckedExactly(s, l.now);
    }
  }

  /**
   * Over every run: a call comes only after a recheck that found the message
   * open and not past its second, the preparation fit to go and the action
   * live, with no other work between; and then it is made iff the action is
   * still live.
   */
  lemma CallsAreDue(states: seq<State>, labels: seq<Label>, n: nat) returns (m: nat)
    requires IsRun(states, labels) && n < |labels| && labels[n].Invoke?
    ensures FoundDue(states, labels, m, n)
    ensures var action, c := states[n].work.action, states[n].work.carried;
      states[n + 1].log == states[n].log + if IsLive(states[n], action) then [Called(action, c)] else []
  {
    hide MayCall, TodoOf, Candidates, IsClosed, CarriageOf;
    m := InvokingWasDue(states, labels, n);
  }

  /** And no other step calls. */
  lemma OnlyInvokeCalls(s: State, l: Label)
    requires Enabled(s, l)
    ensures forall a, c :: Adds(s, l, Called(a, c)) ==> l.Invoke?
  {
    hide TodoOf, Candidates, IsClosed, CarriageOf;
  }
}
