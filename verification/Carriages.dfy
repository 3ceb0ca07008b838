/**
 * What this runtime's calls of a message carry, and under what authority:
 * one preparation until the user chooses another, and one call for each
 * action minted.
 */
module Carriages {
  import opened Dids
  import opened Outbound
  import opened Sums

  predicate NoChoiceAfter(log: seq<Entry>, i: nat) {
    forall j :: i < j < |log| ==> !log[j].Chose?
  }

  /** Two calls with no choice between them carry the same preparation. */
  ghost predicate SameBetweenChoices(log: seq<Entry>) {
    forall i, j :: 0 <= i < j < |log| && log[i].Called? && log[j].Called? && NoChoiceAfter(log[..j], i) ==> log[i].carried == log[j].carried
  }

  /** What is selected, or about to be, is a preparation that is here, and a call goes on with what is selected. */
  predicate CarriesSelected(s: State) {
    && (s.selected.Some? ==> s.selected.value in s.evidence.prepared)
    && (s.work.Selecting? ==> s.work.picked in s.evidence.prepared)
    && (s.work.Writing? ==> s.work.choice in s.evidence.prepared)
    && (s.work.Carrying? || s.work.Invoking? ==> s.selected == Some(s.work.carried))
  }

  /** What was carried since the last choice is what is selected, and what is about to be. */
  ghost predicate Sticky(s: State) {
    && (forall i :: 0 <= i < |s.log| && s.log[i].Called? && NoChoiceAfter(s.log, i) ==> s.selected == Some(s.log[i].carried))
    && (s.work.Selecting? ==> forall i :: 0 <= i < |s.log| && s.log[i].Called? && NoChoiceAfter(s.log, i) ==> s.work.picked == s.log[i].carried)
  }

  lemma CarriesSelectedKept(s: State, l: Label)
    requires CarriesSelected(s) && Enabled(s, l)
    ensures CarriesSelected(After(s, l))
  {
    hide TodoOf, IsClosed;
  }

  lemma NoChoiceShorter(log: seq<Entry>, e: Entry)
    ensures forall i :: 0 <= i < |log| && NoChoiceAfter(log + [e], i) ==> NoChoiceAfter(log, i) && !e.Chose?
  {
    var more := log + [e];
    forall i | 0 <= i < |log| && NoChoiceAfter(more, i) ensures NoChoiceAfter(log, i) && !e.Chose? {
      assert more[|log|] == e;
      assert forall j :: i < j < |log| ==> more[j] == log[j];
    }
  }

  lemma StickyAfterEntry(s: State, l: Label)
    requires Sticky(s) && CarriesSelected(s) && Enabled(s, l)
    requires |After(s, l).log| > |s.log|
    ensures Sticky(After(s, l))
  {
    hide NoChoiceAfter;
    var r := After(s, l);
    var e := r.log[|s.log|];
    assert r.log == s.log + [e];
    NoChoiceShorter(s.log, e);
  }

  lemma StickyAfterReady(s: State, l: Label)
    requires Sticky(s) && CarriesSelected(s) && Enabled(s, l) && !Replaces(s, l) && l.Ready?
    requires After(s, l).log == s.log
    ensures Sticky(After(s, l))
  {
    hide NoChoiceAfter;
    if s.selected.Some? {
      ReplacedExactly(s, l);
    }
  }

  /** What is selected already is replaced just there; any other look at it leaves it, or picks it again. */
  lemma ReplacedExactly(s: State, l: Label)
    requires CarriesSelected(s) && Enabled(s, l) && l.Ready? && s.selected.Some?
    ensures After(s, l).work.Selecting? && After(s, l).work.picked != s.selected.value <==> Replaces(s, l)
    ensures After(s, l).selected == s.selected
  {
    if !IsClosed(s) && !HasExpired(s, l.now) {
      CarriedPastFailedLook(s);
    }
  }

  lemma CarriedPastFailedLook(s: State)
    requires s.evidence.prepared != {}
    ensures !CarriageOf(s, None).Make?
    ensures CarriageOf(s, None).Carry? ==> TodoOf(s).ToDispatch? && Candidates(s) == {CarriageOf(s, None).preparation}
    ensures forall c :: TodoOf(s).ToDispatch? && Candidates(s) == {c} ==> CarriageOf(s, None) == Carriage.Carry(c, false)
  {
    hide IsClosed;
  }

  lemma StickyAfterQuiet(s: State, l: Label)
    requires Sticky(s) && CarriesSelected(s) && Enabled(s, l) && !l.Ready?
    requires After(s, l).log == s.log
    ensures Sticky(After(s, l))
  {
    hide TodoOf, Candidates, IsClosed, NoChoiceAfter;
  }

  lemma StickyKept(s: State, l: Label)
    requires Sticky(s) && CarriesSelected(s) && Enabled(s, l) && !Replaces(s, l)
    ensures Sticky(After(s, l))
  {
    hide Sticky, CarriesSelected, Replaces, TodoOf, Candidates, IsClosed, CarriageOf;
    assert |After(s, l).log| > |s.log| || After(s, l).log == s.log;
    if |After(s, l).log| > |s.log| {
      StickyAfterEntry(s, l);
    } else if l.Ready? {
      StickyAfterReady(s, l);
    } else {
      StickyAfterQuiet(s, l);
    }
  }

  /** A call is added only as what is selected. */
  lemma SameKept(s: State, l: Label)
    requires Sticky(s) && CarriesSelected(s) && SameBetweenChoices(s.log) && Enabled(s, l)
    ensures SameBetweenChoices(After(s, l).log)
  {
    hide TodoOf, Candidates, IsClosed, CarriageOf;
    var log, more := s.log, After(s, l).log;
    if |more| > |log| {
      var e := more[|log|];
      assert more == log + [e];
      forall i, j | 0 <= i < j < |more| && more[i].Called? && more[j].Called? && NoChoiceAfter(more[..j], i)
        ensures more[i].carried == more[j].carried
      {
        if j < |log| {
          assert more[..j] == log[..j];
        } else {
          assert more[..j] == log;
        }
      }
    } else {
      assert more == log;
    }
  }

  // ---- one call for each action ----

  ghost predicate CallsSpend(s: State) {
    && s.actions.Keys <= s.minted
    && (forall a, c :: Called(a, c) in s.log ==> a in s.minted && (a in s.actions ==> s.actions[a]))
    && (forall i, j :: 0 <= i < j < |s.log| && s.log[i].Called? && s.log[j].Called? ==> s.log[i].action != s.log[j].action)
  }

  lemma CallsSpendKept(s: State, l: Label)
    requires CallsSpend(s) && Enabled(s, l)
    ensures CallsSpend(After(s, l))
  {
    hide TodoOf, Candidates, IsClosed, CarriageOf;
    var log, more := s.log, After(s, l).log;
    if |more| > |log| {
      var e := more[|log|];
      assert more == log + [e];
      assert forall x :: x in more ==> x in log || x == e;
      if e.Called? {
        forall i | 0 <= i < |log| && log[i].Called? ensures log[i].action != e.action {
          assert Called(log[i].action, log[i].carried) in log;
        }
      }
    } else {
      assert more == log;
    }
  }

  function Calls(log: seq<Entry>): (n: nat) {
    if log == [] then 0
    else Calls(log[..|log| - 1]) + if log[|log| - 1].Called? then 1 else 0
  }

  function CallingActions(log: seq<Entry>): (r: set<ActionId>) {
    set i | 0 <= i < |log| && log[i].Called? :: log[i].action
  }

  lemma {:induction false} CallsAreActions(log: seq<Entry>)
    requires forall i, j :: 0 <= i < j < |log| && log[i].Called? && log[j].Called? ==> log[i].action != log[j].action
    ensures Calls(log) == |CallingActions(log)|
  {
    if log == [] {
      assert CallingActions(log) == {};
    } else {
      var n := |log| - 1;
      var shorter, last := log[..n], log[n];
      CallsAreActions(shorter);
      var fewer := CallingActions(shorter);
      assert forall i :: 0 <= i < n ==> shorter[i] == log[i];
      if last.Called? {
        assert last.action !in fewer;
        forall a ensures a in CallingActions(log) <==> a in fewer + {last.action} {
          if a in fewer {
            var i :| 0 <= i < n && shorter[i].Called? && shorter[i].action == a;
            assert log[i].action == a;
          }
        }
        assert CallingActions(log) == fewer + {last.action};
      } else {
        assert CallingActions(log) == fewer;
      }
    }
  }

  // ---- every run ----

  lemma {:induction false} RunsCarrySelected(states: seq<State>, labels: seq<Label>, n: nat)
    requires IsRun(states, labels) && n < |states|
    ensures CarriesSelected(states[n])
  {
    if n > 0 {
      hide CarriesSelected, Enabled, After;
      RunsCarrySelected(states, labels, n - 1);
      CarriesSelectedKept(states[n - 1], labels[n - 1]);
    }
  }

  lemma {:induction false} RunsCarry(states: seq<State>, labels: seq<Label>, n: nat)
    requires IsRun(states, labels) && n < |states|
    requires forall i :: 0 <= i < n ==> !Replaces(states[i], labels[i])
    ensures Sticky(states[n]) && SameBetweenChoices(states[n].log)
  {
    if n > 0 {
      hide Sticky, CarriesSelected, Enabled, After, SameBetweenChoices, Replaces;
      RunsCarry(states, labels, n - 1);
      RunsCarrySelected(states, labels, n - 1);
      StickyKept(states[n - 1], labels[n - 1]);
      SameKept(states[n - 1], labels[n - 1]);
    }
  }

  lemma {:induction false} RunsSpend(states: seq<State>, labels: seq<Label>, n: nat)
    requires IsRun(states, labels) && n < |states|
    ensures CallsSpend(states[n])
  {
    if n > 0 {
      hide CallsSpend, Enabled, After;
      RunsSpend(states, labels, n - 1);
      CallsSpendKept(states[n - 1], labels[n - 1]);
    }
  }

  /**
   * Whatever fails or crashes, a call carries the preparation selected when
   * it is made. While no failed look replaces a selection, any two calls with
   * no choice between them carry the same one.
   */
  lemma CallsCarryTheSelected(states: seq<State>, labels: seq<Label>, n: nat)
    requires IsRun(states, labels) && n < |labels|
    ensures |states[n + 1].log| > |states[n].log| && states[n + 1].log[|states[n].log|].Called? ==>
      states[n].selected == Some(states[n + 1].log[|states[n].log|].carried)
    ensures (forall i :: 0 <= i <= n ==> !Replaces(states[i], labels[i])) ==> SameBetweenChoices(states[n + 1].log)
  {
    hide TodoOf, Candidates, IsClosed, CarriageOf, SameBetweenChoices, Replaces;
    RunsCarrySelected(states, labels, n);
    if forall i :: 0 <= i <= n ==> !Replaces(states[i], labels[i]) {
      RunsCarry(states, labels, n + 1);
    }
  }

  /** In every run, a look at the selection puts another preparation in its place iff it fails where the only candidate of an open, unexpired message to dispatch is another. */
  lemma SelectionReplaced(states: seq<State>, labels: seq<Label>, n: nat)
    requires IsRun(states, labels) && n < |labels| && labels[n].Ready? && states[n].selected.Some?
    ensures states[n + 1].work.Selecting? && states[n + 1].work.picked != states[n].selected.value <==> Replaces(states[n], labels[n])
  {
    hide TodoOf, Candidates, IsClosed, CarriageOf, Replaces, CarriesSelected;
    RunsCarrySelected(states, labels, n);
    ReplacedExactly(states[n], labels[n]);
  }

  /** Whatever fails or crashes: no action calls twice, and there are no more calls than actions minted. */
  lemma NoMoreCallsThanActions(states: seq<State>, labels: seq<Label>, n: nat)
    requires IsRun(states, labels) && n < |states|
    ensures Calls(states[n].log) == |CallingActions(states[n].log)| <= |states[n].minted|
    ensures forall i, j :: 0 <= i < j < |states[n].log| && states[n].log[i].Called? && states[n].log[j].Called? ==>
      states[n].log[i].action != states[n].log[j].action
  {
    RunsSpend(states, labels, n);
    var log := states[n].log;
    CallsAreActions(log);
    forall a | a in CallingActions(log) ensures a in states[n].minted {
      var i :| 0 <= i < |log| && log[i].Called? && log[i].action == a;
      assert Called(a, log[i].carried) in log;
    }
    CountShrinks(CallingActions(log), states[n].minted);
  }
}
