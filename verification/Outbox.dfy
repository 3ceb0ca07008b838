/**
 * The procedures of one message as a runtime runs them: each statement is a
 * step of the runs in Outbound, so what those keep holds of every call here,
 * wherever it stops.
 */
module Outbox {
  import opened Dids
  import opened Outbound
  import opened OutboundSafety
  import opened Due

  /** Whether a preparation can be made of what is here: now, once more arrives, or not at all. */
  datatype Making = Makes | MakesLater | MakesNever

  /** Whether there is a way to the endpoint: the sender held by its mediator, the route resolved and the forward sealed. */
  datatype Way = Ready | NotYet | Never

  /** Where the call stands when it is about to be made. */
  datatype Line = InTime | DeadlinePassed | CallerClosed

  datatype Endpoint = Accepts | Refuses | NoAnswer

  /** What the vault has received meanwhile. */
  datatype News = News(evidence: Evidence, submissions: set<Cid>, failures: set<Code>)

  /**
   * What the world answers an attempt: whether each look at a local record
   * succeeds, the clock at each look at the fold, whether each write is
   * taken, what comes of everything outside, and what arrives while the lock
   * is free: after the look at what is owed, after the preparation, after the
   * recheck, and while the call is out.
   */
  datatype External = External(
    sees: bool, drops: bool, afterLook: News,
    readyAt: nat, seesSelection: bool, making: Making, made: Cid, sealed: bool, selects: bool, here: bool,
    way: Way, afterReady: News, recheckAt: nat, afterRecheck: News, line: Line, duringCall: News, endpoint: Endpoint, keeps: bool)

  datatype Dispatched =
    | SubmittedAs(carried: Cid)
    | NothingToCall
    | HeldUp
    | ExpiredFirst
    | NotAccepted(carried: Cid)
    | Uncertain(carried: Cid)
    | AlreadySpent

  // ---- what arrives ----

  function LearnOf(news: News): (l: Label) {
    Learn(news.evidence, news.submissions, news.failures)
  }

  /** Nothing here is taken back. */
  predicate IsNews(s: State, news: News) {
    && s.evidence.prepared <= news.evidence.prepared && s.evidence.expires == news.evidence.expires
    && s.submissions <= news.submissions && s.failures <= news.failures
  }

  /** The state with the news in it. */
  function Learned(s: State, news: News): (r: State) {
    if IsNews(s, news) then s.(evidence := news.evidence, submissions := news.submissions, failures := news.failures) else s
  }

  predicate SteadyNews(s: State, news: News) {
    IsNews(s, news) ==> WithdrawsNothing(s.evidence, news.evidence)
  }

  /** From the recheck on, nothing arriving withdraws anything, however much of it is news. */
  predicate CalmCalling(e: Evidence, ext: External) {
    && WithdrawsNothing(e, ext.afterRecheck.evidence)
    && WithdrawsNothing(e, ext.duringCall.evidence)
    && WithdrawsNothing(ext.afterRecheck.evidence, ext.duringCall.evidence)
  }

  /** From the evidence on, nothing arriving before the call or during it withdraws anything. */
  predicate CalmCarrying(e: Evidence, ext: External) {
    WithdrawsNothing(e, ext.afterReady.evidence) && CalmCalling(e, ext) && CalmCalling(ext.afterReady.evidence, ext)
  }

  /** The same whether or not a preparation is made first. */
  predicate CalmReadying(e: Evidence, ext: External) {
    CalmCarrying(e, ext) && CalmCarrying(WithMade(e, ext.made, ext.sealed), ext)
  }

  /** The same of a whole attempt. */
  predicate CalmThroughout(e: Evidence, ext: External) {
    WithdrawsNothing(e, ext.afterLook.evidence) && CalmReadying(e, ext) && CalmReadying(ext.afterLook.evidence, ext)
  }

  /** A preparation made is one that is not here yet. */
  predicate MakesNew(e: Evidence, ext: External) {
    ext.made !in e.prepared && ext.made !in ext.afterLook.evidence.prepared
  }

  /** After the look at what is owed, as far as the vault goes. */
  function Looked(s: State, sees: bool): (r: State) {
    if sees && s.owed.Some? then s.(submissions := s.submissions + {s.owed.value}) else s
  }

  // ---- where the procedures lead ----

  /** The steps lead from a message just decided to where it is now; undisturbed, as safety asks. */
  ghost predicate Path(start: State, steps: seq<Label>, undisturbed: bool, now: State) {
    Initial(start) && Along(start, steps) == Some(now) && (undisturbed ==> UndisturbedAlong(start, steps))
  }

  /** Whatever a message has come to undisturbed is safe. */
  lemma PathIsSafe(start: State, steps: seq<Label>, now: State)
    requires Path(start, steps, true, now)
    ensures Safe(now) && Final(now.log)
  {
    hide Safe, Final, Along, UndisturbedAlong;
    InitialIsSafe(start);
    PathsAreSafe(start, steps);
  }

  lemma PathOnce(start: State, steps: seq<Label>, undisturbed: bool, now: State, l: Label)
    requires Path(start, steps, undisturbed, now) && Enabled(now, l)
    ensures Path(start, steps + [l], undisturbed && Heeded(now, l) && Steady(now, l), After(now, l))
  {
    hide Along, UndisturbedAlong, Enabled, After, Heeded, Steady, Initial;
    AlongOnce(start, steps, now, l);
    if undisturbed && Heeded(now, l) && Steady(now, l) {
      UndisturbedOnce(start, steps, now, l);
    }
  }

  class Message {
    var evidence: Evidence
    var submissions: set<Cid>
    var failures: set<Code>
    /** this runtime's local records */
    var selected: Option<Cid>
    var owed: Option<Cid>
    /** the live actions, and whether each is spent */
    var actions: map<ActionId, bool>
    var work: Work
    /** an open running beside, the actions ever minted, and what this runtime did */
    var opening: Opening
    var minted: set<ActionId>
    var log: seq<Entry>
    /** the steps taken, from where, and whether none of them disturbed what safety asks */
    ghost var start: State
    ghost var steps: seq<Label>
    ghost var undisturbed: bool

    function Now(): State
      reads this
    {
      State(evidence, submissions, failures, selected, owed, work, opening, actions, minted, log)
    }

    ghost predicate OnPath()
      reads this
    {
      Path(start, steps, undisturbed, Now())
    }

    constructor (evidence: Evidence)
      ensures OnPath() && undisturbed && Initial(Now()) && this.evidence == evidence
    {
      this.evidence := evidence;
      submissions, failures, selected, owed, actions, work := {}, {}, None, None, map[], Idle;
      opening, minted, log, steps, undisturbed := Closed, {}, [], [], true;
      new;
      start := Now();
    }

    /** What was just done is the step. */
    ghost method Took(before: State, l: Label)
      requires Path(start, steps, undisturbed, before) && Enabled(before, l) && After(before, l) == Now()
      modifies this`steps, this`undisturbed
      ensures OnPath() && undisturbed == (old(undisturbed) && Heeded(before, l) && Steady(before, l))
    {
      hide Path, After, Enabled, Heeded, Steady;
      PathOnce(start, steps, undisturbed, before, l);
      steps, undisturbed := steps + [l], undisturbed && Heeded(before, l) && Steady(before, l);
    }

    /** Nothing more is done: an attempt that stops short, or threw. */
    method StopShort()
      requires OnPath()
      modifies this`work, this`steps, this`undisturbed
      ensures OnPath() && work == Idle && undisturbed == old(undisturbed)
    {
      hide Path;
      ghost var before := Now();
      work := Idle;
      Took(before, GiveUp);
    }

    /** Events arrive, and only add to those here; what they complete, or withdraw, is the fold's to read. */
    method Receive(news: News)
      requires OnPath()
      modifies this`evidence, this`submissions, this`failures, this`steps, this`undisturbed
      ensures OnPath() && Now() == Learned(old(Now()), news)
      ensures undisturbed == (old(undisturbed) && SteadyNews(old(Now()), news))
    {
      hide Path, WithdrawsNothing;
      ghost var before := Now();
      if IsNews(Now(), news) {
        evidence, submissions, failures := news.evidence, news.submissions, news.failures;
        Took(before, LearnOf(news));
      }
    }

    /** A new action, good for one call. */
    method MintAction(action: ActionId)
      requires OnPath() && action !in minted
      modifies this`actions, this`minted, this`steps, this`undisturbed
      ensures OnPath() && undisturbed == old(undisturbed)
      ensures actions == old(actions)[action := false] && minted == old(minted) + {action}
    {
      hide Path;
      ghost var before := Now();
      actions, minted := actions[action := false], minted + {action};
      Took(before, Mint(action));
    }

    // ---- what is owed ----

    /** `delivery.submitted` for the preparation, unless one already records it. */
    method Commit(c: Cid)
      requires OnPath() && ((work.RecordingOwed? && work.owing == c) || (work.Committing? && work.carried == c))
      modifies this`submissions, this`work, this`log, this`steps, this`undisturbed
      ensures OnPath() && submissions == old(submissions) + {c} && undisturbed == old(undisturbed)
      ensures log == old(log) + (if c in old(submissions) then [] else [RecordedSubmission(c)])
      ensures work == if old(work).RecordingOwed? then DroppingOwed(old(work).job) else Clearing
    {
      hide Path;
      ghost var before := Now();
      if c !in submissions {
        log := log + [RecordedSubmission(c)];
      }
      submissions := submissions + {c};
      work := if work.RecordingOwed? then DroppingOwed(work.job) else Clearing;
      Took(before, if before.work.RecordingOwed? then CommitOwed else CommitAccepted);
    }

    /** The commit, and then the owed record dropped. */
    method Committed(c: Cid, drops: bool)
      requires OnPath() && ((work.RecordingOwed? && work.owing == c) || (work.Committing? && work.carried == c))
      modifies this`submissions, this`owed, this`work, this`log, this`steps, this`undisturbed
      ensures OnPath() && submissions == old(submissions) + {c} && undisturbed == old(undisturbed)
      ensures owed == if drops then None else old(owed)
      ensures log == old(log) + (if c in old(submissions) then [] else [RecordedSubmission(c)])
      ensures work == if old(work).RecordingOwed? && old(work).job.Prepare? then Readying(Prepare) else Idle
    {
      hide Path;
      Commit(c);
      ghost var before := Now();
      if drops {
        owed := None;
      }
      work := if work.DroppingOwed? && work.job.Prepare? then Readying(Prepare) else Idle;
      Took(before, DropOwed(drops));
    }

    /** The look every piece of work begins with: an acceptance it finds owed is recorded before anything else. */
    method RecordOwedAcceptance(job: Job, sees: bool, drops: bool) returns (recorded: Option<Cid>)
      requires OnPath() && work == Idle && (job.Dispatch? ==> job.action in actions)
      modifies this`submissions, this`owed, this`work, this`log, this`steps, this`undisturbed
      ensures OnPath() && recorded == if sees then old(owed) else None
      ensures submissions == Looked(old(Now()), sees).submissions
      ensures recorded.Some? ==> work == if job.Prepare? then Readying(Prepare) else Idle
      ensures recorded.None? ==> log == old(log) && owed == old(owed) && work == PastOwed(Now(), job)
      ensures undisturbed == (old(undisturbed) && (sees || OwedRecorded(old(Now()))))
    {
      hide Path;
      ghost var before := Now();
      work := ReadingOwed(job);
      Took(before, Begin(job));
      before := Now();
      recorded := if sees then owed else None;
      if recorded.Some? {
        work := RecordingOwed(job, recorded.value);
        Took(before, ReadOwed(sees));
        Committed(recorded.value, drops);
      } else {
        work := match job
                case Dispatch(action) => if actions[action] then Idle else Readying(job)
                case Prepare => Readying(job)
                case Cancel => Cancelling
                case Choose(c) => Checking(c);
        Took(before, ReadOwed(sees));
      }
    }

    /** What an open does for each message: look for an acceptance owed, and record it. */
    method RecordAcceptanceOwed(sees: bool, drops: bool) returns (recorded: Option<Cid>)
      requires OnPath() && opening == Closed
      modifies this`submissions, this`owed, this`opening, this`log, this`steps, this`undisturbed
      ensures OnPath() && opening == Closed && undisturbed == old(undisturbed)
      ensures recorded == if Submitted(old(Now())) || evidence.prepared == {} || !sees then None else old(owed)
      ensures recorded.Some? ==> recorded.value in submissions
      ensures recorded.None? ==> submissions == old(submissions) && log == old(log) && owed == old(owed)
    {
      hide Path;
      recorded := None;
      ghost var before := Now();
      if Submitted(Now()) || evidence.prepared == {} {
        return;
      }
      opening := Looking;
      Took(before, OpenLook);
      before := Now();
      recorded := if sees then owed else None;
      opening := if recorded.Some? then OpenRecording(recorded.value) else Closed;
      Took(before, OpenRead(sees));
      if recorded.Some? {
        RecordOpened(recorded.value, drops);
      }
    }

    method CommitOpened(c: Cid)
      requires OnPath() && opening == OpenRecording(c)
      modifies this`submissions, this`opening, this`log, this`steps, this`undisturbed
      ensures OnPath() && opening == OpenDropping(c) && undisturbed == old(undisturbed) && c in submissions
    {
      hide Path;
      ghost var before := Now();
      if c !in submissions {
        log := log + [RecordedSubmission(c)];
      }
      submissions := submissions + {c};
      opening := OpenDropping(c);
      Took(before, OpenCommit);
    }

    method RecordOpened(c: Cid, drops: bool)
      requires OnPath() && opening == OpenRecording(c)
      modifies this`submissions, this`owed, this`opening, this`log, this`steps, this`undisturbed
      ensures OnPath() && opening == Closed && undisturbed == old(undisturbed) && c in submissions
    {
      hide Path;
      CommitOpened(c);
      ghost var before := Now();
      if drops {
        owed := None;
      }
      opening := Closed;
      Took(before, OpenDrop(drops));
    }

    // ---- cancelling and choosing ----

    /** The user's cancellation. */
    method CancelMessage(sees: bool, drops: bool, afterLook: News) returns (cancelled: bool)
      requires OnPath() && work == Idle
      modifies this`evidence, this`submissions, this`owed, this`work, this`log, this`steps, this`failures, this`undisturbed
      ensures OnPath() && work == Idle
      ensures cancelled <==> (old(owed).None? || !sees) && Open(Learned(old(Now()), afterLook))
      ensures cancelled ==> log == old(log) + [RecordedFailure(Cancelled)]
      ensures sees && old(owed).Some? ==> old(owed).value in submissions
      ensures undisturbed == (old(undisturbed) && (sees || OwedRecorded(old(Now()))) && ((sees && old(owed).Some?) || SteadyNews(old(Now()), afterLook)))
    {
      hide Path, IsClosed, Open, After, Enabled, WithdrawsNothing, IsNews;
      ghost var was := Now();
      OpenIsNotClosed(Learned(was, afterLook));
      var recorded := RecordOwedAcceptance(Cancel, sees, drops);
      if recorded.Some? {
        return false;
      }
      LearnedAlike(was, Now(), afterLook);
      Receive(afterLook);
      ReadAlike(Learned(was, afterLook), Now());
      cancelled := CancelUnderLock();
    }

    method CancelUnderLock() returns (cancelled: bool)
      requires OnPath() && work.Cancelling?
      modifies this`failures, this`work, this`log, this`steps, this`undisturbed
      ensures OnPath() && work == Idle && undisturbed == old(undisturbed)
      ensures cancelled <==> !IsClosed(old(Now()))
      ensures log == if cancelled then old(log) + [RecordedFailure(Cancelled)] else old(log)
    {
      hide Path, IsClosed;
      ghost var before := Now();
      cancelled := !IsClosed(Now());
      if cancelled {
        failures := failures + {Cancelled};
        log := log + [RecordedFailure(Cancelled)];
      }
      work := Idle;
      Took(before, CancelLocked);
    }

    /** Whether the choice is a preparation a call may carry. */
    method CheckTheChoice() returns (valid: bool)
      requires OnPath() && work.Checking?
      modifies this`work, this`steps, this`undisturbed
      ensures OnPath() && undisturbed == old(undisturbed)
      ensures valid <==> TodoOf(old(Now())).ToDispatch? && old(work).choice in Candidates(old(Now()))
      ensures work == if valid then Writing(old(work).choice) else Idle
    {
      hide Path, TodoOf, Candidates;
      ghost var before := Now();
      valid := TodoOf(Now()).ToDispatch? && work.choice in Candidates(Now());
      work := if valid then Writing(work.choice) else Idle;
      Took(before, CheckChoice);
    }

    method WriteTheChoice(writes: bool)
      requires OnPath() && work.Writing?
      modifies this`work, this`selected, this`log, this`steps, this`undisturbed
      ensures OnPath() && work == Idle && undisturbed == old(undisturbed)
      ensures selected == if writes then Some(old(work).choice) else old(selected)
      ensures log == old(log) + if writes then [Chose(old(work).choice)] else []
    {
      hide Path;
      ghost var before := Now();
      if writes {
        selected := Some(work.choice);
        log := log + [Chose(work.choice)];
      }
      work := Idle;
      Took(before, WriteChoice(writes));
    }

    /** The user picks which candidate later calls carry. */
    method SelectPreparation(choice: Cid, sees: bool, here: bool, writes: bool, drops: bool, afterLook: News) returns (chosen: bool)
      requires OnPath() && work == Idle
      modifies this`evidence, this`submissions, this`failures, this`owed, this`work, this`log, this`steps, this`selected, this`undisturbed
      ensures OnPath() && work == Idle
      ensures var later := Learned(old(Now()), afterLook);
        chosen <==> (old(owed).None? || !sees) && here && writes && Open(later) && CanCarry(later, choice)
      ensures undisturbed == (old(undisturbed) && (sees || OwedRecorded(old(Now()))) && ((sees && old(owed).Some?) || SteadyNews(old(Now()), afterLook)))
      ensures chosen ==> selected == Some(choice) && log == old(log) + [Chose(choice)]
      ensures !chosen ==> selected == old(selected)
    {
      hide Path, TodoOf, Candidates, IsClosed, Open, CanCarry, After, Enabled, WithdrawsNothing, IsNews;
      ghost var was := Now();
      ChosenIsCandidate(Learned(was, afterLook), choice);
      var recorded := RecordOwedAcceptance(Choose(choice), sees, drops);
      if recorded.Some? {
        return false;
      }
      LearnedAlike(was, Now(), afterLook);
      Receive(afterLook);
      ReadAlike(Learned(was, afterLook), Now());
      var valid := CheckTheChoice();
      if !valid {
        return false;
      }
      if !here {
        StopShort();
        return false;
      }
      WriteTheChoice(writes);
      chosen := writes;
    }

    // ---- preparing ----

    /** The selection written, and the preparation picked; a write refused leaves the message uncarried. */
    method Select(selects: bool)
      requires OnPath() && work.Selecting?
      modifies this`selected, this`work, this`steps, this`undisturbed
      ensures OnPath() && undisturbed == old(undisturbed)
      ensures selected == if selects then Some(old(work).picked) else old(selected)
      ensures work == if selects then Picked(Now(), old(work).job, old(work).picked) else Idle
    {
      hide Path, TodoOf, Candidates;
      ghost var before := Now();
      var job, c := work.job, work.picked;
      if selects {
        selected := Some(c);
      }
      PickedAlike(before, Now(), job, c);
      work := if selects then Picked(Now(), job, c) else Idle;
      PickedAlike(before, Now(), job, c);
      Took(before, WriteSelection(selects, !selects));
    }

    /** A preparation made, committed, and to be selected. */
    method MakeOne(ext: External)
      requires OnPath() && work.Readying? && ext.made !in evidence.prepared
      requires !IsClosed(Now()) && !HasExpired(Now(), ext.readyAt) && CarriageOf(Now(), if ext.seesSelection then selected else None).Make?
      modifies this`evidence, this`work, this`steps, this`undisturbed
      ensures OnPath() && undisturbed == old(undisturbed) && work == Selecting(old(work).job, ext.made)
      ensures evidence == WithMade(old(evidence), ext.made, ext.sealed)
    {
      hide Path, TodoOf, Candidates, CarriageOf;
      ghost var before := Now();
      evidence := WithMade(evidence, ext.made, ext.sealed);
      work := Selecting(work.job, ext.made);
      Took(before, Outbound.Ready(ext.readyAt, ext.made, ext.sealed, ext.seesSelection));
    }

    /** A preparation that is here picked up, or nothing carried. */
    method PickUp(ext: External, carriage: Carriage)
      requires OnPath() && work.Readying? && ext.made !in evidence.prepared
      requires !IsClosed(Now()) && !HasExpired(Now(), ext.readyAt) && carriage == CarriageOf(Now(), if ext.seesSelection then selected else None) && !carriage.Make?
      modifies this`work, this`steps, this`undisturbed
      ensures OnPath() && undisturbed == old(undisturbed)
      ensures work == match carriage
                      case Carry(c, true) => Picked(old(Now()), old(work).job, c)
                      case Carry(c, false) => Selecting(old(work).job, c)
                      case _ => Idle
    {
      hide Path, TodoOf, Candidates, CarriageOf;
      ghost var before := Now();
      var job := work.job;
      work := match carriage
              case Carry(c, true) => Picked(Now(), job, c)
              case Carry(c, false) => Selecting(job, c)
              case _ => Idle;
      Took(before, Outbound.Ready(ext.readyAt, ext.made, ext.sealed, ext.seesSelection));
    }

    /** Settles on a preparation: selected before, the sole candidate, or new; or says why it cannot. */
    method PreparationOf(ext: External) returns (stop: Option<Dispatched>)
      requires OnPath() && work.Readying? && ext.made !in evidence.prepared
      requires !IsClosed(Now()) && !HasExpired(Now(), ext.readyAt)
      modifies this`evidence, this`work, this`steps, this`undisturbed
      ensures OnPath() && undisturbed == old(undisturbed)
      ensures stop.Some? ==> work.Idle? && (stop.value.HeldUp? || stop.value.NothingToCall?)
      ensures work.Idle? || (work.Selecting? && work.job == old(work).job && !(ext.seesSelection && selected.Some?)) || (work.Carrying? && old(work).job == Dispatch(work.action) && selected == Some(work.carried))
      ensures work.Selecting? ==>
        || Candidates(old(Now())) == {work.picked}
        || (ext.making.Makes? && old(evidence).prepared == {} && work.picked == ext.made && evidence.prepared == {ext.made})
      ensures evidence == old(evidence) || (work.Selecting? && work.picked == ext.made && old(evidence).prepared == {} && evidence == WithMade(old(evidence), ext.made, ext.sealed))
    {
      hide Path, TodoOf, Candidates;
      var carriage := CarriageOf(Now(), if ext.seesSelection then selected else None);
      NoneIsMade(Now(), if ext.seesSelection then selected else None);
      stop := None;
      if carriage.Make? {
        if ext.making.Makes? {
          MakeOne(ext);
        } else {
          StopShort();
          stop := Some(if ext.making.MakesLater? then HeldUp else NothingToCall);
        }
      } else {
        PickUp(ext, carriage);
        stop := if carriage.Carry? then None else Some(NothingToCall);
      }
    }

    /** A message closed takes no more work, and one expired is terminated. */
    method CloseOrExpire(ext: External) returns (stop: Dispatched)
      requires OnPath() && work.Readying? && ext.made !in evidence.prepared
      requires IsClosed(Now()) || HasExpired(Now(), ext.readyAt)
      modifies this`failures, this`work, this`log, this`steps, this`undisturbed
      ensures OnPath() && undisturbed == old(undisturbed) && work == Idle
      ensures stop == if IsClosed(old(Now())) then NothingToCall else ExpiredFirst
      ensures log == if stop == ExpiredFirst then old(log) + [RecordedFailure(Expired)] else old(log)
    {
      hide Path, TodoOf, Candidates, CarriageOf;
      ghost var before := Now();
      stop := if IsClosed(Now()) then NothingToCall else ExpiredFirst;
      if stop.ExpiredFirst? {
        failures := failures + {Expired};
        log := log + [RecordedFailure(Expired)];
      }
      work := Idle;
      Took(before, Outbound.Ready(ext.readyAt, ext.made, ext.sealed, ext.seesSelection));
    }

    /** Under the lock: closed, expired, or the preparation the call is to carry, made where there is none, and selected. */
    method PrepareUnderLock(ext: External) returns (stop: Option<Dispatched>)
      requires OnPath() && work.Readying? && ext.made !in evidence.prepared
      modifies this`evidence, this`failures, this`selected, this`work, this`log, this`steps, this`undisturbed
      ensures OnPath() && undisturbed == old(undisturbed)
      ensures stop == Some(ExpiredFirst) <==> Open(old(Now())) && Passed(old(Now()), ext.readyAt)
      ensures log == if stop == Some(ExpiredFirst) then old(log) + [RecordedFailure(Expired)] else old(log)
      ensures stop.Some? ==> work.Idle? && (stop.value.NothingToCall? || stop.value.HeldUp? || stop.value.ExpiredFirst?)
      ensures work.Idle? || (work.Carrying? && old(work).job == Dispatch(work.action) && selected == Some(work.carried))
      ensures old(work).job.Dispatch? ==> work.Idle? == stop.Some?
      ensures ext.seesSelection && old(selected).Some? ==> selected == old(selected)
      ensures evidence == old(evidence) || (old(evidence).prepared == {} && evidence == WithMade(old(evidence), ext.made, ext.sealed))
    {
      hide Path, TodoOf, Candidates, CarriageOf, IsClosed, HasExpired, Open, Passed;
      OpenIsNotClosed(Now());
      PassedIsExpired(Now(), ext.readyAt);
      var job := work.job;
      if IsClosed(Now()) || HasExpired(Now(), ext.readyAt) {
        var why := CloseOrExpire(ext);
        return Some(why);
      }
      stop := PreparationOf(ext);
      if work.Selecting? {
        Select(ext.selects);
        stop := if ext.selects then None else Some(NothingToCall);
      }
      if stop.None? && work.Idle? && job.Dispatch? {
        stop := Some(if TodoOf(Now()).Nothing? then NothingToCall else HeldUp);
      }
    }

    /** A message prepared and nothing more: an acceptance owed is recorded first, and then the fold is read. */
    method PrepareMessage(ext: External) returns (stop: Option<Dispatched>)
      requires OnPath() && work == Idle && MakesNew(evidence, ext)
      modifies this`submissions, this`owed, this`evidence, this`failures, this`selected, this`work, this`log, this`steps, this`undisturbed
      ensures OnPath() && work == Idle
      ensures ext.sees && old(owed).Some? ==> old(owed).value in submissions
      ensures undisturbed == (old(undisturbed) && (ext.sees || OwedRecorded(old(Now()))) && SteadyNews(Looked(old(Now()), ext.sees), ext.afterLook))
    {
      hide Path, TodoOf, Candidates, CarriageOf, IsClosed, After, Enabled, WithdrawsNothing;
      ghost var was := Now();
      var _ := RecordOwedAcceptance(Prepare, ext.sees, ext.drops);
      Receive(ext.afterLook);
      stop := PrepareUnderLock(ext);
    }

    // ---- calling ----

    /** The last look at the fold before calling. */
    method RecheckUnderLock(now: nat) returns (refused: Option<Dispatched>)
      requires OnPath() && work.Carrying?
      modifies this`failures, this`work, this`log, this`steps, this`undisturbed
      ensures OnPath() && undisturbed == old(undisturbed)
      ensures refused.None? <==>
        MayCall(old(Now()), now, old(work).action, old(work).carried)
      ensures refused.None? ==> work == Invoking(old(work).action, old(work).carried)
      ensures refused.Some? ==> work == Idle && !refused.value.SubmittedAs? && !refused.value.NotAccepted? && !refused.value.Uncertain?
      ensures refused == Some(ExpiredFirst) <==> Open(old(Now())) && Passed(old(Now()), now)
      ensures log == if refused == Some(ExpiredFirst) then old(log) + [RecordedFailure(Expired)] else old(log)
    {
      hide Path, IsClosed, HasExpired, TodoOf, Candidates, Open, Passed, CanCarry;
      ghost var before := Now();
      var action, c := work.action, work.carried;
      OpenIsNotClosed(before);
      PassedIsExpired(before, now);
      ChosenIsCandidate(before, c);
      if IsClosed(Now()) {
        refused := Some(NothingToCall);
        work := Idle;
      } else if HasExpired(Now(), now) {
        refused := Some(ExpiredFirst);
        failures := failures + {Expired};
        log := log + [RecordedFailure(Expired)];
        work := Idle;
      } else if TodoOf(Now()).ToPrepare? {
        refused := Some(HeldUp);
        work := Idle;
      } else if !TodoOf(Now()).ToDispatch? || c !in Candidates(Now()) {
        refused := Some(NothingToCall);
        work := Idle;
      } else if action !in actions || actions[action] {
        refused := Some(AlreadySpent);
        work := Idle;
      } else {
        refused := None;
        work := Invoking(action, c);
      }
      Took(before, Recheck(now));
    }

    /** The acceptance kept as owed, where the write is taken, and then committed. */
    method RecordAcceptance(keeps: bool, drops: bool)
      requires OnPath() && work.Keeping?
      modifies this`submissions, this`owed, this`work, this`log, this`steps, this`undisturbed
      ensures OnPath() && work == Idle && undisturbed == old(undisturbed)
      ensures old(work).carried in submissions && old(log) <= log
    {
      hide Path;
      ghost var before := Now();
      var c := work.carried;
      if keeps {
        owed := Some(c);
        log := log + [Kept(c)];
      }
      work := Committing(c);
      Took(before, WriteOwed(keeps));
      Committed(c, drops);
    }

    method Call()
      requires OnPath() && work.Invoking? && work.action in actions && !actions[work.action]
      modifies this`actions, this`work, this`log, this`steps, this`undisturbed
      ensures OnPath() && undisturbed == old(undisturbed) && work == InFlight(old(work).carried)
      ensures actions == old(actions)[old(work).action := true] && log == old(log) + [Called(old(work).action, old(work).carried)]
    {
      hide Path;
      ghost var before := Now();
      var action, c := work.action, work.carried;
      actions := actions[action := true];
      log := log + [Called(action, c)];
      work := InFlight(c);
      Took(before, Invoke);
    }

    method Hear(endpoint: Endpoint)
      requires OnPath() && work.InFlight?
      modifies this`work, this`steps, this`undisturbed
      ensures OnPath() && undisturbed == old(undisturbed)
      ensures work == if endpoint.Accepts? then Keeping(old(work).carried) else Idle
    {
      hide Path;
      ghost var before := Now();
      work := if endpoint.Accepts? then Keeping(work.carried) else Idle;
      Took(before, Answer(endpoint.Accepts?));
    }

    /** Calls, spending the action, and records what an accepting endpoint answered. */
    method CallOut(endpoint: Endpoint, duringCall: News, keeps: bool, drops: bool) returns (outcome: Dispatched)
      requires OnPath() && work.Invoking? && work.action in actions && !actions[work.action]
      modifies this`actions, this`evidence, this`submissions, this`failures, this`owed, this`work, this`log, this`steps, this`undisturbed
      ensures OnPath() && work == Idle && actions == old(actions)[old(work).action := true]
      ensures undisturbed == (old(undisturbed) && SteadyNews(old(Now()), duringCall))
      ensures outcome == match endpoint
                         case Accepts => SubmittedAs(old(work).carried)
                         case Refuses => NotAccepted(old(work).carried)
                         case NoAnswer => Uncertain(old(work).carried)
      ensures endpoint.Accepts? ==> old(work).carried in submissions
      ensures old(log) + [Called(old(work).action, old(work).carried)] <= log
    {
      hide Path, After, Enabled, WithdrawsNothing;
      var c := work.carried;
      Call();
      Receive(duringCall);
      Hear(endpoint);
      match endpoint {
        case Accepts =>
          RecordAcceptance(keeps, drops);
          outcome := SubmittedAs(c);
        case Refuses => outcome := NotAccepted(c);
        case NoAnswer => outcome := Uncertain(c);
      }
    }

    /** From a preparation picked to the call: the way out, the recheck, and the line, with what arrives between. */
    method Carry(ext: External) returns (outcome: Dispatched)
      requires OnPath() && work.Carrying? && work.action in actions
      modifies this`evidence, this`submissions, this`failures, this`actions, this`owed, this`work, this`log, this`steps, this`undisturbed
      ensures OnPath() && work == Idle && (undisturbed ==> old(undisturbed))
      ensures old(undisturbed) && CalmCarrying(old(evidence), ext) ==> undisturbed
      ensures outcome.SubmittedAs? ==> outcome.carried in submissions
      ensures var called := outcome.SubmittedAs? || outcome.NotAccepted? || outcome.Uncertain?;
        && actions == (if called then old(actions)[old(work).action := true] else old(actions))
        && (called <==> ext.here && ext.way.Ready? && ext.line.InTime? && MayCall(Learned(old(Now()), ext.afterReady), ext.recheckAt, old(work).action, old(work).carried))
        && (called ==> !old(actions)[old(work).action] && outcome.carried == old(work).carried && Called(old(work).action, outcome.carried) in log)
        && (called ==> !Passed(old(Now()), ext.recheckAt))
      ensures outcome.ExpiredFirst? ==> Passed(old(Now()), ext.recheckAt)
    {
      hide Path, TodoOf, Candidates, IsClosed, MayCall, After, Enabled, WithdrawsNothing, IsNews, CalmCalling;
      SameExpiry(Now(), ext.afterReady);
      if !ext.here || ext.way.NotYet? {
        StopShort();
        return HeldUp;
      }
      if ext.way.Never? {
        StopShort();
        return NothingToCall;
      }
      Receive(ext.afterReady);
      outcome := RecheckAndCall(ext);
    }

    method RecheckAndCall(ext: External) returns (outcome: Dispatched)
      requires OnPath() && work.Carrying?
      modifies this`evidence, this`submissions, this`failures, this`actions, this`owed, this`work, this`log, this`steps, this`undisturbed
      ensures OnPath() && work == Idle && (undisturbed ==> old(undisturbed))
      ensures old(undisturbed) && CalmCalling(old(evidence), ext) ==> undisturbed
      ensures outcome.SubmittedAs? ==> outcome.carried in submissions
      ensures var called := outcome.SubmittedAs? || outcome.NotAccepted? || outcome.Uncertain?;
        && actions == (if called then old(actions)[old(work).action := true] else old(actions))
        && (called <==> ext.line.InTime? && MayCall(old(Now()), ext.recheckAt, old(work).action, old(work).carried))
        && (called ==> !Passed(old(Now()), ext.recheckAt) && IsLive(old(Now()), old(work).action))
        && (called ==> outcome.carried == old(work).carried && Called(old(work).action, outcome.carried) in log)
      ensures outcome.ExpiredFirst? ==> Passed(old(Now()), ext.recheckAt)
    {
      hide Path, Open, CanCarry, Passed, CalmCalling, After, Enabled;
      var refused := RecheckUnderLock(ext.recheckAt);
      if refused.Some? {
        return refused.value;
      }
      outcome := CallInTime(ext);
    }

    /** The call, unless its time is up or its caller closed by now. */
    method CallInTime(ext: External) returns (outcome: Dispatched)
      requires OnPath() && work.Invoking? && work.action in actions && !actions[work.action]
      modifies this`evidence, this`submissions, this`failures, this`actions, this`owed, this`work, this`log, this`steps, this`undisturbed
      ensures OnPath() && work == Idle && (undisturbed ==> old(undisturbed))
      ensures old(undisturbed) && CalmCalling(old(evidence), ext) ==> undisturbed
      ensures outcome.SubmittedAs? ==> outcome.carried in submissions
      ensures !outcome.ExpiredFirst?
      ensures var called := outcome.SubmittedAs? || outcome.NotAccepted? || outcome.Uncertain?;
        && called == ext.line.InTime?
        && actions == (if called then old(actions)[old(work).action := true] else old(actions))
        && (called ==> outcome.carried == old(work).carried && Called(old(work).action, outcome.carried) in log)
    {
      hide Path, After, Enabled, WithdrawsNothing, IsNews;
      Receive(ext.afterRecheck);
      if !ext.line.InTime? {
        StopShort();
        return if ext.line.DeadlinePassed? then HeldUp else NothingToCall;
      }
      ghost var before := |log|;
      outcome := CallOut(ext.endpoint, ext.duringCall, ext.keeps, ext.drops);
      assert log[before] in log;
    }

    /**
     * A whole dispatch: an acceptance found owed comes first, and is the
     * outcome; the action is spent iff the call was made, and the call
     * carries what is then selected. With no unrecorded acceptance passed
     * over and nothing withdrawn meanwhile, the message stays safe.
     */
    method Attempt(action: ActionId, ext: External) returns (outcome: Dispatched)
      requires OnPath() && work == Idle && action in actions && MakesNew(evidence, ext)
      modifies this`evidence, this`submissions, this`failures, this`selected, this`owed, this`actions, this`work, this`log, this`steps, this`undisturbed
      ensures OnPath() && work == Idle
      ensures old(undisturbed) && (ext.sees || OwedRecorded(old(Now()))) && CalmThroughout(old(evidence), ext) ==> undisturbed
      ensures undisturbed ==> old(undisturbed) && (ext.sees || OwedRecorded(old(Now())))
      ensures outcome.SubmittedAs? ==> outcome.carried in submissions
      ensures ext.sees && old(owed).Some? ==> outcome == SubmittedAs(old(owed).value) && actions == old(actions)
      ensures var looked := !(ext.sees && old(owed).Some?);
        var called := outcome.SubmittedAs? || outcome.NotAccepted? || outcome.Uncertain?;
        && (looked && old(actions)[action] ==> outcome == AlreadySpent && log == old(log))
        && (looked ==> actions == if called then old(actions)[action := true] else old(actions))
        && (looked && called ==> !old(actions)[action] && selected == Some(outcome.carried) && Called(action, outcome.carried) in log)
        && (looked && called ==> !Passed(old(Now()), ext.recheckAt))
        && (looked && !old(actions)[action] && Open(Learned(old(Now()), ext.afterLook)) && Passed(old(Now()), ext.readyAt) ==>
              outcome.ExpiredFirst? && log == old(log) + [RecordedFailure(Expired)])
      ensures outcome.ExpiredFirst? ==> Passed(old(Now()), ext.readyAt) || Passed(old(Now()), ext.recheckAt)
    {
      hide Path, TodoOf, Candidates, CarriageOf, IsClosed, Open, After, Enabled, WithdrawsNothing, IsNews, CalmReadying;
      ghost var was := Now();
      var recorded := RecordOwedAcceptance(Dispatch(action), ext.sees, ext.drops);
      if recorded.Some? {
        return SubmittedAs(recorded.value);
      }
      if work.Idle? {
        return AlreadySpent;
      }
      LearnedAlike(was, Now(), ext.afterLook);
      Receive(ext.afterLook);
      OpenAlike(Learned(was, ext.afterLook), Now());
      SameExpiry(was, ext.afterLook);
      outcome := PrepareAndCarry(action, ext);
    }

    /** From the fold read under the lock to the call. */
    method PrepareAndCarry(action: ActionId, ext: External) returns (outcome: Dispatched)
      requires OnPath() && work == Readying(Dispatch(action)) && action in actions && ext.made !in evidence.prepared
      modifies this`evidence, this`submissions, this`failures, this`selected, this`owed, this`actions, this`work, this`log, this`steps, this`undisturbed
      ensures OnPath() && work == Idle && (undisturbed ==> old(undisturbed))
      ensures old(undisturbed) && CalmReadying(old(evidence), ext) ==> undisturbed
      ensures outcome.SubmittedAs? ==> outcome.carried in submissions
      ensures var called := outcome.SubmittedAs? || outcome.NotAccepted? || outcome.Uncertain?;
        && actions == (if called then old(actions)[action := true] else old(actions))
        && (called ==> !old(actions)[action] && selected == Some(outcome.carried) && Called(action, outcome.carried) in log)
        && (called ==> !Passed(old(Now()), ext.recheckAt))
      ensures outcome.ExpiredFirst? ==> Passed(old(Now()), ext.readyAt) || Passed(old(Now()), ext.recheckAt)
      ensures Open(old(Now())) && Passed(old(Now()), ext.readyAt) ==> outcome.ExpiredFirst? && log == old(log) + [RecordedFailure(Expired)]
    {
      hide Path, TodoOf, Candidates, CarriageOf, IsClosed, Open, MayCall, After, Enabled, WithdrawsNothing, CalmCarrying, Learned, WithMade;
      MadeExpiresAlike(evidence, ext.made, ext.sealed);
      var stop := PrepareUnderLock(ext);
      if stop.Some? {
        return stop.value;
      }
      outcome := Carry(ext);
    }
  }

  /** Undisturbed, every procedure leaves the message safe: one outcome at most, and no call and no failure after it. */
  lemma MessageIsSafe(message: Message)
    requires message.OnPath() && message.undisturbed
    ensures Safe(message.Now()) && Final(message.log)
  {
    hide Safe, Final, Path;
    PathIsSafe(message.start, message.steps, message.Now());
  }

  /** A message decided, and its first dispatch under a new action: whatever the world answers, withdrawing nothing, it is safe after. */
  method SendOnce(evidence: Evidence, action: ActionId, ext: External) returns (message: Message, outcome: Dispatched)
    requires MakesNew(evidence, ext) && CalmThroughout(evidence, ext)
    ensures fresh(message) && message.OnPath() && message.undisturbed && message.work == Idle
    ensures Safe(message.Now()) && Final(message.log)
  {
    hide Safe, Final, Path, CalmThroughout;
    message := new Message(evidence);
    message.MintAction(action);
    outcome := message.Attempt(action, ext);
    MessageIsSafe(message);
  }

  /** One is made only where there is none. */
  lemma NoneIsMade(s: State, selected: Option<Cid>)
    ensures CarriageOf(s, selected).Make? ==> s.evidence.prepared == {}
  {
  }

  lemma PickedAlike(s: State, t: State, job: Job, c: Cid)
    requires t == s.(selected := t.selected, work := t.work)
    ensures Picked(s, job, c) == Picked(t, job, c)
  {
    assert Candidates(s) == Candidates(t);
  }

  /** What arrives is news, and steady, by the vault alone. */
  lemma LearnedAlike(s: State, t: State, news: News)
    requires t == s.(work := t.work)
    ensures SteadyNews(s, news) <==> SteadyNews(t, news)
    ensures Learned(t, news) == Learned(s, news).(work := t.work)
  {
  }

  lemma ChosenIsCandidate(s: State, c: Cid)
    ensures Open(s) && CanCarry(s, c) <==> TodoOf(s).ToDispatch? && c in Candidates(s)
  {
    OpenIsNotClosed(s);
    if Open(s) {
      CarriedIsCandidate(s, c);
    }
  }

  lemma OpenAlike(s: State, t: State)
    requires t == s.(work := t.work)
    ensures Open(s) <==> Open(t)
  {
  }

  lemma MadeExpiresAlike(e: Evidence, made: Cid, sealed: bool)
    ensures WithMade(e, made, sealed).expires == e.expires
  {
  }

  lemma SameExpiry(s: State, news: News)
    ensures Learned(s, news).evidence.expires == s.evidence.expires
  {
  }

  lemma ReadAlike(s: State, t: State)
    requires t == s.(work := t.work)
    ensures TodoOf(s) == TodoOf(t) && Candidates(s) == Candidates(t) && IsClosed(s) == IsClosed(t)
  {
    assert Candidates(s) == Candidates(t);
  }
}
