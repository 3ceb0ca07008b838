/**
 * One outbound message at one runtime, as steps between any two of which the
 * process may crash: its preparation, its transport call, the acceptance kept
 * as owed and committed, its cancellation and expiry, the user's choice of a
 * preparation, and the open that records what is owed.
 *
 * Work on a message runs one piece at a time; an open runs beside it. What
 * the vault holds may change under any of them: other runtimes' events
 * arrive, evidence completes or falls into conflict, channels are blocked.
 */
module Outbound {
  import opened Dids

  type Cid = nat
  type ActionId = nat

  datatype Code = Cancelled | Expired

  /**
   * What the fold reads of the vault beside this message's delivery events:
   * `blocked` stands for every reason the message takes no work now other
   * than its being closed, `expires` is in whole seconds.
   */
  datatype Evidence = Evidence(
    consistent: bool, expires: Option<nat>, prepared: set<Cid>, complete: set<Cid>, erased: set<Cid>, blocked: bool)

  /** A piece of work on the message. */
  datatype Job = Dispatch(action: ActionId) | Prepare | Cancel | Choose(choice: Cid)

  /** How far the one running piece of work is: each names what it does next. */
  datatype Work =
    | Idle
    | ReadingOwed(job: Job)
    | RecordingOwed(job: Job, owing: Cid)
    | DroppingOwed(job: Job)
    | Readying(job: Job)
    | Selecting(job: Job, picked: Cid)
    | Carrying(action: ActionId, carried: Cid)
    | Invoking(action: ActionId, carried: Cid)
    | InFlight(carried: Cid)
    | Keeping(carried: Cid)
    | Committing(carried: Cid)
    | Clearing
    | Cancelling
    | Checking(choice: Cid)
    | Writing(choice: Cid)

  datatype Opening = Closed | Looking | OpenRecording(owing: Cid) | OpenDropping(recorded: Cid)

  /** What this runtime did, in order. */
  datatype Entry =
    | Called(action: ActionId, carried: Cid)
    | Chose(choice: Cid)
    | Kept(carried: Cid)
    | RecordedSubmission(carried: Cid)
    | RecordedFailure(code: Code)

  /**
   * `submissions` are the preparations `delivery.submitted` events here name
   * and `failures` the codes of `delivery.failed` ones, whoever wrote them;
   * `selected` and `owed` are this runtime's local records. `work`, `opening`
   * and `actions`, each with whether it is spent, go with the process.
   */
  datatype State = State(
    evidence: Evidence, submissions: set<Cid>, failures: set<Code>,
    selected: Option<Cid>, owed: Option<Cid>,
    work: Work, opening: Opening, actions: map<ActionId, bool>,
    minted: set<ActionId>, log: seq<Entry>)

  // ---- what the fold says ----

  /** A submission names a complete preparation that is here. */
  predicate Submitted(s: State) {
    s.evidence.consistent && exists c :: c in s.submissions && c in s.evidence.prepared && c in s.evidence.complete
  }

  predicate Terminal(s: State) {
    s.evidence.consistent && (Cancelled in s.failures || (Expired in s.failures && s.evidence.expires.Some?))
  }

  /** Nothing more is to be done for it, whatever else the fold says. */
  predicate IsClosed(s: State) {
    !s.evidence.consistent || Submitted(s) || Terminal(s)
  }

  predicate HasExpired(s: State, now: nat) {
    s.evidence.expires.Some? && now >= s.evidence.expires.value * 1000
  }

  function Candidates(s: State): set<Cid> {
    set c | c in s.evidence.prepared && c in s.evidence.complete && c !in s.evidence.erased
  }

  /** What the fold says is left to do: nothing, a preparation, or a call carrying one of the candidates. */
  datatype Todo = Nothing | ToPrepare | ToDispatch

  function TodoOf(s: State): (r: Todo) {
    if IsClosed(s) || s.evidence.blocked || !(s.submissions <= s.evidence.prepared) then Nothing
    else if s.evidence.prepared == {} then ToPrepare
    else if Candidates(s) != {} then ToDispatch
    else Nothing
  }

  // ---- which preparation a call carries ----

  datatype Carriage = Make | Carry(preparation: Cid, wasSelected: bool) | Ask | NoCarriage

  /** The selected one while it can be carried and nothing in its place; with none selected, one to be made, or the only candidate. */
  function CarriageOf(s: State, selected: Option<Cid>): (r: Carriage) {
    if TodoOf(s).Nothing? then NoCarriage
    else if selected.Some? then
      if selected.value in Candidates(s) then Carry(selected.value, true) else NoCarriage
    else if TodoOf(s).ToPrepare? then Make
    else if exists c :: c in Candidates(s) && Candidates(s) == {c} then
      var c :| c in Candidates(s) && Candidates(s) == {c};
      Carry(c, false)
    else Ask
  }

  // ---- the steps ----

  datatype Label =
    | Begin(job: Job)
    | ReadOwed(ok: bool)
    | CommitOwed
    | DropOwed(ok: bool)
    | Ready(now: nat, made: Cid, sealed: bool, ok: bool)
    | WriteSelection(wrote: bool, refused: bool)
    | Recheck(now: nat)
    | Invoke
    | Answer(accepted: bool)
    | WriteOwed(wrote: bool)
    | CommitAccepted
    | CancelLocked
    | CheckChoice
    | WriteChoice(wrote: bool)
    | GiveUp
    | Crash
    | Mint(action: ActionId)
    | Learn(evidence: Evidence, submissions: set<Cid>, failures: set<Code>)
    | OpenLook
    | OpenRead(ok: bool)
    | OpenCommit
    | OpenDrop(ok: bool)

  predicate Enabled(s: State, l: Label) {
    match l
    case Begin(job) => s.work.Idle? && (job.Dispatch? ==> job.action in s.actions)
    case ReadOwed(_) => s.work.ReadingOwed?
    case CommitOwed => s.work.RecordingOwed?
    case DropOwed(_) => s.work.DroppingOwed? || s.work.Clearing?
    case Ready(_, made, _, _) => s.work.Readying? && made !in s.evidence.prepared
    case WriteSelection(_, _) => s.work.Selecting?
    case Recheck(_) => s.work.Carrying?
    case Invoke => s.work.Invoking?
    case Answer(_) => s.work.InFlight?
    case WriteOwed(_) => s.work.Keeping?
    case CommitAccepted => s.work.Committing?
    case CancelLocked => s.work.Cancelling?
    case CheckChoice => s.work.Checking?
    case WriteChoice(_) => s.work.Writing?
    case GiveUp => true
    case Crash => true
    case Mint(action) => action !in s.minted
    case Learn(evidence, submissions, failures) =>
      s.evidence.prepared <= evidence.prepared && s.submissions <= submissions && s.failures <= failures && s.evidence.expires == evidence.expires
    case OpenLook => s.opening.Closed?
    case OpenRead(_) => s.opening.Looking?
    case OpenCommit => s.opening.OpenRecording?
    case OpenDrop(_) => s.opening.OpenDropping?
  }

  /** `delivery.submitted` for the preparation, unless one already records it. */
  function CommitSubmission(s: State, c: Cid): (r: State) {
    s.(submissions := s.submissions + {c},
       log := if c in s.submissions then s.log else s.log + [RecordedSubmission(c)])
  }

  /** `delivery.failed`, which ends the work. */
  function CommitFailure(s: State, code: Code): (r: State) {
    s.(failures := s.failures + {code}, log := s.log + [RecordedFailure(code)], work := Idle)
  }

  /** Once the owed acceptance is looked at and none is left: what the job does next. */
  function PastOwed(s: State, job: Job): (w: Work) {
    match job
    case Dispatch(action) => if action !in s.actions || s.actions[action] then Idle else Readying(job)
    case Prepare => Readying(job)
    case Cancel => Cancelling
    case Choose(c) => Checking(c)
  }

  /** The preparation is picked and selected: a dispatch goes on if the fold lets a call carry it, a bare preparation is done. */
  function Picked(s: State, job: Job, c: Cid): (w: Work) {
    if job.Dispatch? && TodoOf(s).ToDispatch? && c in Candidates(s) then Carrying(job.action, c) else Idle
  }

  /** The evidence with a preparation made here, which may or may not be complete. */
  function WithMade(evidence: Evidence, made: Cid, sealed: bool): (r: Evidence) {
    evidence.(prepared := evidence.prepared + {made},
              complete := if sealed then evidence.complete + {made} else evidence.complete)
  }

  function AfterReady(s: State, now: nat, made: Cid, sealed: bool, ok: bool): (r: State)
    requires s.work.Readying?
  {
    if IsClosed(s) then s.(work := Idle)
    else if HasExpired(s, now) then CommitFailure(s, Expired)
    else
      match CarriageOf(s, if ok then s.selected else None)
      case Carry(c, true) => s.(work := Picked(s, s.work.job, c))
      case Carry(c, false) => s.(work := Selecting(s.work.job, c))
      case Make =>
        s.(evidence := WithMade(s.evidence, made, sealed), work := Selecting(s.work.job, made))
      case _ => s.(work := Idle)
  }

  function AfterRecheck(s: State, now: nat): (r: State)
    requires s.work.Carrying?
  {
    if IsClosed(s) then s.(work := Idle)
    else if HasExpired(s, now) then CommitFailure(s, Expired)
    else if !TodoOf(s).ToDispatch? || s.work.carried !in Candidates(s) then s.(work := Idle)
    else if s.work.action !in s.actions || s.actions[s.work.action] then s.(work := Idle)
    else s.(work := Invoking(s.work.action, s.work.carried))
  }

  /** Spending the action and calling are a single step. */
  function AfterInvoke(s: State): (r: State)
    requires s.work.Invoking?
  {
    var action := s.work.action;
    if action !in s.actions || s.actions[action] then s.(work := Idle)
    else s.(actions := s.actions[action := true], log := s.log + [Called(action, s.work.carried)], work := InFlight(s.work.carried))
  }

  function After(s: State, l: Label): (r: State)
    requires Enabled(s, l)
  {
    match l
    case Begin(job) => s.(work := ReadingOwed(job))
    case ReadOwed(ok) =>
      if ok && s.owed.Some? then s.(work := RecordingOwed(s.work.job, s.owed.value)) else s.(work := PastOwed(s, s.work.job))
    case CommitOwed => CommitSubmission(s, s.work.owing).(work := DroppingOwed(s.work.job))
    case DropOwed(ok) =>
      var work := if s.work.DroppingOwed? && s.work.job.Prepare? then Readying(Prepare) else Idle;
      s.(owed := if ok then None else s.owed, work := work)
    case Ready(now, made, sealed, ok) => AfterReady(s, now, made, sealed, ok)
    case WriteSelection(wrote, refused) =>
      s.(selected := if wrote then Some(s.work.picked) else s.selected,
         work := if refused || !wrote then Idle else Picked(s, s.work.job, s.work.picked))
    case Recheck(now) => AfterRecheck(s, now)
    case Invoke => AfterInvoke(s)
    case Answer(accepted) => s.(work := if accepted then Keeping(s.work.carried) else Idle)
    case WriteOwed(wrote) =>
      s.(owed := if wrote then Some(s.work.carried) else s.owed,
         log := if wrote then s.log + [Kept(s.work.carried)] else s.log,
         work := Committing(s.work.carried))
    case CommitAccepted => CommitSubmission(s, s.work.carried).(work := Clearing)
    case CancelLocked => if IsClosed(s) then s.(work := Idle) else CommitFailure(s, Cancelled)
    case CheckChoice =>
      s.(work := if TodoOf(s).ToDispatch? && s.work.choice in Candidates(s) then Writing(s.work.choice) else Idle)
    case WriteChoice(wrote) =>
      s.(selected := if wrote then Some(s.work.choice) else s.selected,
         log := if wrote then s.log + [Chose(s.work.choice)] else s.log,
         work := Idle)
    case GiveUp => s.(work := Idle)
    case Crash => s.(work := Idle, opening := Closed, actions := map[])
    case Mint(action) => s.(actions := s.actions[action := false], minted := s.minted + {action})
    case Learn(evidence, submissions, failures) => s.(evidence := evidence, submissions := submissions, failures := failures)
    case OpenLook => if Submitted(s) || s.evidence.prepared == {} then s else s.(opening := Looking)
    case OpenRead(ok) => s.(opening := if ok && s.owed.Some? then OpenRecording(s.owed.value) else Closed)
    case OpenCommit => CommitSubmission(s, s.opening.owing).(opening := OpenDropping(s.opening.owing))
    case OpenDrop(ok) => s.(owed := if ok then None else s.owed, opening := Closed)
  }

  /** A message as decided: nothing prepared, nothing recorded, nothing kept of it. */
  predicate Initial(s: State) {
    && s.submissions == {} && s.failures == {} && s.selected == None && s.owed == None
    && s.work == Idle && s.opening == Closed && s.actions == map[] && s.minted == {} && s.log == []
  }

  /** A run of one message's steps. */
  ghost predicate IsRun(states: seq<State>, labels: seq<Label>) {
    && |states| == |labels| + 1
    && Initial(states[0])
    && forall i :: 0 <= i < |labels| ==> Enabled(states[i], labels[i]) && states[i + 1] == After(states[i], labels[i])
  }

  /** The owed acceptance, if any is left, is recorded. */
  predicate OwedRecorded(s: State) {
    s.owed.Some? ==> s.owed.value in s.submissions
  }

  /** A look at the owed record that fails passes over none that is not recorded. */
  predicate Heeded(s: State, l: Label) {
    l == ReadOwed(false) ==> OwedRecorded(s)
  }

  /** A look at the selection fails where a call may carry one preparation only, and it is not the one selected. */
  predicate Replaces(s: State, l: Label) {
    && l.Ready? && !l.ok && s.selected.Some?
    && !IsClosed(s) && !HasExpired(s, l.now) && TodoOf(s).ToDispatch?
    && exists c :: c in Candidates(s) && c != s.selected.value && Candidates(s) == {c}
  }

  /** A complete preparation stays complete, unless the intent itself is now in conflict. */
  predicate WithdrawsNothing(before: Evidence, after: Evidence) {
    after.consistent ==>
      before.consistent && forall c :: c in before.prepared && c in before.complete ==> c in after.complete
  }

  /** What arrives withdraws nothing. */
  predicate Steady(s: State, l: Label) {
    l.Learn? ==> WithdrawsNothing(s.evidence, l.evidence)
  }

  // ---- a path of steps ----

  /** Where the steps lead, taken one after the other; nowhere when one of them cannot be taken. */
  ghost function Along(s: State, labels: seq<Label>): (r: Option<State>)
    decreases |labels|
  {
    if labels == [] then Some(s)
    else if !Enabled(s, labels[0]) then None
    else Along(After(s, labels[0]), labels[1..])
  }

  lemma {:induction false} AlongOnwards(s: State, first: seq<Label>, more: seq<Label>)
    requires Along(s, first).Some?
    ensures Along(s, first + more) == Along(Along(s, first).value, more)
    decreases |first|
  {
    if first == [] {
      assert first + more == more;
    } else {
      assert (first + more)[1..] == first[1..] + more;
      AlongOnwards(After(s, first[0]), first[1..], more);
    }
  }

  lemma AlongStep(s: State, l: Label, rest: seq<Label>)
    requires Enabled(s, l)
    ensures Along(s, [l] + rest) == Along(After(s, l), rest)
  {
    assert ([l] + rest)[1..] == rest;
  }

  /** One step more. */
  lemma AlongOnce(s: State, labels: seq<Label>, t: State, l: Label)
    requires Along(s, labels) == Some(t) && Enabled(t, l)
    ensures Along(s, labels + [l]) == Some(After(t, l))
  {
    hide After, Enabled;
    AlongOnwards(s, labels, [l]);
    AlongStep(t, l, []);
    assert [l] + [] == [l];
  }
}
