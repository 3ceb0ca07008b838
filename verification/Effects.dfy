/**
 * The automatic operations over one input: a recorded result stands, and
 * each of the others comes to one result at most.
 */
module Effects {
  import opened Dids

  type Effect = nat
  const PURE_ACK: Effect := 0

  /** One operation over one input. */
  datatype Tuple = Tuple(execution: nat, effect: Effect)

  /** What the vault holds of results: the tuples an output is recorded under, and those a skip is, with its code. */
  datatype Vault = Vault(outputs: set<Tuple>, skips: map<Tuple, nat>)

  datatype Result = Produced | SkippedAs(code: nat) | Conflict | Pending

  function ResultOf(vault: Vault, tuple: Tuple): (r: Result) {
    if tuple in vault.outputs then (if tuple in vault.skips then Conflict else Produced)
    else if tuple in vault.skips then SkippedAs(vault.skips[tuple])
    else Pending
  }

  datatype Response = Skip(effect: Effect, code: nat) | Content(effect: Effect) | Nothing(effect: Effect)

  datatype Draft = Created | Existing | Skipped(code: nat) | NoneGiven | Refused

  /** What a recorded result settles. */
  function ResultOutcome(result: Result): (d: Draft)
    requires !result.Pending?
  {
    match result
    case Produced => Existing
    case SkippedAs(code) => Skipped(code)
    case Conflict => NoneGiven
  }

  /** What this runtime committed for an operation. */
  datatype Commit = Output(tuple: Tuple) | SkipRecord(tuple: Tuple, code: nat)

  function Committed(vault: Vault, commit: Commit): (r: Vault) {
    match commit
    case Output(tuple) => vault.(outputs := vault.outputs + {tuple})
    case SkipRecord(tuple, code) => vault.(skips := vault.skips[tuple := code])
  }

  function CommittedAll(vault: Vault, commits: seq<Commit>): (r: Vault) {
    if commits == [] then vault
    else Committed(CommittedAll(vault, commits[..|commits| - 1]), commits[|commits| - 1])
  }

  /** No tuple is committed for twice: one output or one skip, never both. */
  ghost predicate OnePerTuple(commits: seq<Commit>) {
    forall i, j :: 0 <= i < j < |commits| ==> commits[i].tuple != commits[j].tuple
  }

  /** What the disk does with a record: takes it, takes it and throws all the same, or does not take it. */
  datatype Recording = Taken | TakenButThrew | NotTaken

  /** What becomes of the record of a response: whether there is a channel for a reply, and what the disk does. */
  datatype Making = Making(channel: bool, recording: Recording)

  /** How the handler answered, or that it threw. */
  datatype Answer = Answered(responses: seq<Response>) | HandlerThrew

  /** What a commit leaves its operation with: the output or the skip it is, unless the disk threw all the same. */
  predicate Shows(commit: Commit, draft: Draft) {
    draft.Refused? || draft == if commit.Output? then Created else Skipped(commit.code)
  }

  /**
   * What becomes of an open operation by the response that settles it. An
   * output is recorded for content there is a channel for and a skip for a
   * skip, where the disk takes it; it is answered as such where the disk does
   * not throw, and anything else is answered as nothing or refused.
   */
  ghost predicate Decided(tuple: Tuple, response: Response, making: Making, drafted: map<Effect, Draft>, commits: seq<Commit>) {
    && tuple.effect in drafted
    && (forall code :: SkipRecord(tuple, code) in commits <==> response.Skip? && response.code == code && !making.recording.NotTaken?)
    && (Output(tuple) in commits <==> response.Content? && making.channel && !making.recording.NotTaken?)
    && drafted[tuple.effect] ==
         if response.Nothing? || (response.Content? && !making.channel) then NoneGiven
         else if !making.recording.Taken? then Refused
         else if response.Skip? then Skipped(response.code)
         else Created
  }

  /** Nothing is recorded for the operation. */
  ghost predicate Uncommitted(tuple: Tuple, commits: seq<Commit>) {
    Output(tuple) !in commits && forall code :: SkipRecord(tuple, code) !in commits
  }

  /** The response is the first to the operation. */
  ghost predicate FirstTo(responses: seq<Response>, e: Effect, k: nat) {
    k < |responses| && responses[k].effect == e && forall j :: 0 <= j < k ==> responses[j].effect != e
  }

  /** What becomes of an open operation by the handler: refused if it was asked for it and threw, settled by the first response to it, or left alone. */
  ghost predicate Handled(tuple: Tuple, answer: Answer, makings: nat -> Making, asked: set<Effect>, drafted: map<Effect, Draft>, commits: seq<Commit>) {
    match answer
    case HandlerThrew =>
      Uncommitted(tuple, commits) && if tuple.effect in asked then tuple.effect in drafted && drafted[tuple.effect] == Refused else tuple.effect !in drafted
    case Answered(responses) =>
      if asked != {} && exists k: nat :: FirstTo(responses, tuple.effect, k) then
        forall k: nat :: FirstTo(responses, tuple.effect, k) ==> Decided(tuple, responses[k], makings(k), drafted, commits)
      else Uncommitted(tuple, commits) && tuple.effect !in drafted
  }

  /**
   * What one turn under the lock comes to: a tuple with a result gets it back
   * as it stands, and one without is committed for once at most; what it
   * answers as created or skipped is recorded.
   */
  ghost predicate IsTurn(vault: Vault, execution: nat, drafted: map<Effect, Draft>, commits: seq<Commit>) {
    && OnePerTuple(commits)
    && (forall i :: 0 <= i < |commits| ==>
          commits[i].tuple.execution == execution && ResultOf(vault, commits[i].tuple).Pending?
          && commits[i].tuple.effect in drafted && Shows(commits[i], drafted[commits[i].tuple.effect]))
    && (forall e :: e in drafted && !ResultOf(vault, Tuple(execution, e)).Pending? ==> drafted[e] == ResultOutcome(ResultOf(vault, Tuple(execution, e))))
    && (forall e :: e in drafted && ResultOf(vault, Tuple(execution, e)).Pending? && drafted[e].Created? ==> Output(Tuple(execution, e)) in commits)
    && (forall e :: e in drafted && ResultOf(vault, Tuple(execution, e)).Pending? && drafted[e].Skipped? ==> SkipRecord(Tuple(execution, e), drafted[e].code) in commits)
    && (forall e :: e in drafted && ResultOf(vault, Tuple(execution, e)).Pending? ==> !drafted[e].Existing?)
  }

  /** One operation more is settled, with what is committed for it. */
  lemma TurnExtended(vault: Vault, execution: nat, drafted: map<Effect, Draft>, commits: seq<Commit>, e: Effect, draft: Draft, more: seq<Commit>)
    requires IsTurn(vault, execution, drafted, commits) && e !in drafted && ResultOf(vault, Tuple(execution, e)).Pending? && !draft.Existing?
    requires if more == [] then !draft.Created? && !draft.Skipped? else |more| == 1 && more[0].tuple == Tuple(execution, e) && Shows(more[0], draft)
    ensures IsTurn(vault, execution, drafted[e := draft], commits + more)
    ensures Uncommitted(Tuple(execution, e), commits)
  {
    hide ResultOf;
    assert forall i :: 0 <= i < |commits| ==> commits[i].tuple.effect != e;
    assert forall c :: c in commits + more <==> c in commits || c in more;
  }

  lemma DecidedStays(tuple: Tuple, response: Response, making: Making, drafted: map<Effect, Draft>, commits: seq<Commit>, drafted': map<Effect, Draft>, commits': seq<Commit>)
    requires Decided(tuple, response, making, drafted, commits)
    requires tuple.effect in drafted' && drafted'[tuple.effect] == drafted[tuple.effect]
    requires forall c: Commit :: c.tuple == tuple ==> (c in commits' <==> c in commits)
    ensures Decided(tuple, response, making, drafted', commits')
  {
  }

  lemma {:induction false} FirstExists(responses: seq<Response>, e: Effect, i: nat)
    requires i < |responses| && responses[i].effect == e
    ensures exists k: nat :: FirstTo(responses, e, k)
  {
    if j :| 0 <= j < i && responses[j].effect == e {
      FirstExists(responses, e, j);
    } else {
      assert FirstTo(responses, e, i);
    }
  }

  lemma HandledByFirst(vault: Vault, execution: nat, responses: seq<Response>, makings: nat -> Making, asked: set<Effect>, drafted: map<Effect, Draft>, commits: seq<Commit>, e: Effect)
    requires IsTurn(vault, execution, drafted, commits) && asked != {}
    requires forall k: nat :: FirstTo(responses, e, k) ==> Decided(Tuple(execution, e), responses[k], makings(k), drafted, commits)
    requires (forall i :: 0 <= i < |responses| ==> responses[i].effect != e) ==> e !in drafted
    ensures Handled(Tuple(execution, e), Answered(responses), makings, asked, drafted, commits)
  {
    hide IsTurn, ResultOf, Decided, FirstTo;
    CommitsAreDrafted(vault, execution, drafted, commits);
    if i :| 0 <= i < |responses| && responses[i].effect == e {
      FirstExists(responses, e, i);
    } else {
      NoneFirst(responses, e);
    }
  }

  lemma NoneFirst(responses: seq<Response>, e: Effect)
    requires forall i :: 0 <= i < |responses| ==> responses[i].effect != e
    ensures forall k: nat :: !FirstTo(responses, e, k)
  {
  }

  /** With nobody asked, or a handler that threw, nothing is committed. */
  lemma LeftAlone(execution: nat, open: set<Effect>, commits: seq<Commit>, e: Effect)
    requires e in open && forall c :: c in commits ==> c.tuple.effect !in open
    ensures Uncommitted(Tuple(execution, e), commits)
  {
  }

  lemma CommitsAreDrafted(vault: Vault, execution: nat, drafted: map<Effect, Draft>, commits: seq<Commit>)
    requires IsTurn(vault, execution, drafted, commits)
    ensures forall c :: c in commits ==> c.tuple.execution == execution && c.tuple.effect in drafted && ResultOf(vault, c.tuple).Pending?
  {
    hide ResultOf;
  }

  class Settlement {
    const vault: Vault
    const execution: nat
    /** each operation's draft once it is settled, and the operations with no result yet */
    var drafted: map<Effect, Draft>
    var open: set<Effect>
    var commits: seq<Commit>

    constructor (vault: Vault, execution: nat)
      ensures this.vault == vault && this.execution == execution && drafted == map[] && open == {} && commits == []
      ensures Valid()
    {
      this.vault, this.execution := vault, execution;
      drafted, open, commits := map[], {}, [];
    }

    function TupleOf(effect: Effect): Tuple {
      Tuple(execution, effect)
    }

    ghost predicate Valid()
      reads this
    {
      && open !! drafted.Keys
      && (forall e :: e in open ==> ResultOf(vault, TupleOf(e)).Pending?)
      && IsTurn(vault, execution, drafted, commits)
    }

    /** Only what has no result yet is open to a decision. */
    method LookUp(effect: Effect)
      requires Valid() && effect !in drafted
      modifies this`drafted, this`open
      ensures Valid()
      ensures if ResultOf(vault, TupleOf(effect)).Pending? then open == old(open) + {effect} && drafted == old(drafted)
              else drafted == old(drafted)[effect := ResultOutcome(ResultOf(vault, TupleOf(effect)))] && open == old(open) - {effect}
    {
      var result := ResultOf(vault, TupleOf(effect));
      if result.Pending? {
        open := open + {effect};
      } else {
        open := open - {effect};
        drafted := drafted[effect := ResultOutcome(result)];
      }
    }

    /** The first response to an open operation settles it; any other says nothing. */
    method Decide(response: Response, making: Making)
      requires Valid()
      modifies this
      ensures Valid()
      ensures response.effect !in old(open) ==> drafted == old(drafted) && open == old(open) && commits == old(commits)
      ensures response.effect in old(open) ==>
        && open == old(open) - {response.effect}
        && response.effect in drafted && drafted == old(drafted)[response.effect := drafted[response.effect]]
        && Decided(TupleOf(response.effect), response, making, drafted, commits)
      ensures forall c: Commit :: c.tuple != TupleOf(response.effect) ==> (c in commits <==> c in old(commits))
    {
      hide IsTurn, ResultOf;
      var e := response.effect;
      if e !in open {
        return;
      }
      var more, draft := [], NoneGiven;
      match response {
        case Skip(_, code) =>
          if !making.recording.NotTaken? {
            more := [SkipRecord(TupleOf(e), code)];
          }
          draft := if making.recording.Taken? then Skipped(code) else Refused;
        case Content(_) =>
          if making.channel {
            if !making.recording.NotTaken? {
              more := [Output(TupleOf(e))];
            }
            draft := if making.recording.Taken? then Created else Refused;
          }
        case Nothing(_) =>
      }
      TurnExtended(vault, execution, drafted, commits, e, draft, more);
      commits := commits + more;
      drafted := drafted[e := draft];
      open := open - {e};
    }

    /** The responses in turn, each operation settled by the first to it. */
    method DecideAll(responses: seq<Response>, makings: nat -> Making)
      requires Valid()
      modifies this
      ensures Valid()
      ensures open <= old(open) && drafted.Keys + open == old(drafted.Keys + open)
      ensures forall e :: e in old(drafted) ==> e in drafted && drafted[e] == old(drafted)[e]
      ensures forall e :: e in open <==> e in old(open) && forall i :: 0 <= i < |responses| ==> responses[i].effect != e
      ensures forall e, k: nat :: e in old(open) && FirstTo(responses, e, k) ==> Decided(TupleOf(e), responses[k], makings(k), drafted, commits)
      ensures forall c: Commit :: c.tuple.effect in old(drafted) ==> (c in commits <==> c in old(commits))
    {
      hide IsTurn, ResultOf, Decided;
      for k := 0 to |responses|
        modifies this
        invariant Valid()
        invariant open <= old(open) && drafted.Keys + open == old(drafted.Keys + open)
        invariant forall e :: e in old(drafted) ==> e in drafted && drafted[e] == old(drafted)[e]
        invariant forall e :: e in open <==> e in old(open) && forall i :: 0 <= i < k ==> responses[i].effect != e
        invariant forall e, j: nat :: e in old(open) && j < k && FirstTo(responses, e, j) ==> Decided(TupleOf(e), responses[j], makings(j), drafted, commits)
        invariant forall c: Commit :: c.tuple.effect in old(drafted) ==> (c in commits <==> c in old(commits))
      {
        ghost var were, before := drafted, commits;
        Decide(responses[k], makings(k));
        forall e, j: nat | e in old(open) && j <= k && FirstTo(responses, e, j)
          ensures Decided(TupleOf(e), responses[j], makings(j), drafted, commits)
        {
          if j < k {
            DecidedStays(TupleOf(e), responses[j], makings(j), were, before, drafted, commits);
          }
        }
      }
    }

    /** The receipt's own responses, the first of which settles it. */
    method DecideReceipt(responses: seq<Response>, makings: nat -> Making)
      requires Valid() && PURE_ACK in open && forall i :: 0 <= i < |responses| ==> responses[i].effect == PURE_ACK
      modifies this
      ensures Valid()
      ensures open == if responses == [] then old(open) else old(open) - {PURE_ACK}
      ensures drafted.Keys + open == old(drafted.Keys + open) && old(drafted.Keys) <= drafted.Keys
      ensures responses != [] ==> Decided(TupleOf(PURE_ACK), responses[0], makings(0), drafted, commits)
      ensures responses == [] ==> commits == old(commits) && drafted == old(drafted)
    {
      hide IsTurn, ResultOf, Decided;
      if responses != [] {
        DecideAll(responses, makings);
        assert FirstTo(responses, PURE_ACK, 0);
        assert responses[0].effect == PURE_ACK;
      }
      assert forall e :: e in open <==> e in old(open) && (responses == [] || e != PURE_ACK);
    }

    /** Whatever was still open of what it was asked comes to a refusal. */
    method RefuseAll(effects: seq<Effect>)
      requires Valid()
      modifies this`drafted, this`open
      ensures Valid()
      ensures forall e :: e in effects && e in old(open) ==> e in drafted && drafted[e] == Refused
      ensures forall e :: e in old(drafted) ==> e in drafted && drafted[e] == old(drafted)[e]
      ensures forall e :: e in drafted ==> e in old(drafted) || (e in effects && e in old(open))
    {
      hide IsTurn, ResultOf;
      for k := 0 to |effects|
        modifies this`drafted, this`open
        invariant Valid()
        invariant open <= old(open)
        invariant forall e :: e in effects[..k] && e in old(open) ==> e in drafted && drafted[e] == Refused
        invariant forall e :: e in old(open) ==> e in open || (e in drafted && drafted[e] == Refused && e in effects)
        invariant forall e :: e in old(drafted) ==> e in drafted && drafted[e] == old(drafted)[e]
        invariant forall e :: e in drafted ==> e in old(drafted) || (e in effects && e in old(open))
      {
        var e := effects[k];
        assert e in effects;
        if e in open {
          TurnExtended(vault, execution, drafted, commits, e, Refused, []);
          assert commits + [] == commits;
          drafted := drafted[e := Refused];
          open := open - {e};
        }
      }
      assert effects[..|effects|] == effects;
    }

    /** The handler, asked once for what is open of what it declares, or not at all. */
    method Ask(handled: seq<Effect>, answer: Answer, makings: nat -> Making) returns (asked: set<Effect>)
      requires Valid()
      modifies this
      ensures Valid() && drafted.Keys <= old(drafted.Keys + open)
      ensures asked == set e | e in old(open) && e in handled
      ensures forall e :: e in old(drafted) ==> e in drafted && drafted[e] == old(drafted)[e]
      ensures forall c: Commit :: c.tuple.effect in old(drafted) ==> (c in commits <==> c in old(commits))
      ensures forall e :: e in old(open) ==> Handled(TupleOf(e), answer, makings, asked, drafted, commits)
    {
      hide IsTurn, ResultOf, Decided, FirstTo, Uncommitted;
      ghost var were := open;
      CommitsAreDrafted(vault, execution, drafted, commits);
      asked := set e | e in open && e in handled;
      if asked != {} {
        match answer {
          case HandlerThrew => RefuseAll(handled);
          case Answered(responses) => DecideAll(responses, makings);
        }
      }
      forall e | e in were ensures Handled(TupleOf(e), answer, makings, asked, drafted, commits) {
        if answer.HandlerThrew? || asked == {} {
          LeftAlone(execution, were, commits, e);
        } else {
          HandledByFirst(vault, execution, answer.responses, makings, asked, drafted, commits, e);
        }
      }
    }

    /** The operations of a turn: the receipt and those the handler declares, each once, narrowed to one where only that is asked. */
    method LookUpAll(operations: seq<Effect>)
      requires Valid() && drafted == map[] && open == {}
      modifies this`drafted, this`open
      ensures Valid()
      ensures drafted.Keys + open == set e | e in operations
      ensures open == set e | e in operations && ResultOf(vault, TupleOf(e)).Pending?
    {
      for k := 0 to |operations|
        modifies this`drafted, this`open
        invariant Valid()
        invariant drafted.Keys + open == set e | e in operations[..k]
        invariant open == set e | e in operations[..k] && ResultOf(vault, TupleOf(e)).Pending?
      {
        var e := operations[k];
        assert operations[..k + 1] == operations[..k] + [e];
        if e !in drafted {
          LookUp(e);
        }
      }
      assert operations[..|operations|] == operations;
    }
  }

  /** An operation of the turn: the receipt or one the handler declares, narrowed to one where only that is asked. */
  predicate InScope(handled: seq<Effect>, only: Option<Effect>, e: Effect) {
    (e == PURE_ACK || e in handled) && (only.None? || only.value == e)
  }

  method OperationsOf(handled: seq<Effect>, only: Option<Effect>) returns (operations: seq<Effect>)
    ensures forall e :: e in operations <==> InScope(handled, only, e)
  {
    operations := [];
    var all := [PURE_ACK] + handled;
    for k := 0 to |all|
      invariant forall e :: e in operations <==> e in all[..k] && (only.None? || only.value == e)
    {
      assert all[..k + 1] == all[..k] + [all[k]];
      if only.None? || only.value == all[k] {
        operations := operations + [all[k]];
      }
    }
    assert all[..|all|] == all;
  }

  /** What the handler is asked for: what it declares that is in scope, has no result, and is not the receipt's own to settle. */
  predicate IsAsked(vault: Vault, execution: nat, handled: seq<Effect>, only: Option<Effect>, receipt: seq<Response>, e: Effect) {
    e in handled && InScope(handled, only, e) && ResultOf(vault, Tuple(execution, e)).Pending? && !(e == PURE_ACK && receipt != [])
  }

  /**
   * One turn under the lock. A recorded result is returned as it stands and
   * asks the handler nothing. An operation with none is settled by the first
   * response to it, as that response says, or by none; a handler that throws
   * is refused what it was asked for.
   */
  method Settle(vault: Vault, execution: nat, handled: seq<Effect>, only: Option<Effect>, receipt: seq<Response>, answer: Answer,
                receiptMakings: nat -> Making, makings: nat -> Making)
      returns (drafted: map<Effect, Draft>, commits: seq<Commit>, asked: set<Effect>)
    requires forall i :: 0 <= i < |receipt| ==> receipt[i].effect == PURE_ACK
    ensures IsTurn(vault, execution, drafted, commits)
    ensures forall e :: e in drafted ==> InScope(handled, only, e)
    ensures forall e :: InScope(handled, only, e) && !ResultOf(vault, Tuple(execution, e)).Pending? ==> e in drafted
    ensures forall e :: e in asked <==> IsAsked(vault, execution, handled, only, receipt, e)
    ensures forall e :: InScope(handled, only, e) && ResultOf(vault, Tuple(execution, e)).Pending? ==>
      if e == PURE_ACK && receipt != [] then Decided(Tuple(execution, e), receipt[0], receiptMakings(0), drafted, commits)
      else Handled(Tuple(execution, e), answer, makings, asked, drafted, commits)
  {
    hide IsTurn, ResultOf, Decided, Handled;
    var settlement := new Settlement(vault, execution);
    var operations := OperationsOf(handled, only);
    settlement.LookUpAll(operations);
    if PURE_ACK in settlement.open {
      settlement.DecideReceipt(receipt, receiptMakings);
    }
    ghost var were, before := settlement.drafted, settlement.commits;
    asked := settlement.Ask(handled, answer, makings);
    drafted, commits := settlement.drafted, settlement.commits;
    if PURE_ACK in were && receipt != [] && ResultOf(vault, Tuple(execution, PURE_ACK)).Pending? {
      DecidedStays(Tuple(execution, PURE_ACK), receipt[0], receiptMakings(0), were, before, drafted, commits);
    }
  }

  // ---- every sequence of turns ----

  /** What happens to the vault: a turn of this runtime's, live or manual, under the lock; or others' events arriving. */
  datatype Event = Turn(execution: nat, drafted: map<Effect, Draft>, commits: seq<Commit>, asked: set<Effect>) | Arrives(vault: Vault)

  /** A turn is one of Settle's over the vault it read. */
  ghost predicate May(vault: Vault, event: Event) {
    match event
    case Turn(execution, drafted, commits, asked) => IsTurn(vault, execution, drafted, commits) && forall e :: e in asked ==> ResultOf(vault, Tuple(execution, e)).Pending?
    case Arrives(more) => vault.outputs <= more.outputs && vault.skips.Keys <= more.skips.Keys
  }

  function After(vault: Vault, event: Event): (r: Vault) {
    match event
    case Turn(_, _, commits, _) => CommittedAll(vault, commits)
    case Arrives(more) => more
  }

  /** Everything this runtime committed over the first n events. */
  function Mine(events: seq<Event>, n: nat): (r: seq<Commit>)
    requires n <= |events|
  {
    if n == 0 then [] else Mine(events, n - 1) + if events[n - 1].Turn? then events[n - 1].commits else []
  }

  ghost predicate IsHistory(vaults: seq<Vault>, events: seq<Event>) {
    && |vaults| == |events| + 1
    && forall i :: 0 <= i < |events| ==> May(vaults[i], events[i]) && vaults[i + 1] == After(vaults[i], events[i])
  }

  /** Whatever is committed is in the vault. */
  ghost predicate Recorded(vault: Vault, commits: seq<Commit>) {
    forall i :: 0 <= i < |commits| ==> if commits[i].Output? then commits[i].tuple in vault.outputs else commits[i].tuple in vault.skips
  }

  /** What is committed joins what was there, and nothing else does. */
  lemma {:induction false} CommittedAllExactly(vault: Vault, commits: seq<Commit>)
    ensures var r := CommittedAll(vault, commits);
      && (forall t :: t in r.outputs <==> t in vault.outputs || Output(t) in commits)
      && (forall t :: t in r.skips <==> t in vault.skips || exists i :: 0 <= i < |commits| && commits[i].SkipRecord? && commits[i].tuple == t)
      && (OnePerTuple(commits) ==> forall t :: t in r.skips ==>
            if t in vault.skips && (forall i :: 0 <= i < |commits| ==> commits[i].tuple != t) then r.skips[t] == vault.skips[t]
            else t in vault.skips || SkipRecord(t, r.skips[t]) in commits)
    decreases |commits|
  {
    if commits != [] {
      var n := |commits| - 1;
      var less, last := commits[..n], commits[n];
      CommittedAllExactly(vault, less);
      assert commits == less + [last];
      assert forall c :: c in commits <==> c in less || c == last;
      var r := CommittedAll(vault, commits);
      forall t ensures t in r.skips <==> t in vault.skips || exists i :: 0 <= i < |commits| && commits[i].SkipRecord? && commits[i].tuple == t {
        if i :| 0 <= i < |less| && less[i].SkipRecord? && less[i].tuple == t {
          assert commits[i] == less[i];
        }
        if last.SkipRecord? && last.tuple == t {
          assert commits[n].tuple == t;
        }
      }
    }
  }

  lemma RecordedAfterTurn(vault: Vault, commits: seq<Commit>)
    ensures var r := CommittedAll(vault, commits); vault.outputs <= r.outputs && vault.skips.Keys <= r.skips.Keys && Recorded(r, commits)
  {
    CommittedAllExactly(vault, commits);
  }

  lemma RecordedStays(vault: Vault, event: Event, commits: seq<Commit>)
    requires May(vault, event) && Recorded(vault, commits)
    ensures Recorded(After(vault, event), commits)
  {
    if event.Turn? {
      RecordedAfterTurn(vault, event.commits);
    }
  }

  /** After a turn, what it answered as created has an output for its result, and what it answered as skipped that skip. */
  lemma AnsweredIsRecorded(vault: Vault, execution: nat, drafted: map<Effect, Draft>, commits: seq<Commit>, e: Effect)
    requires IsTurn(vault, execution, drafted, commits) && e in drafted
    ensures var result := ResultOf(CommittedAll(vault, commits), Tuple(execution, e));
      && (drafted[e].Created? ==> ResultOf(vault, Tuple(execution, e)).Pending? && result == Produced)
      && (drafted[e].Skipped? ==> result == SkippedAs(drafted[e].code))
      && (drafted[e].Existing? ==> result == Produced)
  {
    var t := Tuple(execution, e);
    CommittedAllExactly(vault, commits);
    if drafted[e].Created? {
      var i :| 0 <= i < |commits| && commits[i] == Output(t);
      assert forall j :: 0 <= j < |commits| && commits[j].tuple == t ==> j == i;
    } else if ResultOf(vault, t).Pending? && drafted[e].Skipped? {
      var i :| 0 <= i < |commits| && commits[i] == SkipRecord(t, drafted[e].code);
      assert forall j :: 0 <= j < |commits| && commits[j].tuple == t ==> j == i;
    } else if !ResultOf(vault, t).Pending? {
      assert forall j :: 0 <= j < |commits| ==> commits[j].tuple != t;
    }
  }

  /** Over any sequence of turns, whatever arrives between them: this runtime commits one output or one skip for an operation, and never both. */
  lemma {:induction false} OneResultPerOperation(vaults: seq<Vault>, events: seq<Event>, n: nat)
    requires IsHistory(vaults, events) && n <= |events|
    ensures OnePerTuple(Mine(events, n)) && Recorded(vaults[n], Mine(events, n))
  {
    if n > 0 {
      hide IsTurn;
      OneResultPerOperation(vaults, events, n - 1);
      var event, vault, mine := events[n - 1], vaults[n - 1], Mine(events, n - 1);
      assert May(vault, event) && vaults[n] == After(vault, event);
      RecordedStays(vault, event, mine);
      if event.Turn? {
        RecordedAfterTurn(vault, event.commits);
        TurnsJoin(vault, event.execution, event.drafted, mine, event.commits);
      }
    }
  }

  lemma TurnsJoin(vault: Vault, execution: nat, drafted: map<Effect, Draft>, mine: seq<Commit>, commits: seq<Commit>)
    requires OnePerTuple(mine) && Recorded(vault, mine) && IsTurn(vault, execution, drafted, commits)
    ensures OnePerTuple(mine + commits)
  {
    var all := mine + commits;
    forall i, j | 0 <= i < j < |all| ensures all[i].tuple != all[j].tuple {
      if i < |mine| <= j {
        assert all[i] == mine[i];
        assert all[j] == commits[j - |mine|];
      }
    }
  }

  lemma {:induction false} OutputStays(vaults: seq<Vault>, events: seq<Event>, i: nat, n: nat, tuple: Tuple)
    requires IsHistory(vaults, events) && i <= n < |vaults|
    ensures tuple in vaults[i].outputs ==> tuple in vaults[n].outputs
    ensures tuple in vaults[i].skips ==> tuple in vaults[n].skips
    decreases n
  {
    if i < n {
      hide IsTurn, ResultOf;
      OutputStays(vaults, events, i, n - 1, tuple);
      assert May(vaults[n - 1], events[n - 1]) && vaults[n] == After(vaults[n - 1], events[n - 1]);
      if events[n - 1].Turn? {
        RecordedAfterTurn(vaults[n - 1], events[n - 1].commits);
      }
    }
  }

  /**
   * So an operation a turn answered as created or skipped is asked of the
   * handler in no later one, created in none, and committed for in none.
   */
  lemma AnsweredOnce(vaults: seq<Vault>, events: seq<Event>, i: nat, j: nat, e: Effect)
    requires IsHistory(vaults, events) && i < j < |events| && events[i].Turn? && events[j].Turn? && events[i].execution == events[j].execution
    requires e in events[i].drafted && (events[i].drafted[e].Created? || events[i].drafted[e].Skipped?)
    ensures e !in events[j].asked && (e in events[j].drafted ==> !events[j].drafted[e].Created?) && Uncommitted(Tuple(events[j].execution, e), events[j].commits)
  {
    hide IsTurn;
    var tuple := Tuple(events[i].execution, e);
    assert May(vaults[i], events[i]) && vaults[i + 1] == After(vaults[i], events[i]);
    AnsweredIsRecorded(vaults[i], events[i].execution, events[i].drafted, events[i].commits, e);
    OutputStays(vaults, events, i + 1, j, tuple);
    assert May(vaults[j], events[j]);
    CommitsAreDrafted(vaults[j], events[j].execution, events[j].drafted, events[j].commits);
    if e in events[j].drafted {
      AnsweredIsRecorded(vaults[j], events[j].execution, events[j].drafted, events[j].commits, e);
    }
  }
}
