/**
 * The dispatcher: a wait for every message held up, tried again after delays
 * that double. An attempt runs across other calls, so its beginning and its
 * end are steps of their own.
 */
module Dispatcher {
  import opened Dids
  import opened Sums

  type MessageId = nat
  type Timer = nat

  datatype Policy = Policy(firstWaitMs: nat, longestWaitMs: nat, attempts: nat)

  const RETRY_POLICY := Policy(30_000, 21_600_000, 32)

  /** Timers take no longer delay. */
  const LONGEST_TIMER_MS: nat := 0x7fff_ffff

  function Power(k: nat): (n: nat) {
    if k == 0 then 1 else 2 * Power(k - 1)
  }

  /** The wait after the k-th attempt held up in a row. */
  function Delay(policy: Policy, k: nat): (ms: nat)
    requires k >= 1
  {
    Least(policy.longestWaitMs, policy.firstWaitMs * Power(k - 1))
  }

  /** The first wait, and each after it twice the one before, up to the longest. */
  lemma DelayDoubles(policy: Policy, k: nat)
    requires k >= 1
    ensures Delay(policy, 1) == Least(policy.longestWaitMs, policy.firstWaitMs)
    ensures Delay(policy, k + 1) == Least(policy.longestWaitMs, 2 * Delay(policy, k))
  {
    assert policy.firstWaitMs * Power(k) == 2 * (policy.firstWaitMs * Power(k - 1));
  }

  /** No wait is shorter than one before it. */
  lemma {:induction false} DelayGrows(policy: Policy, j: nat, k: nat)
    requires 1 <= j <= k
    ensures Delay(policy, j) <= Delay(policy, k)
    decreases k
  {
    if j < k {
      DelayGrows(policy, j, k - 1);
      DelayDoubles(policy, k - 1);
    }
  }

  /** What a timer is set to for a wait: no more than a timer takes. */
  function TimerMs(policy: Policy, k: nat): (ms: nat)
    requires k >= 1
  {
    Least(LONGEST_TIMER_MS, Delay(policy, k))
  }

  /**
   * Every timer the policy lets be armed fires when its wait is due iff the
   * last of those waits is one a timer takes: a longer one is cut short, no
   * second timer making up the rest.
   */
  lemma FiresWhenDue(policy: Policy)
    ensures (forall k: nat :: 1 <= k < policy.attempts ==> TimerMs(policy, k) == Delay(policy, k))
      <==> policy.attempts <= 1 || Delay(policy, policy.attempts - 1) <= LONGEST_TIMER_MS
  {
    if policy.attempts > 1 {
      var last := policy.attempts - 1;
      forall k: nat | 1 <= k < policy.attempts ensures Delay(policy, k) <= Delay(policy, last) {
        DelayGrows(policy, k, last);
      }
      assert Delay(policy, last) > LONGEST_TIMER_MS ==> TimerMs(policy, last) != Delay(policy, last);
    }
  }

  /** The default policy's do; one whose first wait is longer than a timer takes does not. */
  lemma WhichFireWhenDue()
    ensures forall k: nat :: 1 <= k < RETRY_POLICY.attempts ==> TimerMs(RETRY_POLICY, k) == Delay(RETRY_POLICY, k)
    ensures var late := Policy(LONGEST_TIMER_MS + 1, LONGEST_TIMER_MS + 1, 2); TimerMs(late, 1) == Delay(late, 1) - 1
  {
    assert Power(0) == 1;
  }

  class Wait {
    const messageId: MessageId
    var attempts: nat
    var running: bool
    /** the moment to try again; none during an attempt */
    var nextAt: Option<nat>
    var timer: Option<Timer>

    constructor (messageId: MessageId)
      ensures this.messageId == messageId && attempts == 0 && !running && nextAt == None && timer == None
    {
      this.messageId := messageId;
      attempts, running, nextAt, timer := 0, false, None, None;
    }
  }

  datatype Outcome = HeldUp | Settled | Threw

  /** A timer fires as long before the wait is due as the wait is longer than a timer takes. */
  ghost predicate Timed(policy: Policy, attempts: nat, firesAt: nat, nextAt: nat) {
    attempts >= 1 && firesAt + Delay(policy, attempts) == nextAt + TimerMs(policy, attempts)
  }

  /** A wait is its message's until it is retired. */
  ghost predicate Placed(waits: map<MessageId, Wait>, made: set<Wait>, retired: set<Wait>) {
    && retired <= made
    && (forall m :: m in waits ==> waits[m] in made - retired && waits[m].messageId == m)
    && (forall w :: w in made - retired ==> w.messageId in waits && waits[w.messageId] == w)
  }

  /** A timer set: what it fires for, and when. */
  datatype Alarm = Alarm(wait: Wait, firesAt: nat)

  class Dispatcher {
    const policy: Policy
    var waits: map<MessageId, Wait>
    var closed: bool
    /** the timers set and neither fired nor cleared */
    var armed: map<Timer, Alarm>
    var timers: nat
    /** every wait there ever was, and those of them replaced, cancelled, given up on or done */
    ghost var made: set<Wait>
    ghost var retired: set<Wait>

    constructor (policy: Policy)
      ensures Valid() && this.policy == policy && !closed && waits == map[] && armed == map[]
    {
      this.policy := policy;
      waits, closed, armed, timers, made, retired := map[], false, map[], 0, {}, {};
    }

    /** A wait never makes more attempts than the policy allows, or the one it is made for. */
    ghost predicate Counted(w: Wait)
      reads this, w
    {
      && (w.attempts <= 1 || w.attempts <= policy.attempts)
      && (w.running ==> w.attempts >= 1)
      && (w.timer.Some? ==> 1 <= w.attempts < policy.attempts && !w.running && w.nextAt.Some?)
    }

    /** Each armed timer is the one of the wait held for its message, as far off as a timer may be. */
    ghost predicate Held(t: Timer)
      reads this, made
      requires t in armed && armed[t].wait in made
    {
      var w := armed[t].wait;
      && w.timer == Some(t) && w.messageId in waits && waits[w.messageId] == w
      && w.nextAt.Some? && Timed(policy, w.attempts, armed[t].firesAt, w.nextAt.value)
    }

    ghost predicate Armed()
      reads this, made
    {
      && (forall t :: t in armed ==> t < timers && armed[t].wait in made && Held(t))
      && (forall w :: w in made && w.timer.Some? ==> w.timer.value in armed && armed[w.timer.value].wait == w)
    }

    ghost predicate Valid()
      reads this, made
    {
      && Placed(waits, made, retired)
      && Armed()
      && (forall w :: w in made ==> Counted(w))
      && (closed ==> waits == map[] && armed == map[])
    }

    /** Takes its timer back, if one is armed. */
    method Clear(wait: Wait)
      requires Valid() && wait in made
      modifies this`armed, wait`timer
      ensures Valid() && wait.timer == None
      ensures armed == if old(wait.timer).Some? then old(armed) - {old(wait.timer).value} else old(armed)
    {
      hide Placed, Delay, TimerMs;
      if wait.timer.None? {
        return;
      }
      armed := armed - {wait.timer.value};
      wait.timer := None;
    }

    /** The wait is over: no timer, and no longer its message's. */
    method Forget(wait: Wait)
      requires Valid() && wait in made
      modifies this`armed, this`waits, this`retired, wait`timer
      ensures Valid() && wait.timer == None && retired == old(retired) + {wait}
      ensures waits == if wait.messageId in old(waits) && old(waits)[wait.messageId] == wait then old(waits) - {wait.messageId} else old(waits)
    {
      hide Valid;
      Clear(wait);
      Retire(wait);
    }

    /** A wait with no timer is taken off its message. */
    method Retire(wait: Wait)
      requires Valid() && wait in made && wait.timer.None?
      modifies this`waits, this`retired
      ensures Valid() && retired == old(retired) + {wait}
      ensures waits == if wait.messageId in old(waits) && old(waits)[wait.messageId] == wait then old(waits) - {wait.messageId} else old(waits)
    {
      if wait.messageId in waits && waits[wait.messageId] == wait {
        waits := waits - {wait.messageId};
      }
      retired := retired + {wait};
      assert Placed(waits, made, retired);
    }

    method Drop(messageId: MessageId)
      requires Valid()
      modifies this`armed, this`waits, this`retired, (if messageId in waits then {waits[messageId]} else {})`timer
      ensures Valid() && waits == old(waits) - {messageId}
      ensures retired == old(retired) + if messageId in old(waits) then {old(waits)[messageId]} else {}
    {
      if messageId in waits {
        Forget(waits[messageId]);
      }
    }

    /** The user's cancellation drops the message's wait first. */
    method Cancel(messageId: MessageId)
      requires Valid()
      modifies this`armed, this`waits, this`retired, (if messageId in waits then {waits[messageId]} else {})`timer
      ensures Valid() && waits == old(waits) - {messageId}
      ensures retired == old(retired) + if messageId in old(waits) then {old(waits)[messageId]} else {}
    {
      Drop(messageId);
    }

    /** A wait of its own for a message that has none, its first attempt running. */
    method Hold(messageId: MessageId) returns (wait: Wait)
      requires Valid() && !closed && messageId !in waits
      modifies this`waits, this`made
      ensures Valid() && fresh(wait) && made == old(made) + {wait} && waits == old(waits)[messageId := wait]
      ensures wait.attempts == 1 && wait.running
    {
      wait := new Wait(messageId);
      wait.attempts, wait.running := 1, true;
      made := made + {wait};
      waits := waits[messageId := wait];
    }

    /** A call under a new action: any wait of the message goes for good, and a new one's first attempt runs. */
    method Run(messageId: MessageId) returns (wait: Option<Wait>)
      requires Valid()
      modifies this`armed, this`waits, this`retired, this`made, (if messageId in waits then {waits[messageId]} else {})`timer
      ensures Valid()
      ensures closed ==> wait == None && waits == old(waits) && made == old(made) && retired == old(retired)
      ensures !closed ==> wait.Some? && fresh(wait.value) && wait.value.attempts == 1 && wait.value.running
      ensures !closed ==> waits == old(waits)[messageId := wait.value] && made == old(made) + {wait.value}
      ensures !closed ==> retired == old(retired) + if messageId in old(waits) then {old(waits)[messageId]} else {}
    {
      if closed {
        return None;
      }
      hide Valid;
      Drop(messageId);
      var w := Hold(messageId);
      wait := Some(w);
    }

    /** An attempt's end: held up, its wait is kept only while it is still the one of its message and the dispatcher is open. */
    method Finish(wait: Wait, outcome: Outcome, now: nat)
      requires Valid() && wait in made && wait.running
      modifies this`armed, this`waits, this`timers, this`retired, wait`timer, wait`nextAt, wait`running
      ensures Valid() && !wait.running
      ensures var kept := outcome.HeldUp? && !closed && wait !in old(retired) && wait.attempts < policy.attempts;
        && wait.timer.Some? == kept
        && (kept ==> waits == old(waits) && retired == old(retired) && wait.timer.value !in old(armed)
                     && wait.nextAt == Some(now + Delay(policy, wait.attempts))
                     && armed == old(armed)[wait.timer.value := Alarm(wait, now + TimerMs(policy, wait.attempts))])
        && (!kept ==> retired == old(retired) + {wait}
                      && waits == if wait in old(retired) then old(waits) else old(waits) - {wait.messageId})
    {
      Stop(wait);
      if outcome.HeldUp? && wait.messageId in waits && waits[wait.messageId] == wait && !closed {
        Schedule(wait, now);
      } else {
        Forget(wait);
      }
    }

    /** The attempt is over. */
    method Stop(wait: Wait)
      requires Valid() && wait in made && wait.running
      modifies wait`running
      ensures Valid() && !wait.running && wait.attempts >= 1 && wait.timer.None?
    {
      wait.running := false;
    }

    method Schedule(wait: Wait, now: nat)
      requires Valid() && wait in made && !wait.running && !closed && wait.attempts >= 1
      requires wait.messageId in waits && waits[wait.messageId] == wait && wait.timer.None?
      modifies this`armed, this`waits, this`timers, this`retired, wait`timer, wait`nextAt
      ensures Valid()
      ensures wait.timer.Some? <==> wait.attempts < policy.attempts
      ensures wait.timer.Some? ==> waits == old(waits) && retired == old(retired) && wait.timer.value !in old(armed)
      ensures wait.timer.Some? ==> wait.nextAt == Some(now + Delay(policy, wait.attempts))
      ensures wait.timer.Some? ==> armed == old(armed)[wait.timer.value := Alarm(wait, now + TimerMs(policy, wait.attempts))]
      ensures wait.timer.None? ==> waits == old(waits) - {wait.messageId} && retired == old(retired) + {wait}
    {
      if wait.attempts >= policy.attempts {
        Forget(wait);
        return;
      }
      hide Delay, TimerMs;
      Arm(wait, now);
    }

    /** The next attempt is due after its delay, and a timer is set for as much of that as one takes. */
    method Arm(wait: Wait, now: nat)
      requires Valid() && wait in made && !wait.running && !closed && 1 <= wait.attempts < policy.attempts
      requires wait.messageId in waits && waits[wait.messageId] == wait && wait.timer.None?
      modifies this`armed, this`timers, wait`timer, wait`nextAt
      ensures Valid() && wait.timer == Some(old(timers)) && old(timers) !in old(armed)
      ensures wait.nextAt == Some(now + Delay(policy, wait.attempts))
      ensures armed == old(armed)[old(timers) := Alarm(wait, now + TimerMs(policy, wait.attempts))]
    {
      hide Valid, Delay, TimerMs;
      Await(wait, now + Delay(policy, wait.attempts));
      SetTimer(wait, now + TimerMs(policy, wait.attempts));
    }

    method Await(wait: Wait, due: nat)
      requires Valid() && wait in made && wait.timer.None?
      modifies wait`nextAt
      ensures Valid() && wait.nextAt == Some(due)
    {
      hide Placed, Timed;
      assert forall t :: t in armed ==> armed[t].wait != wait;
      wait.nextAt := Some(due);
    }

    method SetTimer(wait: Wait, firesAt: nat)
      requires Valid() && wait in made && !wait.running && !closed && 1 <= wait.attempts < policy.attempts
      requires wait.messageId in waits && waits[wait.messageId] == wait && wait.timer.None?
      requires wait.nextAt.Some? && Timed(policy, wait.attempts, firesAt, wait.nextAt.value)
      modifies this`armed, this`timers, wait`timer
      ensures Valid() && wait.timer == Some(old(timers)) && old(timers) !in old(armed)
      ensures armed == old(armed)[old(timers) := Alarm(wait, firesAt)]
    {
      hide Placed, Timed;
      assert forall t :: t in armed ==> armed[t].wait != wait;
      wait.timer := Some(timers);
      armed := armed[timers := Alarm(wait, firesAt)];
      timers := timers + 1;
    }

    /** A timer fires: the next attempt of its wait runs, before it is due iff the wait is longer than a timer takes. */
    method Fire(timer: Timer) returns (wait: Wait)
      requires Valid() && timer in armed
      modifies this`armed, armed[timer].wait
      ensures Valid() && wait == old(armed)[timer].wait && wait !in retired && wait.running
      ensures armed == old(armed) - {timer}
      ensures wait.attempts == old(wait.attempts) + 1 <= policy.attempts
      ensures old(wait.attempts) >= 1 && old(wait.nextAt).Some?
      ensures old(armed)[timer].firesAt < old(wait.nextAt).value <==> Delay(policy, old(wait.attempts)) > LONGEST_TIMER_MS
      ensures old(armed)[timer].firesAt <= old(wait.nextAt).value
    {
      wait := armed[timer].wait;
      assert Held(timer) && Counted(wait) && wait.timer == Some(timer);
      hide Valid;
      Clear(wait);
      Begin(wait);
    }

    /** The next attempt of a wait still its message's runs. */
    method Begin(wait: Wait)
      requires Valid() && wait in made && wait.timer.None? && 1 <= wait.attempts < policy.attempts
      modifies wait`attempts, wait`nextAt, wait`running
      ensures Valid() && wait.running && wait.nextAt == None && wait.attempts == old(wait.attempts) + 1
    {
      assert forall t :: t in armed ==> armed[t].wait != wait;
      wait.attempts := wait.attempts + 1;
      wait.nextAt := None;
      wait.running := true;
    }

    /** Every wait and timer is dropped; attempts under way end by themselves. */
    method Close()
      requires Valid()
      modifies this`armed, this`waits, this`retired, this`closed, made`timer
      ensures Valid() && closed && waits == map[] && armed == map[] && retired == made
    {
      while waits != map[]
        modifies this`armed, this`waits, this`retired, made`timer
        invariant Valid()
        decreases |waits|
      {
        var m :| m in waits;
        ghost var before := waits;
        Forget(waits[m]);
        assert waits.Keys == before.Keys - {m};
      }
      assert armed.Keys == {} && made - retired == {};
      closed := true;
    }
  }

  /**
   * A wait replaced, cancelled, given up on or done has no timer and is no
   * message's. No method takes one back out of the retired, so none ever has.
   */
  lemma RetiredStaysQuiet(d: Dispatcher, w: Wait)
    requires d.Valid() && w in d.retired
    ensures w.timer == None && (forall m :: m in d.waits ==> d.waits[m] != w) && (forall t :: t in d.armed ==> d.armed[t].wait != w)
  {
  }

  /** A wait a newer action replaced while its attempt ran: however that attempt ends, and whatever is called for after, it arms nothing. */
  method ReplacedNeverSchedules(d: Dispatcher, messageId: MessageId, outcome: Outcome, now: nat, later: MessageId) returns (replaced: Wait, current: Wait)
    requires d.Valid() && !d.closed
    modifies d, d.made
    ensures d.Valid() && replaced in d.retired && replaced.timer == None && (forall t :: t in d.armed ==> d.armed[t].wait != replaced)
    ensures later != messageId ==> messageId in d.waits && d.waits[messageId] == current
  {
    var first := d.Run(messageId);
    var second := d.Run(messageId);
    replaced, current := first.value, second.value;
    d.Finish(replaced, outcome, now);
    var _ := d.Run(later);
    RetiredStaysQuiet(d, replaced);
  }
}
