// Soft_ISR: a one-slot, one-shot deferred callback, armed either as a timer
// (run by `handle()` once the clock reaches the due time) or as a trigger (run
// only by an explicit `trigger()`). Arming again replaces whatever is pending.
//
// The callback is a value of the owner's handler type `H`. The methods that
// "call" it return it instead, after clearing `enabled`; the owner dispatches
// it. So a callback always runs with the slot already disabled, exactly as in
// the source, and may arm the same instance again.

module SoftIsr {
  import opened Common

  /** ISR_TIMER = 0, ISR_TRIGGER = 1 */
  datatype IsrType = IsrTimer | IsrTrigger

  /** The four fields of one instance, as a value. */
  datatype Slot<H> = Slot(kind: IsrType, enabled: bool, doAt: nat, callback: Option<H>)

  /** A new instance: disabled; the other fields hold the zeros of static storage. */
  function Fresh<H>(): Slot<H> {
    Slot(IsrTimer, false, 0, None)
  }

  function ArmTrigger<H>(s: Slot<H>, cb: H): Slot<H> {
    Slot(IsrTrigger, true, s.doAt, Some(cb))
  }

  function ArmTimer<H>(s: Slot<H>, cb: H, time: nat, now: nat): Slot<H> {
    Slot(IsrTimer, true, now + time, Some(cb))
  }

  /** Whether `handle()` at time `now` runs the callback. */
  predicate Due<H>(s: Slot<H>, now: nat) {
    s.enabled && s.kind == IsrTimer && now >= s.doAt
  }

  /** A call on an instance: `handle()` at some time, or `trigger()`. */
  datatype Op = Poll(now: nat) | Fire

  predicate FiresOn<H>(s: Slot<H>, op: Op) {
    match op
    case Poll(now) => Due(s, now)
    case Fire => s.enabled
  }

  /** One call: the new state of the slot and the callback it runs, if any. */
  function Step<H>(s: Slot<H>, op: Op): (Slot<H>, Option<H>) {
    if FiresOn(s, op) then (s.(enabled := false), s.callback) else (s, None)
  }

  /** The callbacks run by a series of calls during which nobody arms the slot. */
  function Run<H>(s: Slot<H>, ops: seq<Op>): seq<Option<H>>
    decreases |ops|
  {
    if ops == [] then [] else [Step(s, ops[0]).1] + Run(Step(s, ops[0]).0, ops[1..])
  }

  /** The index of the first call on which `s` fires, or |ops| when none does. */
  function FirstFiring<H>(s: Slot<H>, ops: seq<Op>): nat
    decreases |ops|
  {
    if ops == [] then 0
    else if FiresOn(s, ops[0]) then 0
    else 1 + FirstFiring(s, ops[1..])
  }

  /** A disabled slot runs nothing, whatever the calls: this is `remove()`'s effect. */
  lemma {:induction false} DisabledRunsNothing<H>(s: Slot<H>, ops: seq<Op>)
    requires !s.enabled
    ensures |Run(s, ops)| == |ops|
    ensures forall i :: 0 <= i < |ops| ==> Run(s, ops)[i] == None
    decreases |ops|
  {
    if ops != [] {
      DisabledRunsNothing(s, ops[1..]);
    }
  }

  /**
   * An armed slot runs its callback exactly once, on the first call that finds
   * it due (a trigger, or a poll at or after the due time of a timer), and
   * nothing on any other call.
   */
  lemma {:induction false} ArmedFiresExactlyOnce<H>(s: Slot<H>, ops: seq<Op>)
    requires s.enabled
    ensures |Run(s, ops)| == |ops|
    ensures forall i :: 0 <= i < |ops| ==>
      Run(s, ops)[i] == if i == FirstFiring(s, ops) then s.callback else None
    decreases |ops|
  {
    if ops != [] {
      if FiresOn(s, ops[0]) {
        DisabledRunsNothing(s.(enabled := false), ops[1..]);
      } else {
        ArmedFiresExactlyOnce(s, ops[1..]);
      }
    }
  }

  /** `handle()` never runs a trigger-mode arming, whatever the time. */
  lemma {:induction false} PollsNeverFireTrigger<H>(s: Slot<H>, ops: seq<Op>)
    requires s.kind == IsrTrigger
    requires forall i :: 0 <= i < |ops| ==> ops[i].Poll?
    ensures FirstFiring(s, ops) == |ops|
    decreases |ops|
  {
    if ops != [] {
      PollsNeverFireTrigger(s, ops[1..]);
    }
  }

  /** A timer armed at `now` for `time` fires on the first poll at or after `now + time`. */
  lemma {:induction false} TimerFiresAtFirstDuePoll<H>(s: Slot<H>, cb: H, time: nat, now: nat, ops: seq<Op>)
    requires forall i :: 0 <= i < |ops| ==> ops[i].Poll?
    ensures var k := FirstFiring(ArmTimer(s, cb, time, now), ops);
      k <= |ops|
      && (forall i :: 0 <= i < k ==> ops[i].now < now + time)
      && (k < |ops| ==> ops[k].now >= now + time)
    decreases |ops|
  {
    if ops != [] {
      TimerFiresAtFirstDuePoll(s, cb, time, now, ops[1..]);
    }
  }

  /** A trigger-mode slot never looks at its due time, so two that differ only there behave alike. */
  lemma {:induction false} TriggerIgnoresDueTime<H>(s: Slot<H>, t: Slot<H>, ops: seq<Op>)
    requires s.kind == IsrTrigger && s.(doAt := t.doAt) == t
    ensures Run(s, ops) == Run(t, ops)
    decreases |ops|
  {
    if ops != [] {
      TriggerIgnoresDueTime(Step(s, ops[0]).0, Step(t, ops[0]).0, ops[1..]);
    }
  }

  /**
   * Re-arming discards the pending callback: after arming `cb`, what the slot
   * runs does not depend on what it held before, and nothing but `cb` runs.
   */
  lemma RearmDiscardsPending<H>(s: Slot<H>, s': Slot<H>, cb: H, time: nat, now: nat, ops: seq<Op>)
    ensures Run(ArmTimer(s, cb, time, now), ops) == Run(ArmTimer(s', cb, time, now), ops)
    ensures Run(ArmTrigger(s, cb), ops) == Run(ArmTrigger(s', cb), ops)
    ensures var r := Run(ArmTimer(s, cb, time, now), ops);
      |r| == |ops| && forall i :: 0 <= i < |r| ==> r[i] == None || r[i] == Some(cb)
    ensures var r := Run(ArmTrigger(s, cb), ops);
      |r| == |ops| && forall i :: 0 <= i < |r| ==> r[i] == None || r[i] == Some(cb)
  {
    TriggerIgnoresDueTime(ArmTrigger(s, cb), ArmTrigger(s', cb), ops);
    ArmedFiresExactlyOnce(ArmTimer(s, cb, time, now), ops);
    ArmedFiresExactlyOnce(ArmTrigger(s, cb), ops);
  }

  class SoftIsr<H> {
    var kind: IsrType
    var enabled: bool
    var doAt: nat
    var callback: Option<H>

    /** An enabled instance always has a callback to run. */
    ghost predicate Valid()
      reads this
    {
      enabled ==> callback.Some?
    }

    function Model(): Slot<H>
      reads this
    {
      Slot(kind, enabled, doAt, callback)
    }

    constructor ()
      ensures Valid() && Model() == Fresh()
    {
      kind := IsrTimer;
      enabled := false;
      doAt := 0;
      callback := None;
    }

    method SetTrigger(cb: H)
      modifies this
      ensures Valid()
      ensures kind == IsrTrigger && enabled && callback == Some(cb) && doAt == old(doAt)
      ensures Model() == ArmTrigger(old(Model()), cb)
    {
      kind := IsrTrigger;
      enabled := true;
      callback := Some(cb);
    }

    method SetTimer(cb: H, time: nat, now: nat)
      modifies this
      ensures Valid()
      ensures kind == IsrTimer && enabled && doAt == now + time && callback == Some(cb)
      ensures Model() == ArmTimer(old(Model()), cb, time, now)
    {
      kind := IsrTimer;
      enabled := true;
      doAt := now + time;
      callback := Some(cb);
    }

    /** Runs the pending callback now if enabled, whatever the type; returns it. */
    method Trigger() returns (fired: Option<H>)
      requires Valid()
      modifies this`enabled
      ensures Valid() && !enabled
      ensures fired == if old(enabled) then callback else None
      ensures old(enabled) ==> fired.Some?
      ensures (Model(), fired) == Step(old(Model()), Fire)
    {
      fired := None;
      if enabled {
        enabled := false;
        fired := callback;
      }
    }

    method Remove()
      modifies this`enabled
      ensures !enabled
      ensures Model() == old(Model()).(enabled := false)
    {
      enabled := false;
    }

    /** Polled every loop: runs a timer-mode callback once its time has come. */
    method Handle(now: nat) returns (fired: Option<H>)
      requires Valid()
      modifies this`enabled
      ensures Valid()
      ensures fired.Some? <==> old(Due(Model(), now))
      ensures fired.Some? ==> fired == callback && !enabled
      ensures fired.None? ==> enabled == old(enabled)
      ensures (Model(), fired) == Step(old(Model()), Poll(now))
    {
      fired := None;
      if enabled {
        if kind == IsrTimer {
          if now >= doAt {
            enabled := false;
            fired := callback;
          }
        }
      }
    }
  }
}
