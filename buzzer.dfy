// Buzzer: a timed on/off pulse on one output pin, with a double beep (on,
// off, on) driven by a single flag that `handle()` consults once the first
// beep has ended. The library copy and the firmware's own copy of this class
// have identical methods; they differ only in their constructors.

module Buzzer {
  import opened Common

  /** SHORT_BEEP_TIME: the gap of a double beep, in ms. */
  const ShortBeepTime: nat := 100

  /** The length of `beep_short()`, written as a literal in the source. */
  const ShortBeepLength: nat := 100

  /** Enable flag, pin level, beep in progress, its stop time, second beep pending. */
  datatype BuzzerState = BuzzerState(on: bool, pinHigh: bool, active: bool, timeStop: int, double: bool)

  /** `beep(time)`: the length is a uint16_t, so a longer one is reduced modulo 2^16. */
  function AfterBeep(s: BuzzerState, time: nat, now: nat): BuzzerState {
    if s.on then s.(pinHigh := true, timeStop := now + Trunc16(time), active := true) else s
  }

  function AfterBeepDouble(s: BuzzerState, now: nat): BuzzerState {
    AfterBeep(s, ShortBeepLength, now).(double := true)
  }

  function AfterHandle(s: BuzzerState, now: nat): BuzzerState {
    if s.active && now >= s.timeStop then
      s.(pinHigh := false, active := false,
         timeStop := if s.double then now + ShortBeepTime else s.timeStop)
    else if s.double && now >= s.timeStop then
      AfterBeep(s, ShortBeepLength, now).(double := false)
    else s
  }

  /** The number of polls, in a series, on which `handle()` raises the pin. */
  function Restarts(s: BuzzerState, times: seq<nat>): nat
    decreases |times|
  {
    if times == [] then 0
    else
      var s' := AfterHandle(s, times[0]);
      (if !s.pinHigh && s'.pinHigh then 1 else 0) + Restarts(s', times[1..])
  }

  /**
   * Polling alone raises the pin at most once, and only when a double beep
   * is pending: a double beep never becomes a triple one.
   */
  lemma {:induction false} AtMostOneRestart(s: BuzzerState, times: seq<nat>)
    ensures Restarts(s, times) <= if s.double then 1 else 0
    decreases |times|
  {
    if times != [] {
      AtMostOneRestart(AfterHandle(s, times[0]), times[1..]);
    }
  }

  /**
   * With the buzzer enabled, a double beep is on for 100 ms, off for
   * SHORT_BEEP_TIME and on for 100 ms again, measured from the polls that
   * notice each stop time; after that the buzzer is silent and idle.
   */
  lemma DoubleBeepPattern(s: BuzzerState, t0: nat, t1: nat, t2: nat, t3: nat)
    requires s.on
    requires t0 + ShortBeepLength <= t1 && t1 + ShortBeepTime <= t2 && t2 + ShortBeepLength <= t3
    ensures var s1 := AfterBeepDouble(s, t0);
      var s2 := AfterHandle(s1, t1);
      var s3 := AfterHandle(s2, t2);
      var s4 := AfterHandle(s3, t3);
      && s1.pinHigh && s1.timeStop == t0 + ShortBeepLength && s1.double
      && !s2.pinHigh && s2.timeStop == t1 + ShortBeepTime && s2.double
      && (forall t: nat :: t1 <= t < t1 + ShortBeepTime ==> AfterHandle(s2, t) == s2)
      && s3.pinHigh && s3.timeStop == t2 + ShortBeepLength && !s3.double
      && !s4.pinHigh && !s4.active && !s4.double
      && (forall t: nat :: AfterHandle(s4, t) == s4)
  {
  }

  class Buzzer {
    const pin: nat
    var buzzerOn: bool
    var pinHigh: bool
    var active: bool
    var timeStop: int
    var double: bool

    function Model(): BuzzerState
      reads this
    {
      BuzzerState(buzzerOn, pinHigh, active, timeStop, double)
    }

    /**
     * The library copy: drives the pin LOW; no beep, no second beep pending.
     * The stop time is not written; it is 0 because the firmware's buzzer
     * is a global, and static storage starts zeroed.
     */
    constructor (pinIn: nat, on: bool)
      ensures pin == pinIn && buzzerOn == on
      ensures !pinHigh && !active && !double && timeStop == 0
    {
      pin := pinIn;
      buzzerOn := on;
      timeStop := 0;
      pinHigh := false;
      double := false;
      active := false;
    }

    /** The firmware's copy: as the library's, except that the pin is not written. */
    constructor WithoutPinWrite(pinIn: nat, on: bool)
      ensures pin == pinIn && buzzerOn == on
      ensures !active && !double && timeStop == 0
    {
      pin := pinIn;
      buzzerOn := on;
      timeStop := 0;
      double := false;
      active := false;
    }

    /** Polled every loop: ends a beep that is due, then runs the second half of a double beep. */
    method Handle(now: nat)
      modifies this`pinHigh, this`active, this`timeStop, this`double
      ensures Model() == AfterHandle(old(Model()), now)
      ensures old(active) && now >= old(timeStop) ==>
        !pinHigh && !active && double == old(double)
        && timeStop == if old(double) then now + ShortBeepTime else old(timeStop)
      ensures !(old(active) && now >= old(timeStop)) && old(double) && now >= old(timeStop) ==>
        !double && pinHigh == (buzzerOn || old(pinHigh))
    {
      if active && now >= timeStop {
        pinHigh := false;
        active := false;
        if double {
          timeStop := now + ShortBeepTime;
        }
      } else if double && now >= timeStop {
        BeepShort(now);
        double := false;
      }
    }

    /** Gates future beeps only: a beep in flight still ends at its stop time. */
    method SetBuzzerOn(on: bool)
      modifies this`buzzerOn
      ensures buzzerOn == on
      ensures Model() == old(Model()).(on := on)
    {
      buzzerOn := on;
    }

    method Beep(time: nat, now: nat)
      modifies this`pinHigh, this`active, this`timeStop
      ensures Model() == AfterBeep(old(Model()), time, now)
      ensures buzzerOn ==> pinHigh && active && timeStop == now + Trunc16(time)
      ensures !buzzerOn ==> Model() == old(Model())
    {
      if buzzerOn {
        pinHigh := true;
        timeStop := now + Trunc16(time);
        active := true;
      }
    }

    method BeepShort(now: nat)
      modifies this`pinHigh, this`active, this`timeStop
      ensures Model() == AfterBeep(old(Model()), ShortBeepLength, now)
    {
      Beep(ShortBeepLength, now);
    }

    /** A short beep, and the flag for the second one, set even when the buzzer is off. */
    method BeepDouble(now: nat)
      modifies this`pinHigh, this`active, this`timeStop, this`double
      ensures Model() == AfterBeepDouble(old(Model()), now)
      ensures double
    {
      BeepShort(now);
      double := true;
    }
  }
}
