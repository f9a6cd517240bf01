// Button: a debounced edge detector over an active-low input. Each poll
// reads the pin level and a timestamp; a change of the pressed level is
// accepted only when it differs from the stored level and more than
// DEBOUNCE_TIME has passed since the last accepted change. An accepted change
// to pressed runs the posedge callback, to released the negedge callback,
// BEFORE the stored level is updated.

module Button {
  import opened Common

  /** DEBOUNCE_TIME: milliseconds to wait for the input to settle. */
  const DebounceTime: nat := 50

  /** The stored debounced level and the time of the last accepted change. */
  datatype Debounce = Debounce(pressed: bool, lastChange: nat)

  /** The input is active low: a LOW pin (false) means pressed, whatever the pull-up mode. */
  function Pressed(level: bool): bool {
    !level
  }

  predicate Accepts(d: Debounce, level: bool, now: nat) {
    Pressed(level) != d.pressed && now > d.lastChange + DebounceTime
  }

  /** The stored state after one poll. */
  function Poll(d: Debounce, level: bool, now: nat): Debounce {
    if Accepts(d, level, now) then Debounce(Pressed(level), now) else d
  }

  /** One reading of the pin: its level and the clock at the time. */
  datatype Sample = Sample(level: bool, at: nat)

  /** An accepted change: the new pressed level and when it was accepted. */
  datatype Change = Change(pressed: bool, at: nat)

  function PollAll(d: Debounce, samples: seq<Sample>): Debounce
    decreases |samples|
  {
    if samples == [] then d else PollAll(Poll(d, samples[0].level, samples[0].at), samples[1..])
  }

  /** The changes accepted, in order, over a series of polls. */
  function Changes(d: Debounce, samples: seq<Sample>): seq<Change>
    decreases |samples|
  {
    if samples == [] then []
    else
      var s := samples[0];
      (if Accepts(d, s.level, s.at) then [Change(Pressed(s.level), s.at)] else [])
      + Changes(Poll(d, s.level, s.at), samples[1..])
  }

  /**
   * Accepted changes alternate in direction, starting from the opposite of
   * the stored level, and each comes more than DEBOUNCE_TIME after the
   * previous one; the stored level after the polls is that of the last change.
   */
  lemma {:induction false} ChangesAlternate(d: Debounce, samples: seq<Sample>)
    ensures var c := Changes(d, samples);
      && (|c| > 0 ==> c[0].pressed != d.pressed && c[0].at > d.lastChange + DebounceTime)
      && (forall i :: 0 <= i < |c| - 1 ==>
            c[i + 1].pressed != c[i].pressed && c[i + 1].at > c[i].at + DebounceTime)
      && PollAll(d, samples) == if c == [] then d else Debounce(c[|c| - 1].pressed, c[|c| - 1].at)
    decreases |samples|
  {
    if samples != [] {
      var s := samples[0];
      ChangesAlternate(Poll(d, s.level, s.at), samples[1..]);
    }
  }

  /** No reading taken within DEBOUNCE_TIME of the last accepted change changes anything. */
  lemma {:induction false} QuietWithinDebounce(d: Debounce, samples: seq<Sample>)
    requires forall i :: 0 <= i < |samples| ==> samples[i].at <= d.lastChange + DebounceTime
    ensures Changes(d, samples) == [] && PollAll(d, samples) == d
    decreases |samples|
  {
    if samples != [] {
      QuietWithinDebounce(d, samples[1..]);
    }
  }

  class Button<H> {
    const pin: nat
    const internalPullup: bool
    var currentState: bool
    var lastChange: nat
    var posedgeCb: Option<H>
    var negedgeCb: Option<H>

    function State(): Debounce
      reads this
    {
      Debounce(currentState, lastChange)
    }

    /** Not pressed, no change yet, no callbacks; the pull-up flag only selects the pin mode. */
    constructor (pinIn: nat, internalPullupIn: bool)
      ensures pin == pinIn && internalPullup == internalPullupIn
      ensures State() == Debounce(false, 0) && posedgeCb == None && negedgeCb == None
    {
      pin := pinIn;
      internalPullup := internalPullupIn;
      currentState := false;
      lastChange := 0;
      posedgeCb := None;
      negedgeCb := None;
    }

    method SetPosedgeCb(cb: H)
      modifies this`posedgeCb
      ensures posedgeCb == Some(cb)
    {
      posedgeCb := Some(cb);
    }

    method SetNegedgeCb(cb: H)
      modifies this`negedgeCb
      ensures negedgeCb == Some(cb)
    {
      negedgeCb := Some(cb);
    }

    /** The last accepted level (true = pressed); reading it changes nothing. */
    function Get(): (pressed: bool)
      reads this
      ensures pressed == State().pressed
    {
      currentState
    }

    /**
     * The callback that `handle()` runs for this reading: the posedge callback
     * for an accepted press, the negedge callback for an accepted release, and
     * none when the reading is not accepted or no callback is registered.
     */
    function Callback(level: bool, now: nat): (cb: Option<H>)
      reads this
      ensures cb.Some? ==> Accepts(State(), level, now)
      ensures Accepts(State(), level, now) && Pressed(level) ==> cb == posedgeCb
      ensures Accepts(State(), level, now) && !Pressed(level) ==> cb == negedgeCb
    {
      if !Accepts(State(), level, now) then None
      else if Pressed(level) then posedgeCb
      else negedgeCb
    }

    /** The state update that ends `handle()`, after the callback has run. */
    method Settle(level: bool, now: nat)
      modifies this`currentState, this`lastChange
      ensures State() == Poll(old(State()), level, now)
      ensures Accepts(old(State()), level, now) ==> currentState == Pressed(level) && lastChange == now
    {
      var newState := Pressed(level);
      if newState != currentState && now > lastChange + DebounceTime {
        currentState := newState;
        lastChange := now;
      }
    }
  }
}
