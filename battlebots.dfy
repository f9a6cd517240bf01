// The earlier prototype firmware (battlebots): one deferred callback, armed
// either as a timer (`do_time`) or to run once the scrolling text has left
// the screen (`do_scroll`), and the start-up messages built on it. The intro
// scrolls once; then "WIFI CONNECTING..." scrolls with a ten-second timeout
// that falls back to hotspot mode unless the network connects first.
//
// Pixels, WiFi, MDNS and the serial port are not modelled: the answer of
// `wifimulti.run()` and the network's SSID are inputs of each loop, and the
// clock is the parameter `now`. A callback that the source calls directly is
// returned instead and run by the caller, right where the source calls it.

module Battlebots {
  import opened Common
  import Gfx = Graphics

  /** The functions the prototype hands to `do_time` and `do_scroll`. */
  datatype Callback = Ready | MsgHotspot | MsgConnecting | MsgIntro

  /** The prototype's globals as a value: the deferred callback, the text on screen, the connecting flag. */
  datatype State = State(
    timeEn: bool, scrollEn: bool, atMillis: nat, handler: Option<Callback>,
    text: Gfx.TextState, connecting: bool)

  /** Globals in static storage start zeroed: nothing armed, no text, not connecting. */
  function Initial(): State {
    State(false, false, 0, None, Gfx.TextState(0, false, 0, ""), false)
  }

  /** At most one way of running the callback is armed, and an armed one has a callback. */
  predicate Valid(s: State) {
    && !(s.timeEn && s.scrollEn)
    && (s.timeEn || s.scrollEn ==> s.handler.Some?)
  }

  // ---------------------------------------------------------------------------
  // The deferred callback and the text, one call at a time

  /** `text(str, color, scroll)`: a scrolling text enters at column 32, a static one is centred. */
  function AfterText(s: State, str: string, color: nat, scroll: bool): State {
    s.(text := Gfx.TextState(if scroll then 32 else Gfx.StaticXpos(str), scroll, color, str))
  }

  /** `do_time(ms, cb)`: run `cb` once the clock reaches now + ms. */
  function AfterDoTime(s: State, ms: nat, cb: Callback, now: nat): State {
    s.(timeEn := true, scrollEn := false, atMillis := now + ms, handler := Some(cb))
  }

  /** `do_scroll(cb)`: run `cb` when the text next leaves the screen. */
  function AfterDoScroll(s: State, cb: Callback): State {
    s.(scrollEn := true, timeEn := false, handler := Some(cb))
  }

  /** `do_handle()`: the new state and the callback that runs, if any. */
  function HandleStep(s: State, now: nat): (State, Option<Callback>) {
    if s.timeEn && now >= s.atMillis then (s.(timeEn := false), s.handler) else (s, None)
  }

  /**
   * `text_handle()`: scrolling text moves one column left (an int16_t). The
   * test for having left the screen is made for static text as well; when it
   * holds, the text goes back to column 32 and a pending scroll callback runs.
   */
  function TextStep(s: State): (State, Option<Callback>) {
    var t := s.text;
    var x := if t.scroll then Int16(t.xpos - 1) else t.xpos;
    var textLength := Int16(|t.str| * 8);
    if x < -textLength then
      if s.scrollEn then (s.(text := t.(xpos := 32), scrollEn := false), s.handler)
      else (s.(text := t.(xpos := 32)), None)
    else (s.(text := t.(xpos := x)), None)
  }

  // ---------------------------------------------------------------------------
  // The callbacks

  /** `ready()`: the clock at 1:30, in red. */
  function AfterReady(s: State): State {
    AfterText(s, "1:30", Gfx.Red, false)
  }

  /** `msg_hotspot()`: no longer connecting; the hotspot message scrolls, then `ready()`. */
  function AfterHotspot(s: State): State {
    AfterDoScroll(AfterText(s.(connecting := false), "HOTSPOT MODE", Gfx.Cyan, true), Ready)
  }

  /** `msg_connecting()`: the connecting message scrolls; the hotspot follows in ten seconds. */
  function AfterConnecting(s: State, now: nat): State {
    AfterDoTime(AfterText(s, "WIFI CONNECTING...", Gfx.Yellow, true), 10000, MsgHotspot, now).(connecting := true)
  }

  /** `msg_intro()`: the intro scrolls once, then `msg_connecting()`. */
  function AfterIntro(s: State): State {
    AfterDoScroll(AfterText(s, "LEGO BATTLEBOTS", Gfx.White, true), MsgConnecting)
  }

  function AfterCallback(s: State, cb: Callback, now: nat): State {
    match cb
    case Ready => AfterReady(s)
    case MsgHotspot => AfterHotspot(s)
    case MsgConnecting => AfterConnecting(s, now)
    case MsgIntro => AfterIntro(s)
  }

  /** The connection announced: the SSID scrolls, then `ready()`. */
  function AfterConnected(s: State, ssid: string): State {
    AfterDoScroll(AfterText(s.(connecting := false), "WIFI CONNECTED: " + ssid, Gfx.Blue, true), Ready)
  }

  function Fired(f: Option<Callback>): seq<Callback> {
    if f.Some? then [f.value] else []
  }

  /**
   * One `loop()`: while connecting, a network that answers is announced;
   * then `text_handle()` and `do_handle()`, in that order, each running the
   * callback it finds due. The result lists the callbacks run, in order.
   */
  function LoopStep(s: State, now: nat, connected: bool, ssid: string): (State, seq<Callback>) {
    var s1 := if s.connecting && connected then AfterConnected(s, ssid) else s;
    var (s2, f1) := TextStep(s1);
    var s3 := if f1.Some? then AfterCallback(s2, f1.value, now) else s2;
    var (s4, f2) := HandleStep(s3, now);
    var s5 := if f2.Some? then AfterCallback(s4, f2.value, now) else s4;
    (s5, Fired(f1) + Fired(f2))
  }

  // ---------------------------------------------------------------------------
  // Properties

  /** Arming either way disarms the other: at most one mode is enabled after either call. */
  lemma ArmingIsExclusive(s: State, ms: nat, cb: Callback, now: nat)
    ensures Valid(AfterDoTime(s, ms, cb, now)) && AfterDoTime(s, ms, cb, now).timeEn
    ensures Valid(AfterDoScroll(s, cb)) && AfterDoScroll(s, cb).scrollEn
  {
  }

  /**
   * `do_handle()` runs the callback exactly when the timer is armed and due,
   * disarming it first; a second call then runs nothing, whenever it comes.
   */
  lemma HandleRunsOnceWhenDue(s: State, now: nat, later: nat)
    requires Valid(s)
    ensures HandleStep(s, now).1.Some? <==> s.timeEn && now >= s.atMillis
    ensures HandleStep(s, now).1.Some? ==>
      && HandleStep(s, now).1 == s.handler
      && HandleStep(HandleStep(s, now).0, later).1.None?
    ensures HandleStep(s, now).0 == s.(timeEn := s.timeEn && now < s.atMillis)
  {
  }

  /**
   * For scrolling text, `text_handle()` moves the text exactly as the later
   * `draw_text()` of the game firmware does, and runs the scroll callback
   * exactly on the frames where the latter fires its trigger. (It still draws
   * that frame; `draw_text()` skips it.)
   */
  lemma TextStepMatchesDrawStep(s: State)
    requires Valid(s) && s.text.scroll
    ensures TextStep(s).0.text == Gfx.DrawStep(s.text).0
    ensures TextStep(s).1.Some? <==> Gfx.DrawStep(s.text).1 && s.scrollEn
    ensures TextStep(s).0.scrollEn == (s.scrollEn && !Gfx.DrawStep(s.text).1)
  {
  }

  /** A static text of up to 4095 characters stays where `text()` centred it and runs nothing. */
  lemma StaticTextStaysPut(s: State, str: string, color: nat)
    requires |str| <= 4095
    ensures TextStep(AfterText(s, str, color, false)) == (AfterText(s, str, color, false), None)
  {
    var n := |str|;
    assert Int16(n * 8) == 8 * n;
    assert Gfx.StaticXpos(str) == 15 - 3 * n;
  }

  /**
   * The prototype's wrap test on static text is not idle: for a static text
   * of 4096 characters, 8 * 4096 is -32768 as an int16_t, so the text counts
   * as having left the screen and jumps to column 32, where it cannot be
   * seen; the game firmware's `draw_text()` leaves the same text in place.
   */
  lemma LongStaticTextJumps(s: State, color: nat)
    ensures var str := seq(4096, _ => 'A');
      && TextStep(AfterText(s, str, color, false)).0.text.xpos == 32
      && Gfx.StaticXpos(str) != 32
      && Gfx.DrawStep(AfterText(s, str, color, false).text).0.xpos == Gfx.StaticXpos(str)
  {
    var str := seq(4096, _ => 'A');
    assert Int16(|str| * 8) == -0x8000;
    assert Gfx.StaticXpos(str) == -12273;
  }

  /** While connecting, the timer for the hotspot is armed for ten seconds after `msg_connecting()`. */
  predicate AwaitingNetwork(s: State, t0: nat) {
    && s.connecting && s.timeEn && !s.scrollEn
    && s.handler == Some(MsgHotspot) && s.atMillis == t0 + 10000
  }

  lemma ConnectingAwaitsNetwork(s: State, t0: nat)
    ensures AwaitingNetwork(AfterConnecting(s, t0), t0)
    ensures AfterConnecting(s, t0).text == Gfx.TextState(32, true, Gfx.Yellow, "WIFI CONNECTING...")
  {
  }

  /** Before the ten seconds are up and without a network, a loop runs nothing and keeps waiting. */
  lemma WaitingRunsNothing(s: State, t0: nat, now: nat, ssid: string)
    requires AwaitingNetwork(s, t0) && now < t0 + 10000
    ensures LoopStep(s, now, false, ssid).1 == []
    ensures AwaitingNetwork(LoopStep(s, now, false, ssid).0, t0)
  {
  }

  /** Once the ten seconds are up without a network, the hotspot message runs, exactly once. */
  lemma TimeoutFallsBackToHotspot(s: State, t0: nat, now: nat, ssid: string)
    requires AwaitingNetwork(s, t0) && now >= t0 + 10000
    ensures LoopStep(s, now, false, ssid).1 == [MsgHotspot]
    ensures var r := LoopStep(s, now, false, ssid).0;
      && !r.connecting && !r.timeEn && r.scrollEn && r.handler == Some(Ready)
      && r.text == Gfx.TextState(32, true, Gfx.Cyan, "HOTSPOT MODE")
  {
    var (s2, f1) := TextStep(s);
    assert f1 == None;
    assert HandleStep(s2, now) == (s2.(timeEn := false), Some(MsgHotspot));
  }

  /**
   * A network that answers while connecting cancels the pending hotspot
   * timeout: the SSID scrolls (an SSID has at most 32 octets), nothing runs
   * in that loop, and `ready()` follows the scroll.
   */
  lemma ConnectedCancelsHotspot(s: State, now: nat, ssid: string)
    requires s.connecting && |ssid| <= 32
    ensures LoopStep(s, now, true, ssid).1 == []
    ensures var r := LoopStep(s, now, true, ssid).0;
      && !r.connecting && !r.timeEn && r.scrollEn && r.handler == Some(Ready)
      && r.text == Gfx.TextState(31, true, Gfx.Blue, "WIFI CONNECTED: " + ssid)
  {
    var s1 := AfterConnected(s, ssid);
    var n := |s1.text.str|;
    assert Int16(n * 8) == 8 * n;
    assert Int16(32 - 1) == 31;
    assert TextStep(s1) == (s1.(text := s1.text.(xpos := 31)), None);
  }

  /** A series of loops without a network answer: the final state and, per loop, the callbacks run. */
  function Loops(s: State, nows: seq<nat>, ssid: string): (r: (State, seq<seq<Callback>>))
    ensures |r.1| == |nows|
    decreases |nows|
  {
    if nows == [] then (s, [])
    else
      var (s', f) := LoopStep(s, nows[0], false, ssid);
      var (s'', fs) := Loops(s', nows[1..], ssid);
      (s'', [f] + fs)
  }

  /** Running two series of loops one after the other is running their concatenation. */
  lemma {:induction false} LoopsConcat(s: State, a: seq<nat>, b: seq<nat>, ssid: string)
    ensures var (sa, fa) := Loops(s, a, ssid);
      Loops(s, a + b, ssid) == (Loops(sa, b, ssid).0, fa + Loops(sa, b, ssid).1)
    decreases |a|
  {
    if a == [] {
      assert a + b == b;
      assert Loops(s, a, ssid) == (s, []);
      assert [] + Loops(s, b, ssid).1 == Loops(s, b, ssid).1;
    } else {
      var (s1, f) := LoopStep(s, a[0], false, ssid);
      assert (a + b)[1..] == a[1..] + b;
      LoopsConcat(s1, a[1..], b, ssid);
      var (sa, fa) := Loops(s1, a[1..], ssid);
      var (sb, fb) := Loops(sa, b, ssid);
      assert [f] + (fa + fb) == ([f] + fa) + fb;
    }
  }

  /** The index of the loop on which a scrolling text at `t.xpos` leaves the screen. */
  function WrapLoop(t: Gfx.TextState): int {
    t.xpos + 8 * |t.str|
  }

  /**
   * A scrolling text with `msg_connecting()` armed to follow it runs nothing
   * until the loop on which it has left the screen; that loop runs
   * `msg_connecting()` and leaves the hotspot timer armed.
   */
  lemma {:induction false} ScrollThenConnecting(s: State, nows: seq<nat>, ssid: string)
    requires !s.connecting && !s.timeEn && s.scrollEn && s.handler == Some(MsgConnecting)
    requires s.text.scroll && |s.text.str| <= 4095 && 0 <= WrapLoop(s.text) && s.text.xpos <= 32
    ensures forall i :: 0 <= i < |nows| && i < WrapLoop(s.text) ==> Loops(s, nows, ssid).1[i] == []
    ensures |nows| > WrapLoop(s.text) ==>
      && Loops(s, nows, ssid).1[WrapLoop(s.text)] == [MsgConnecting]
      && AwaitingNetwork(Loops(s, nows[..WrapLoop(s.text) + 1], ssid).0, nows[WrapLoop(s.text)])
    decreases WrapLoop(s.text)
  {
    if nows != [] {
      var n := |s.text.str|;
      assert Int16(n * 8) == 8 * n;
      assert Int16(s.text.xpos - 1) == s.text.xpos - 1;
      if WrapLoop(s.text) == 0 {
        var s2 := s.(text := s.text.(xpos := 32), scrollEn := false);
        assert TextStep(s) == (s2, Some(MsgConnecting));
        var s3 := AfterConnecting(s2, nows[0]);
        assert HandleStep(s3, nows[0]) == (s3, None);
        assert Fired(Some(MsgConnecting)) + Fired(None) == [MsgConnecting];
        assert LoopStep(s, nows[0], false, ssid) == (s3, [MsgConnecting]);
        assert Loops(s, nows[..1], ssid).0 == s3;
      } else {
        var s' := s.(text := s.text.(xpos := s.text.xpos - 1));
        assert TextStep(s) == (s', None);
        assert HandleStep(s', nows[0]) == (s', None);
        assert Fired(None) + Fired(None) == [];
        assert LoopStep(s, nows[0], false, ssid) == (s', []);
        ScrollThenConnecting(s', nows[1..], ssid);
        var d := WrapLoop(s.text);
        assert WrapLoop(s'.text) == d - 1;
        var fs := Loops(s, nows, ssid).1;
        var fs' := Loops(s', nows[1..], ssid).1;
        assert fs == [[]] + fs';
        forall i | 0 <= i < |nows| && i < d
          ensures fs[i] == []
        {
          if i > 0 {
            assert fs[i] == fs'[i - 1];
          }
        }
        if |nows| > d {
          assert fs[d] == fs'[d - 1];
          assert nows[..d + 1][1..] == nows[1..][..d];
          assert Loops(s, nows[..d + 1], ssid).0 == Loops(s', nows[1..][..d], ssid).0;
        }
      }
    }
  }

  /**
   * After `setup()`, "LEGO BATTLEBOTS" scrolls once: loops 1 to 152 run
   * nothing, loop 153 runs `msg_connecting()`, which arms the hotspot
   * timeout for ten seconds after that loop.
   */
  lemma IntroThenConnecting(s0: State, nows: seq<nat>, ssid: string)
    requires !s0.connecting
    ensures forall i :: 0 <= i < |nows| && i < 152 ==> Loops(AfterIntro(s0), nows, ssid).1[i] == []
    ensures |nows| >= 153 ==>
      && Loops(AfterIntro(s0), nows, ssid).1[152] == [MsgConnecting]
      && AwaitingNetwork(Loops(AfterIntro(s0), nows[..153], ssid).0, nows[152])
  {
    ScrollThenConnecting(AfterIntro(s0), nows, ssid);
  }

  // ---------------------------------------------------------------------------
  // The globals, updated in place

  class Prototype {
    var doTimeEn: bool
    var doScrollEn: bool
    var doAtMillis: nat
    var doHandler: Option<Callback>
    var textXpos: int
    var textScroll: bool
    var textColor: nat
    var textString: string
    var connecting: bool

    function Model(): State
      reads this
    {
      State(doTimeEn, doScrollEn, doAtMillis, doHandler,
            Gfx.TextState(textXpos, textScroll, textColor, textString), connecting)
    }

    constructor()
      ensures Model() == Initial()
    {
      doTimeEn := false;
      doScrollEn := false;
      doAtMillis := 0;
      doHandler := None;
      textXpos := 0;
      textScroll := false;
      textColor := 0;
      textString := "";
      connecting := false;
    }

    method DoTime(ms: nat, cb: Callback, now: nat)
      modifies this
      ensures Model() == AfterDoTime(old(Model()), ms, cb, now)
    {
      doTimeEn := true;
      doScrollEn := false;
      doAtMillis := now + ms;
      doHandler := Some(cb);
    }

    method DoScroll(cb: Callback)
      modifies this
      ensures Model() == AfterDoScroll(old(Model()), cb)
    {
      doScrollEn := true;
      doTimeEn := false;
      doHandler := Some(cb);
    }

    method DoHandle(now: nat) returns (fired: Option<Callback>)
      modifies this
      ensures (Model(), fired) == HandleStep(old(Model()), now)
    {
      fired := None;
      if doTimeEn && now >= doAtMillis {
        doTimeEn := false;
        fired := doHandler;
      }
    }

    method TextHandle() returns (fired: Option<Callback>)
      modifies this
      ensures (Model(), fired) == TextStep(old(Model()))
    {
      fired := None;
      if textScroll {
        textXpos := Int16(textXpos - 1);
      }
      var textLength := Int16(|textString| * 8);
      if textXpos < -textLength {
        textXpos := 32;
        if doScrollEn {
          doScrollEn := false;
          fired := doHandler;
        }
      }
    }

    method Text(str: string, color: nat, scroll: bool)
      modifies this
      ensures Model() == AfterText(old(Model()), str, color, scroll)
    {
      textXpos := if scroll then 32 else Gfx.StaticXpos(str);
      textColor := color;
      textString := str;
      textScroll := scroll;
    }

    method Ready()
      modifies this
      ensures Model() == AfterReady(old(Model()))
    {
      Text("1:30", Gfx.Red, false);
    }

    method MsgHotspot()
      modifies this
      ensures Model() == AfterHotspot(old(Model()))
    {
      connecting := false;
      Text("HOTSPOT MODE", Gfx.Cyan, true);
      DoScroll(Callback.Ready);
    }

    method MsgConnecting(now: nat)
      modifies this
      ensures Model() == AfterConnecting(old(Model()), now)
    {
      Text("WIFI CONNECTING...", Gfx.Yellow, true);
      DoTime(10000, Callback.MsgHotspot, now);
      connecting := true;
    }

    method MsgIntro()
      modifies this
      ensures Model() == AfterIntro(old(Model()))
    {
      Text("LEGO BATTLEBOTS", Gfx.White, true);
      DoScroll(Callback.MsgConnecting);
    }

    /** Runs a callback handed back by `TextHandle` or `DoHandle`. */
    method Run(cb: Callback, now: nat)
      modifies this
      ensures Model() == AfterCallback(old(Model()), cb, now)
    {
      match cb
      case Ready => Ready();
      case MsgHotspot => MsgHotspot();
      case MsgConnecting => MsgConnecting(now);
      case MsgIntro => MsgIntro();
    }

    /** `setup()`, past the pins, displays and network: the intro message. */
    method Setup()
      modifies this
      ensures Model() == AfterIntro(old(Model()))
    {
      MsgIntro();
    }

    method Loop(now: nat, connected: bool, ssid: string) returns (fired: seq<Callback>)
      modifies this
      ensures (Model(), fired) == LoopStep(old(Model()), now, connected, ssid)
    {
      if connecting && connected {
        connecting := false;
        Text("WIFI CONNECTED: " + ssid, Gfx.Blue, true);
        DoScroll(Callback.Ready);
      }
      var f1 := TextHandle();
      if f1.Some? {
        Run(f1.value, now);
      }
      var f2 := DoHandle(now);
      if f2.Some? {
        Run(f2.value, now);
      }
      fired := Fired(f1) + Fired(f2);
    }
  }
}
