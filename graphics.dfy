// Graphics: what the two LED matrices show, reduced to positions and flags.
// The text is either static (centred, never moving) or scrolling (entering
// at the right edge, one column per frame); when a scrolling text has left
// the screen it starts over and fires the shared one-shot `isr` as a
// trigger, which is how the game learns that a message has been read out.
// The same `isr` also times the brightness display. Pixels are not modelled.

module Graphics {
  import opened Common
  import opened Callbacks
  import opened SoftIsr

  // ---------------------------------------------------------------------------
  // Colours (RGB565)

  const Black: nat := 0x0000
  const Blue: nat := 0x001F
  const BlueDim: nat := 0x0011
  const Red: nat := 0xF800
  const RedDim: nat := 0x8000
  const Green: nat := 0x07E0
  const GreenDim: nat := 0x0300
  const Cyan: nat := 0x07FF
  const Magenta: nat := 0xF81F
  const Yellow: nat := 0xFFE0
  const White: nat := 0xFFFF

  /** The colour names the settings may use; every other name means red. */
  const ColorByName: map<string, nat> :=
    map["Blue" := Blue, "White" := White, "Green" := Green, "Cyan" := Cyan,
        "Magenta" := Magenta, "Yellow" := Yellow]

  function ParseColor(input: string): (c: nat)
    ensures c == if input in ColorByName then ColorByName[input] else Red
    ensures c != Black && c != BlueDim && c != RedDim && c != GreenDim
  {
    if input == "Blue" then Blue
    else if input == "White" then White
    else if input == "Green" then Green
    else if input == "Cyan" then Cyan
    else if input == "Magenta" then Magenta
    else if input == "Yellow" then Yellow
    else Red
  }

  // ---------------------------------------------------------------------------
  // Text position

  /** The text on screen: left edge (an int16_t), scrolling or not, colour, string. */
  datatype TextState = TextState(xpos: int, scroll: bool, color: nat, str: string)

  /** The left edge that centres a static text of 6-pixel characters on 32 columns. */
  function StaticXpos(s: string): (x: int)
    ensures |s| <= 10927 ==> x == 15 - 3 * |s|
  {
    Int16(15 - 3 * |s|)
  }

  function StaticText(s: string, color: string): TextState {
    TextState(StaticXpos(s), false, ParseColor(color), s)
  }

  /** A scrolling text starts just beyond the right edge. */
  function DynamicText(s: string, color: string): TextState {
    TextState(32, true, ParseColor(color), s)
  }

  /**
   * One `draw_text()`: the new text state, and whether the text wrapped
   * around (which fires the trigger and skips drawing for that frame).
   * Only the position changes, and static text never moves.
   */
  function DrawStep(t: TextState): (r: (TextState, bool))
    ensures r.0 == t.(xpos := r.0.xpos)
    ensures !t.scroll ==> r == (t, false)
    ensures r.1 ==> r.0.xpos == 32
  {
    if !t.scroll then (t, false)
    else
      var x := Int16(t.xpos - 1);
      var textLength := Int16(|t.str| * 8);
      if x < -textLength then (t.(xpos := 32), true) else (t.(xpos := x), false)
  }

  /**
   * The callbacks fired by `k` successive `draw_text()` calls on the shared
   * slot, one entry per call, when nothing else touches the slot or the text.
   */
  function DrawFired(t: TextState, slot: Slot<Handler>, k: nat): (f: seq<Option<Handler>>)
    ensures |f| == k
    decreases k
  {
    if k == 0 then []
    else
      var (t', wrapped) := DrawStep(t);
      var (slot', fired) := if wrapped then Step(slot, Fire) else (slot, None);
      [fired] + DrawFired(t', slot', k - 1)
  }

  /** A disabled slot fires nothing, however often the text wraps. */
  lemma {:induction false} DrawFiredDisabled(t: TextState, slot: Slot<Handler>, k: nat)
    requires !slot.enabled
    ensures forall i :: 0 <= i < k ==> DrawFired(t, slot, k)[i] == None
    decreases k
  {
    if k > 0 {
      var (t', wrapped) := DrawStep(t);
      DrawFiredDisabled(t', slot, k - 1);
    }
  }

  /**
   * A scrolling text at `xpos` moves left one column per call and wraps on
   * call number xpos + 8·len + 1; only that call fires, and it leaves the
   * text back at column 32 and the slot disabled.
   */
  lemma {:induction false} ScrollUntilWrap(t: TextState, slot: Slot<Handler>, k: nat)
    requires t.scroll && |t.str| <= 4095 && -8 * |t.str| <= t.xpos <= 32
    ensures var d := t.xpos + 8 * |t.str| + 1;
      var f := DrawFired(t, slot, k);
      && (forall i :: 0 <= i < k && i < d - 1 ==> f[i] == None)
      && (k >= d ==> f[d - 1] == Step(slot, Fire).1
                     && f[d..] == DrawFired(t.(xpos := 32), slot.(enabled := false), k - d))
    decreases t.xpos + 8 * |t.str|, k
  {
    if k > 0 {
      var n := |t.str|;
      assert Int16(t.xpos - 1) == t.xpos - 1;
      assert Int16(n * 8) == 8 * n;
      if t.xpos == -8 * n {
        assert DrawStep(t) == (t.(xpos := 32), true);
        assert Step(slot, Fire).0 == slot.(enabled := false);
      } else {
        var t' := t.(xpos := t.xpos - 1);
        assert DrawStep(t) == (t', false);
        assert DrawFired(t, slot, k) == [None] + DrawFired(t', slot, k - 1);
        ScrollUntilWrap(t', slot, k - 1);
      }
    }
  }

  /**
   * After `text_dynamic(s, color, cb)`, the trigger `cb` runs exactly once:
   * on the (8·len + 33)-th `draw_text()`. Later wraps fire nothing, as the
   * trigger is one-shot.
   */
  lemma ScrollCompletesOnce(s: string, color: string, slot: Slot<Handler>, cb: Handler, k: nat)
    requires |s| <= 4095
    ensures var f := DrawFired(DynamicText(s, color), ArmTrigger(slot, cb), k);
      forall i :: 0 <= i < k ==> f[i] == if i == 8 * |s| + 32 then Some(cb) else None
  {
    var t := DynamicText(s, color);
    var armed := ArmTrigger(slot, cb);
    ScrollUntilWrap(t, armed, k);
    var d := 8 * |s| + 33;
    if k >= d {
      assert t.(xpos := 32) == t;
      DrawFiredDisabled(t, armed.(enabled := false), k - d);
    }
  }

  // ---------------------------------------------------------------------------
  // Brightness

  /** The stored brightness setting: "" means 2, anything else is read as a uint8_t and clamped to 1..8. */
  function BrightnessSetting(input: string): (b: nat)
    ensures 1 <= b <= 8
    ensures input == "" ==> b == 2
    ensures input != "" && 1 <= Trunc8(ToInt(input)) <= 8 ==> b == Trunc8(ToInt(input))
    ensures input != "" && Trunc8(ToInt(input)) > 8 ==> b == 8
    ensures input != "" && Trunc8(ToInt(input)) == 0 ==> b == 1
  {
    if input == "" then 2
    else
      var b := Trunc8(ToInt(input));
      if b > 8 then 8 else if b < 1 then 1 else b
  }

  /** The value `change_brightness()` stores is read back unchanged at the next start. */
  lemma BrightnessRoundTrip(b: nat)
    requires 1 <= b <= 8
    ensures BrightnessSetting(NatToString(b)) == b
  {
    ToIntOfNatToString(b);
  }

  /** The next brightness: 8 wraps to 1, anything else steps up (as a uint8_t). */
  function NextBrightness(b: nat): (r: nat)
    ensures 1 <= b <= 8 ==> 1 <= r <= 8
  {
    if b == 8 then 1 else Trunc8(b + 1)
  }

  function NextBrightnessN(b: nat, k: nat): nat
    decreases k
  {
    if k == 0 then b else NextBrightness(NextBrightnessN(b, k - 1))
  }

  /** Up to eight steps from a valid level: up by k, wrapping past 8 back to 1. */
  lemma {:induction false} BrightnessOrbit(b: nat, k: nat)
    requires 1 <= b <= 8 && k <= 8
    ensures NextBrightnessN(b, k) == if b + k <= 8 then b + k else b + k - 8
    decreases k
  {
    if k > 0 {
      BrightnessOrbit(b, k - 1);
    }
  }

  /** Pressing blue with black held cycles through all eight levels and back. */
  lemma BrightnessCycle(b: nat)
    requires 1 <= b <= 8
    ensures NextBrightnessN(b, 8) == b
    ensures forall k :: 0 < k < 8 ==> NextBrightnessN(b, k) != b && 1 <= NextBrightnessN(b, k) <= 8
  {
    BrightnessOrbit(b, 8);
    forall k | 0 < k < 8
      ensures NextBrightnessN(b, k) != b && 1 <= NextBrightnessN(b, k) <= 8
    {
      BrightnessOrbit(b, k);
    }
  }

  // ---------------------------------------------------------------------------
  // Player-ready bars

  /** A bar is not drawn, drawn dim, or drawn in full colour. */
  datatype Bar = Off | Dim | Lit

  /** Which layout is drawn and how each player's bar looks. */
  datatype Layout = NoBars | TwoPlayerBars | ThreePlayerBars
  datatype Lights = Lights(layout: Layout, green: Bar, blue: Bar, red: Bar)

  function BarFor(ready: bool, showDim: bool): Bar {
    if ready then Lit else if showDim then Dim else Off
  }

  /**
   * The bars `draw_players_ready()` draws: three-player mode draws the green
   * bar, and the blue and red ones only with the auxiliary lights; otherwise
   * the two-player bars are drawn only with the auxiliary lights.
   */
  function ReadyLights(threePlayers: bool, showAux: bool, showDim: bool,
                       greenReady: bool, blueReady: bool, redReady: bool): (l: Lights)
    ensures l.green != Off ==> threePlayers
    ensures (l.blue != Off || l.red != Off) ==> showAux
    ensures l.blue == Lit <==> showAux && blueReady
    ensures l.red == Lit <==> showAux && redReady
    ensures l.green == Lit <==> threePlayers && greenReady
    ensures Dim in {l.green, l.blue, l.red} ==> showDim
    ensures l.layout == NoBars <==> !threePlayers && !showAux
    ensures l.layout == ThreePlayerBars <==> threePlayers
    ensures l.green == Dim <==> threePlayers && !greenReady && showDim
    ensures l.blue == Dim <==> showAux && !blueReady && showDim
    ensures l.red == Dim <==> showAux && !redReady && showDim
  {
    if threePlayers then
      Lights(ThreePlayerBars, BarFor(greenReady, showDim),
             if showAux then BarFor(blueReady, showDim) else Off,
             if showAux then BarFor(redReady, showDim) else Off)
    else if showAux then
      Lights(TwoPlayerBars, Off, BarFor(blueReady, showDim), BarFor(redReady, showDim))
    else Lights(NoBars, Off, Off, Off)
  }

  // ---------------------------------------------------------------------------
  // The display object, with the file's two globals (`isr` and `show_brightness`)

  class Graphics {
    const isr: SoftIsr<Handler>
    var showBrightness: bool
    var brightness: nat
    var textXpos: int
    var textScroll: bool
    var textColor: nat
    var textString: string
    var showPlayerBar: bool
    var showAuxLights: bool
    var showDimLights: bool
    var threePlayers: bool
    var rumbleMode: bool
    var redReady: bool
    var blueReady: bool
    var greenReady: bool
    /** The levels of the blue and red player LEDs. */
    var ledBlue: bool
    var ledRed: bool

    ghost predicate Valid()
      reads isr
    {
      isr.Valid()
    }

    function Text(): TextState
      reads this
    {
      TextState(textXpos, textScroll, textColor, textString)
    }

    /** The header's initial text; every other field holds the zero of static storage. */
    constructor ()
      ensures Valid() && fresh(isr) && isr.Model() == Fresh()
      ensures Text() == TextState(0, false, 0, "")
      ensures brightness == 0 && !showBrightness && !showPlayerBar
      ensures !showAuxLights && !showDimLights && !threePlayers && !rumbleMode
      ensures !redReady && !blueReady && !greenReady && !ledBlue && !ledRed
    {
      isr := new SoftIsr();
      showBrightness := false;
      brightness := 0;
      textXpos := 0;
      textScroll := false;
      textColor := 0;
      textString := "";
      showPlayerBar := false;
      showAuxLights := false;
      showDimLights := false;
      threePlayers := false;
      rumbleMode := false;
      redReady := false;
      blueReady := false;
      greenReady := false;
      ledBlue := false;
      ledRed := false;
    }

    /** The brightness display's timer callback. */
    method ShowBrightnessOff()
      modifies this`showBrightness
      ensures !showBrightness
    {
      showBrightness := false;
    }

    /** Centred, non-moving text; the shared isr is left alone. */
    method TextStatic(text: string, color: string)
      modifies this`textScroll, this`textXpos, this`textColor, this`textString
      ensures Text() == StaticText(text, color)
      ensures DrawStep(Text()) == (Text(), false)
    {
      textScroll := false;
      textXpos := Int16(15 - |text| * 3);
      textColor := ParseColor(color);
      textString := text;
    }

    method TextDynamic(text: string, color: string)
      modifies this`textScroll, this`textXpos, this`textColor, this`textString
      ensures Text() == DynamicText(text, color)
    {
      textXpos := 32;
      textColor := ParseColor(color);
      textString := text;
      textScroll := true;
    }

    /** Scrolling text whose first completed pass runs `cb`; any pending callback is discarded. */
    method TextDynamicThen(text: string, color: string, cb: Handler)
      requires Valid()
      modifies this`textScroll, this`textXpos, this`textColor, this`textString, isr
      ensures Valid()
      ensures Text() == DynamicText(text, color)
      ensures isr.Model() == ArmTrigger(old(isr.Model()), cb)
    {
      TextDynamic(text, color);
      isr.SetTrigger(cb);
    }

    method SetBrightness(input: string)
      modifies this`brightness
      ensures brightness == BrightnessSetting(input)
    {
      if input == "" {
        brightness := 2;
      } else {
        brightness := Trunc8(ToInt(input));
        if brightness > 8 {
          brightness := 8;
        }
        if brightness < 1 {
          brightness := 1;
        }
      }
    }

    /**
     * Steps the brightness, shows it, and arms the shared isr to hide it in
     * one second, replacing whatever was pending there.
     */
    method ChangeBrightness(now: nat) returns (b: nat)
      requires Valid()
      modifies this`brightness, this`showBrightness, isr
      ensures Valid()
      ensures b == brightness == NextBrightness(old(brightness))
      ensures showBrightness
      ensures isr.Model() == ArmTimer(old(isr.Model()), Handler.ShowBrightnessOff, 1000, now)
    {
      if brightness == 8 {
        brightness := 1;
      } else {
        brightness := Trunc8(brightness + 1);
      }
      showBrightness := true;
      isr.SetTimer(Handler.ShowBrightnessOff, 1000, now);
      b := brightness;
    }

    method SetThreePlayers(value: bool)
      modifies this`threePlayers
      ensures threePlayers == value
    {
      threePlayers := value;
    }

    /** Not declared by the display class; a flag with no effect on what is drawn. */
    method SetRumbleMode(value: bool)
      modifies this`rumbleMode
      ensures rumbleMode == value
    {
      rumbleMode := value;
    }

    method SetRedReady(value: bool)
      modifies this`redReady
      ensures redReady == value
    {
      redReady := value;
    }

    method SetBlueReady(value: bool)
      modifies this`blueReady
      ensures blueReady == value
    {
      blueReady := value;
    }

    method SetGreenReady(value: bool)
      modifies this`greenReady
      ensures greenReady == value
    {
      greenReady := value;
    }

    /** Once set, the bars stay on: nothing clears this flag. */
    method SetShowPlayerBar()
      modifies this`showPlayerBar
      ensures showPlayerBar
    {
      showPlayerBar := true;
    }

    method SetShowAuxLights(value: bool)
      modifies this`showAuxLights
      ensures showAuxLights == value
    {
      showAuxLights := value;
    }

    method SetShowDimLights(value: bool)
      modifies this`showDimLights
      ensures showDimLights == value
    {
      showDimLights := value;
    }

    /**
     * Moves scrolling text one column; when it has left the screen, puts it
     * back at column 32 and fires the shared isr, returning the callback that
     * runs.
     */
    method DrawText() returns (fired: Option<Handler>)
      requires Valid()
      modifies this`textXpos, isr`enabled
      ensures Valid()
      ensures Text() == DrawStep(old(Text())).0
      ensures (isr.Model(), fired) ==
        if DrawStep(old(Text())).1 then Step(old(isr.Model()), Fire) else (old(isr.Model()), None)
    {
      fired := None;
      if textScroll {
        textXpos := Int16(textXpos - 1);
        var textLength := Int16(|textString| * 8);
        if textXpos < -textLength {
          textXpos := 32;
          fired := isr.Trigger();
          return;
        }
      }
    }

    /** The bars drawn, and the player LEDs, which always follow the blue and red flags. */
    method DrawPlayersReady() returns (lights: Lights)
      modifies this`ledBlue, this`ledRed
      ensures lights == ReadyLights(threePlayers, showAuxLights, showDimLights, greenReady, blueReady, redReady)
      ensures ledBlue == blueReady && ledRed == redReady
    {
      if threePlayers {
        lights := Lights(ThreePlayerBars, BarFor(greenReady, showDimLights), Off, Off);
        if showAuxLights {
          lights := lights.(blue := BarFor(blueReady, showDimLights), red := BarFor(redReady, showDimLights));
        }
      } else if showAuxLights {
        lights := Lights(TwoPlayerBars, Off, BarFor(blueReady, showDimLights), BarFor(redReady, showDimLights));
      } else {
        lights := Lights(NoBars, Off, Off, Off);
      }
      ledBlue := blueReady;
      ledRed := redReady;
    }
  }
}
