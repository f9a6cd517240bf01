// The pure rules of the battle timer: the clock text, the settings strings
// and their defaults, the in-game setting cycles, the ready test and the
// arithmetic of the countdown. The game object applies them.

module TimerRules {
  import opened Common
  import opened Callbacks

  /** The six game states, STARTUP = 0 up to GAME_OVER = 5. */
  datatype State = StartupState | StandbyState | PreState | CountdownState | PausedState | GameOverState

  /** The modes; any other stored value is shown as rumble but never behaves as it. */
  const TwoPlayer: nat := 0
  const ThreePlayer: nat := 1
  const Rumble: nat := 2

  // ---------------------------------------------------------------------------
  // format_time

  function Separator(colon: bool): char {
    if colon then ':' else ' '
  }

  /** Seconds as two digits. */
  function PadSeconds(s: nat): (r: string)
    requires s < 60
    ensures |r| == 2 && AllDigits(r) && DigitsValue(r) == s
  {
    var t := NatToString(s);
    DigitsValueOfNatToString(s);
    if |t| == 1 then
      assert DigitsValue("0" + t) == DigitsValue("0") * 10 + DigitValue(t[0]) by {
        assert ("0" + t)[..1] == "0";
      }
      "0" + t
    else
      assert |t| == 2 by {
        assert t == NatToString(s / 10) + [DigitChar(s % 10)];
      }
      t
  }

  /**
   * The clock text of a number of seconds: unpadded minutes, the separator,
   * two-digit seconds. This is `format_time` for a parameter wide enough to
   * hold every time the game uses.
   */
  function FormatTime(time: nat, colon: bool): string {
    NatToString(time / 60) + [Separator(colon)] + PadSeconds(time % 60)
  }

  /** The clock text ends in the separator and two digits of seconds, after the minutes. */
  lemma FormatTimeLayout(time: nat, colon: bool)
    ensures var r := FormatTime(time, colon);
      && |r| >= 4 && r[|r| - 3] == Separator(colon)
      && r[..|r| - 3] == NatToString(time / 60) && r[|r| - 2..] == PadSeconds(time % 60)
  {
    var minutes := NatToString(time / 60);
    var seconds := PadSeconds(time % 60);
    var r := minutes + [Separator(colon)] + seconds;
    assert r[..|r| - 3] == minutes;
    assert r[|r| - 2..] == seconds;
  }

  /** Reads a clock text back: minutes, the separator, two digits of seconds below 60. */
  function ParseClock(s: string, colon: bool): Option<nat> {
    if |s| < 4 then None
    else
      var sep := |s| - 3;
      var minutes := s[..sep];
      var seconds := s[sep + 1..];
      if s[sep] == Separator(colon) && AllDigits(minutes) && AllDigits(seconds) && DigitsValue(seconds) < 60
      then Some(DigitsValue(minutes) * 60 + DigitsValue(seconds))
      else None
  }

  /** The clock text reads back as the time it shows: `format_time` loses nothing. */
  lemma FormatTimeRoundTrip(time: nat, colon: bool)
    ensures ParseClock(FormatTime(time, colon), colon) == Some(time)
  {
    FormatTimeLayout(time, colon);
    var r := FormatTime(time, colon);
    var sep := |r| - 3;
    assert r[sep + 1..] == r[|r| - 2..];
    DigitsValueOfNatToString(time / 60);
  }

  /** The clock text of a time under ten minutes, character by character. */
  lemma ShortClockText(time: nat, colon: bool)
    requires time < 600
    ensures FormatTime(time, colon) ==
      [DigitChar(time / 60), Separator(colon), DigitChar(time % 60 / 10), DigitChar(time % 10)]
  {
    var sec := time % 60;
    assert NatToString(time / 60) == [DigitChar(time / 60)];
    if sec < 10 {
      assert PadSeconds(sec) == "0" + [DigitChar(sec)];
      assert DigitChar(0) == '0';
    } else {
      assert NatToString(sec) == NatToString(sec / 10) + [DigitChar(sec % 10)];
    }
    assert sec % 10 == time % 10;
  }

  /** `format_time` as written: its parameter is a uint8_t, so the time is reduced modulo 256. */
  function FormatTimeUint8(time: int, colon: bool): (r: string)
    ensures ParseClock(r, colon) == Some(Trunc8(time))
  {
    FormatTimeRoundTrip(Trunc8(time), colon);
    FormatTime(Trunc8(time), colon)
  }

  /**
   * The clock text `format_time` evidently means to show: a negative time
   * shows as 0:00 and a time of 256 seconds or more shows in full.
   */
  function ClockText(time: int, colon: bool): string {
    FormatTime(if time < 0 then 0 else time, colon)
  }

  /** The corrected clock text reads back as the time itself, floored at zero. */
  lemma ClockTextRoundTrip(time: int, colon: bool)
    ensures ParseClock(ClockText(time, colon), colon) == Some(if time < 0 then 0 else time)
  {
    FormatTimeRoundTrip(if time < 0 then 0 else time, colon);
  }

  /** The longest game time, 5:00, shows as 0:44 through the uint8_t parameter. */
  lemma FormatTimeTruncatesLongGames()
    ensures FormatTimeUint8(300, true) == "0:44"
    ensures ClockText(300, true) == "5:00"
  {
    assert Trunc8(300) == 44;
    ShortClockText(44, true);
    ShortClockText(300, true);
  }

  /** A remaining time of -1 shows as 4:15 through the uint8_t parameter. */
  lemma FormatTimeShowsNegativeAsLarge()
    ensures FormatTimeUint8(-1, true) == "4:15"
    ensures FormatTimeUint8(-1, false) == "4 15"
    ensures ClockText(-1, true) == "0:00"
  {
    assert Trunc8(-1) == 255;
    ShortClockText(255, true);
    ShortClockText(255, false);
    ShortClockText(0, true);
  }

  // ---------------------------------------------------------------------------
  // Settings strings

  /** The shortest time the clock can be set to; anything unrecognised means 0:30. */
  function MinTimeSetting(s: string): (t: nat)
    ensures t in {15, 30, 45, 60, 90}
  {
    if s == "0:15" then 15
    else if s == "0:45" then 45
    else if s == "1:00" then 60
    else if s == "1:30" then 90
    else 30
  }

  /** The longest time the clock can be set to; anything unrecognised means 3:00. */
  function MaxTimeSetting(s: string): (t: nat)
    ensures t in {120, 180, 240, 300}
  {
    if s == "2:00" then 120
    else if s == "4:00" then 240
    else if s == "5:00" then 300
    else 180
  }

  /** The step of the time setting; anything unrecognised means 0:15. */
  function IntervalSetting(s: string): (t: nat)
    ensures t in {1, 2, 5, 10, 15, 30}
  {
    if s == "0:01" then 1
    else if s == "0:02" then 2
    else if s == "0:05" then 5
    else if s == "0:10" then 10
    else if s == "0:30" then 30
    else 15
  }

  /** Every minimum the settings page offers reads back as itself. */
  lemma MinTimeRoundTrip(t: nat)
    requires t in {15, 30, 45, 60, 90}
    ensures MinTimeSetting(FormatTime(t, true)) == t
  {
    ShortClockText(t, true);
    if t == 15 {
      assert FormatTime(t, true) == "0:15";
    } else if t == 30 {
      assert FormatTime(t, true) == "0:30";
    } else if t == 45 {
      assert FormatTime(t, true) == "0:45";
    } else if t == 60 {
      assert FormatTime(t, true) == "1:00";
    } else {
      assert FormatTime(t, true) == "1:30";
    }
  }

  /** Every maximum the settings page offers reads back as itself. */
  lemma MaxTimeRoundTrip(t: nat)
    requires t in {120, 180, 240, 300}
    ensures MaxTimeSetting(FormatTime(t, true)) == t
  {
    ShortClockText(t, true);
    if t == 120 {
      assert FormatTime(t, true) == "2:00";
    } else if t == 180 {
      assert FormatTime(t, true) == "3:00";
    } else if t == 240 {
      assert FormatTime(t, true) == "4:00";
    } else {
      assert FormatTime(t, true) == "5:00";
    }
  }

  /** Every interval the settings page offers reads back as itself. */
  lemma IntervalRoundTrip(t: nat)
    requires t in {1, 2, 5, 10, 15, 30}
    ensures IntervalSetting(FormatTime(t, true)) == t
  {
    ShortClockText(t, true);
    if t == 1 {
      assert FormatTime(t, true) == "0:01";
    } else if t == 2 {
      assert FormatTime(t, true) == "0:02";
    } else if t == 5 {
      assert FormatTime(t, true) == "0:05";
    } else if t == 10 {
      assert FormatTime(t, true) == "0:10";
    } else if t == 15 {
      assert FormatTime(t, true) == "0:15";
    } else {
      assert FormatTime(t, true) == "0:30";
    }
  }

  /** Only the offered texts are recognised: any other minimum text means the default. */
  lemma MinTimeRecognised(s: string)
    ensures MinTimeSetting(s) != 30 ==> s == FormatTime(MinTimeSetting(s), true)
  {
    ShortClockText(15, true);
    ShortClockText(45, true);
    ShortClockText(60, true);
    ShortClockText(90, true);
  }

  /** Only the offered texts are recognised: any other maximum text means the default. */
  lemma MaxTimeRecognised(s: string)
    ensures MaxTimeSetting(s) != 180 ==> s == FormatTime(MaxTimeSetting(s), true)
  {
    ShortClockText(120, true);
    ShortClockText(240, true);
    ShortClockText(300, true);
  }

  /** Only the offered texts are recognised: any other interval text means the default. */
  lemma IntervalRecognised(s: string)
    ensures IntervalSetting(s) != 15 ==> s == FormatTime(IntervalSetting(s), true)
  {
    ShortClockText(1, true);
    ShortClockText(2, true);
    ShortClockText(5, true);
    ShortClockText(10, true);
    ShortClockText(30, true);
  }

  /** `toInt()` of a one-character string: its digit, or 0. */
  lemma ToIntOfChar(c: char)
    ensures ToInt([c]) == if IsDigit(c) then DigitValue(c) else 0
  {
    var s := [c];
    if IsSpace(c) {
      assert SkipSpace(s) == SkipSpace(s[1..]) == [];
    } else {
      assert SkipSpace(s) == s;
      if c == '-' || c == '+' {
        assert LeadingDigits(s[1..]) == [];
      } else if IsDigit(c) {
        assert s[1..] == [];
        assert LeadingDigits(s) == [c];
        assert DigitsValue(s) == DigitsValue(s[..0]) * 10 + DigitValue(c);
      }
    }
  }

  /**
   * A duration in whole seconds ("Off", "" for the default, else the value of
   * the first character): only the first character of the text counts.
   */
  function SecondsSetting(s: string, default: nat): (t: nat)
    ensures s == "Off" ==> t == 0
    ensures s == "" ==> t == default
    ensures s != "Off" && s != "" ==> t == if IsDigit(s[0]) then DigitValue(s[0]) else 0
  {
    if s == "Off" then 0
    else if s == "" then default
    else
      ToIntOfChar(s[0]);
      assert s[..1] == [s[0]];
      Trunc8(ToInt(s[..1]))
  }

  /**
   * The stored total time: "" means 1:30; the value is read as a uint16_t,
   * then brought down to the maximum and, after that, up to the minimum.
   */
  function TotalTimeSetting(stored: string, minTime: nat, maxTime: nat): (t: nat)
    ensures t >= minTime && (t <= maxTime || t == minTime)
    ensures stored == "" && minTime <= 90 <= maxTime ==> t == 90
    ensures stored != "" && minTime <= Trunc16(ToInt(stored)) <= maxTime ==> t == Trunc16(ToInt(stored))
    ensures stored != "" && minTime <= maxTime < Trunc16(ToInt(stored)) ==> t == maxTime
    ensures stored != "" && Trunc16(ToInt(stored)) < minTime ==> t == minTime
    ensures maxTime < minTime ==> t == minTime
  {
    var t := if stored == "" then 90 else Trunc16(ToInt(stored));
    var t' := if t > maxTime then maxTime else t;
    if t' < minTime then minTime else t'
  }

  /** The total time the game stores reads back unchanged at the next start. */
  lemma TotalTimeRoundTrip(n: nat, minTime: nat, maxTime: nat)
    requires minTime <= n <= maxTime < 0x1_0000
    ensures TotalTimeSetting(NatToString(n), minTime, maxTime) == n
  {
    ToIntOfNatToString(n);
  }

  // ---------------------------------------------------------------------------
  // In-game settings

  /** Green with black held: one interval more, or back to the minimum past the maximum. */
  function NextTotalTime(total: nat, interval: nat, minTime: nat, maxTime: nat): (r: nat)
    ensures minTime <= maxTime ==> (r == minTime || r == total + interval)
    ensures total + interval <= maxTime ==> r == total + interval
    ensures total + interval > maxTime ==> r == minTime
  {
    if total + interval > maxTime then minTime else total + interval
  }

  /**
   * The time setting never leaves [min, max] once inside it, and stays on the
   * grid of min plus whole intervals: from min + j intervals it goes to
   * min + (j + 1) intervals or back to min.
   */
  lemma NextTotalTimeInvariant(total: nat, interval: nat, minTime: nat, maxTime: nat, j: nat)
    requires minTime <= total <= maxTime
    requires total == minTime + j * interval
    ensures var r := NextTotalTime(total, interval, minTime, maxTime);
      minTime <= r <= maxTime
      && (r == minTime || r == minTime + (j + 1) * interval)
  {
    assert (j + 1) * interval == j * interval + interval;
  }

  /** Red with black held: two players, three players, rumble, and back; the text stored for it. */
  function NextMode(mode: nat): (r: (nat, string))
    ensures r.0 < 3
    ensures mode < 2 ==> r.0 == mode + 1
    ensures mode >= 2 ==> r == (TwoPlayer, "0")
  {
    if mode == TwoPlayer then (ThreePlayer, "1")
    else if mode == ThreePlayer then (Rumble, "2")
    else (TwoPlayer, "0")
  }

  /** The mode as `load_settings` reads it back: `toInt()` into a uint8_t. */
  function ModeSetting(stored: string): (m: nat)
    ensures m < 0x100
  {
    Trunc8(ToInt(stored))
  }

  /**
   * Three presses return to the same mode; the text stored is the decimal
   * form of the new mode and reads back as it.
   */
  lemma ModeCycle(mode: nat)
    ensures mode < 3 ==> NextMode(NextMode(NextMode(mode).0).0).0 == mode
    ensures NextMode(mode).1 == NatToString(NextMode(mode).0)
    ensures ModeSetting(NextMode(mode).1) == NextMode(mode).0
  {
    var (m, stored) := NextMode(mode);
    assert NatToString(m) == [DigitChar(m)];
    ToIntOfNatToString(m);
  }

  /**
   * Whether the ready flags start the game: Some(true) to start, Some(false)
   * to go back to the clock, None (nothing happens) in any mode but two and
   * three players.
   */
  function PlayersReady(mode: nat, blue: bool, green: bool, red: bool): (r: Option<bool>)
    ensures r.None? <==> mode != TwoPlayer && mode != ThreePlayer
    ensures r == Some(true) <==> (mode == ThreePlayer && blue && green && red) || (mode == TwoPlayer && blue && red)
  {
    if mode == ThreePlayer then Some(blue && green && red)
    else if mode == TwoPlayer then Some(blue && red)
    else None
  }

  // ---------------------------------------------------------------------------
  // Time arithmetic

  /** `ready()`: the time left when the countdown starts, so that GO! plus the countdown lasts the total time. */
  function StartRemaining(total: nat, goTime: nat): (t: int)
    ensures goTime <= total + 1 && total - goTime + 1 < 0x8000 ==> t == total - goTime + 1
  {
    Int16(total - goTime + 1)
  }

  /**
   * `pause()`: the time left is reduced by GO! minus one second, because
   * resuming shows GO! again, and is floored at zero.
   */
  function PausedRemaining(remaining: int, goTime: nat): (t: int)
    ensures t >= 0
    ensures -0x8000 <= remaining - goTime + 1 < 0x8000 ==> t == if remaining - goTime + 1 < 0 then 0 else remaining - goTime + 1
  {
    var t := Int16(remaining - goTime + 1);
    if t < 0 then 0 else t
  }

  /** A step of the countdown chain: the next handler and the time left after the current one. */
  function CountdownStep(h: Handler, t: int): (Handler, int)
    requires h == CountdownA || h == CountdownB
  {
    if h == CountdownA then (CountdownB, Int16(t - 1))
    else (if t <= 1 then GameOver else CountdownA, t)
  }

  /** `k` steps of the countdown chain; it stops at anything but the two countdown handlers. */
  function Chain(h: Handler, t: int, k: nat): (Handler, int)
    decreases k
  {
    if k == 0 || (h != CountdownA && h != CountdownB) then (h, t)
    else
      var (h', t') := CountdownStep(h, t);
      Chain(h', t', k - 1)
  }

  /**
   * The countdown from T >= 2 runs T - 1 decrements, alternating with the
   * colon-less display, and reaches GAME_OVER after 2(T - 1) steps of 500 ms
   * with one second left, and not before.
   */
  lemma {:induction false} CountdownReachesGameOver(t: int)
    requires 2 <= t < 0x8000
    ensures Chain(CountdownA, t, 2 * (t - 1)) == (GameOver, 1)
    ensures forall k :: 0 <= k < 2 * (t - 1) ==> Chain(CountdownA, t, k).0 != GameOver
    decreases t
  {
    assert Int16(t - 1) == t - 1;
    if t == 2 {
      assert Chain(CountdownA, 2, 2) == Chain(CountdownB, 1, 1) == Chain(GameOver, 1, 0);
    } else {
      CountdownReachesGameOver(t - 1);
      assert Chain(CountdownA, t, 2 * (t - 1)) == Chain(CountdownB, t - 1, 2 * (t - 1) - 1)
                                             == Chain(CountdownA, t - 1, 2 * (t - 2));
      forall k | 0 <= k < 2 * (t - 1)
        ensures Chain(CountdownA, t, k).0 != GameOver
      {
        if k >= 2 {
          assert Chain(CountdownA, t, k) == Chain(CountdownB, t - 1, k - 1) == Chain(CountdownA, t - 1, k - 2);
        } else if k == 1 {
          assert Chain(CountdownA, t, 1) == Chain(CountdownB, t - 1, 0);
        }
      }
    }
  }
}
