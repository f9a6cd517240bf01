// The battle timer itself: the file's globals as the fields of one game
// object, the timer sequence (standby, get ready, 3-2-1, GO!, the countdown,
// game over) as methods that re-arm the one-shot `stateIsr`, the four button
// handlers, loading the settings, `setup()` and one pass of `loop()`.
//
// Callbacks are values of `Handler`; `Dispatch` runs the one a component
// hands back. Real time is the `now` parameter. The hold loop of the black
// button while paused reads the button again as time passes; whether the
// button stays down for more than three seconds is the input `heldPast3s`.

module Battlebricks {
  import opened Common
  import opened Callbacks
  import opened SoftIsr
  import opened TimerRules
  import Btn = Button
  import Bz = Buzzer
  import opened Storage
  import Gfx = Graphics
  import Web = WebInterface

  /** The settings read from the settings file at start-up. */
  datatype Settings = Settings(
    msgIntro: string, colorIntro: string, colorPre: string, colorTimer: string,
    showAuxLights: bool, showDimLights: bool, showReady: bool,
    msgRumble: string, msgGetReady: string, msgGameOver: string,
    minTime: nat, maxTime: nat, intervalTime: nat,
    preTime: nat, goTime: nat, gameOverTime: nat,
    autoReset: bool, buzzerOn: bool)

  /** Every setting as `load_settings()` derives it from the settings document. */
  function SettingsFrom(doc: Option<Web.Doc>): Settings {
    Settings(
      Web.SettingValue(doc, "msg_intro"), Web.SettingValue(doc, "color_intro"),
      Web.SettingValue(doc, "color_pre"), Web.SettingValue(doc, "color_timer"),
      Web.SettingValue(doc, "show_aux_lights") == "true", Web.SettingValue(doc, "show_dim_lights") == "true",
      Web.SettingValue(doc, "show_ready") == "true",
      Web.SettingValue(doc, "msg_rumble"), Web.SettingValue(doc, "msg_get_ready"),
      Web.SettingValue(doc, "msg_game_over"),
      MinTimeSetting(Web.SettingValue(doc, "min_time")), MaxTimeSetting(Web.SettingValue(doc, "max_time")),
      IntervalSetting(Web.SettingValue(doc, "interval_time")),
      SecondsSetting(Web.SettingValue(doc, "pre_time"), 5), SecondsSetting(Web.SettingValue(doc, "go_time"), 2),
      SecondsSetting(Web.SettingValue(doc, "game_over_time"), 5),
      Web.SettingValue(doc, "auto_reset") == "true", Web.SettingValue(doc, "buzzer_on") != "false")
  }

  /**
   * A settings file that does not parse gives the defaults: no messages,
   * red text, 0:30 to 3:00 in steps of 0:15, 5 s get-ready, 2 s GO!, 5 s
   * game over, no automatic reset, buzzer on.
   */
  lemma DefaultSettings()
    ensures SettingsFrom(None) == Settings("", "", "", "", false, false, false, "", "", "",
                                           30, 180, 15, 5, 2, 5, false, true)
  {
    assert MinTimeSetting("") == 30 && MaxTimeSetting("") == 180 && IntervalSetting("") == 15;
  }

  /** The durations always fit the 16-bit beep length: at most 9 seconds each. */
  lemma SettingsDurationsBounded(doc: Option<Web.Doc>)
    ensures var s := SettingsFrom(doc);
      s.preTime <= 9 && s.goTime <= 9 && s.gameOverTime <= 9
      && s.minTime <= 90 && 120 <= s.maxTime <= 300 && 1 <= s.intervalTime <= 30
  {
    forall key: string, d: nat | d <= 9
      ensures SecondsSetting(Web.SettingValue(doc, key), d) <= 9
    {
      var v := Web.SettingValue(doc, key);
      if v != "Off" && v != "" && IsDigit(v[0]) {
        assert DigitValue(v[0]) <= 9;
      }
    }
  }

  /** The message and colour `num_players()` scrolls for a mode. */
  function ModeBanner(mode: nat): (r: (string, string))
    ensures mode == TwoPlayer ==> r.1 == "Blue"
    ensures mode == ThreePlayer ==> r.1 == "Green"
    ensures mode != TwoPlayer && mode != ThreePlayer ==> r == ("RUMBLE MODE", "Red")
  {
    if mode == TwoPlayer then ("2 PLAYERS", "Blue")
    else if mode == ThreePlayer then ("3 PLAYERS", "Green")
    else ("RUMBLE MODE", "Red")
  }

  class Game {
    const stateIsr: SoftIsr<Handler>
    const graphics: Gfx.Graphics
    const buzzer: Bz.Buzzer
    const prefs: PersistentStorage
    const btnBlack: Btn.Button<Handler>
    const btnBlue: Btn.Button<Handler>
    const btnRed: Btn.Button<Handler>
    const btnGreen: Btn.Button<Handler>

    var state: State
    var totalTime: nat
    var mode: nat
    var cfg: Settings
    var timeRemaining: int
    var blueReady: bool
    var redReady: bool
    var greenReady: bool

    ghost predicate Valid()
      reads stateIsr, graphics.isr
    {
      && stateIsr.Valid() && graphics.Valid() && stateIsr != graphics.isr
      && btnBlack != btnBlue && btnBlack != btnRed && btnBlack != btnGreen
      && btnBlue != btnRed && btnBlue != btnGreen && btnRed != btnGreen
    }

    /** The standby screen: the total time as a static clock. */
    function StandbyText(): Gfx.TextState
      reads this
    {
      Gfx.StaticText(FormatTimeUint8(totalTime, true), cfg.colorTimer)
    }

    /** What `reset()` leaves: standby, nothing pending, nobody ready, the clock shown. */
    ghost predicate ResetDone()
      reads this, stateIsr, graphics
    {
      && state == StandbyState && !stateIsr.enabled
      && !redReady && !blueReady && !greenReady
      && !graphics.redReady && !graphics.blueReady && !graphics.greenReady
      && graphics.Text() == StandbyText() && graphics.showPlayerBar
    }

    /**
     * The firmware's globals at power-up: state STARTUP, everything else zero
     * or empty; the store holds what was saved before.
     */
    constructor (stored: map<string, string>)
      ensures Valid()
      ensures state == StartupState && totalTime == 0 && mode == 0 && timeRemaining == 0
      ensures !blueReady && !redReady && !greenReady
      ensures stateIsr.Model() == Fresh() && graphics.isr.Model() == Fresh()
      ensures prefs.entries == stored
      ensures btnBlack.pin == 5 && btnBlue.pin == 4 && btnRed.pin == 14 && btnGreen.pin == 0
      ensures buzzer.pin == 15 && buzzer.buzzerOn
      ensures fresh(stateIsr) && fresh(graphics) && fresh(graphics.isr) && fresh(buzzer) && fresh(prefs)
      ensures fresh(btnBlack) && fresh(btnBlue) && fresh(btnRed) && fresh(btnGreen)
    {
      stateIsr := new SoftIsr();
      graphics := new Gfx.Graphics();
      buzzer := new Bz.Buzzer(15, true);
      prefs := new PersistentStorage(stored);
      btnBlack := new Btn.Button(5, true);
      btnBlue := new Btn.Button(4, true);
      btnRed := new Btn.Button(14, true);
      btnGreen := new Btn.Button(0, true);
      state := StartupState;
      totalTime := 0;
      mode := 0;
      cfg := Settings("", "", "", "", false, false, false, "", "", "", 0, 0, 0, 0, 0, 0, false, false);
      timeRemaining := 0;
      blueReady := false;
      redReady := false;
      greenReady := false;
    }

    // -------------------------------------------------------------------------
    // The timer sequence

    /** `standby()`: the clock, and the player bars from now on. */
    method Standby()
      modifies graphics`textScroll, graphics`textXpos, graphics`textColor, graphics`textString
      modifies graphics`showPlayerBar
      ensures graphics.Text() == StandbyText() && graphics.showPlayerBar
    {
      graphics.TextStatic(FormatTimeUint8(totalTime, true), cfg.colorTimer);
      graphics.SetShowPlayerBar();
    }

    /** `reset()`: back to standby; the pending step is cancelled and nobody is ready. */
    method Reset()
      requires Valid()
      modifies this`state, this`redReady, this`blueReady, this`greenReady, stateIsr`enabled
      modifies graphics`redReady, graphics`blueReady, graphics`greenReady
      modifies graphics`textScroll, graphics`textXpos, graphics`textColor, graphics`textString
      modifies graphics`showPlayerBar
      ensures Valid() && ResetDone()
      ensures stateIsr.Model() == old(stateIsr.Model()).(enabled := false)
    {
      state := StandbyState;
      stateIsr.Remove();
      ClearReady();
      Standby();
    }

    /** Nobody is ready, in the game or on the display. */
    method ClearReady()
      modifies this`redReady, this`blueReady, this`greenReady
      modifies graphics`redReady, graphics`blueReady, graphics`greenReady
      ensures !redReady && !blueReady && !greenReady
      ensures !graphics.redReady && !graphics.blueReady && !graphics.greenReady
    {
      redReady := false;
      blueReady := false;
      greenReady := false;
      graphics.SetRedReady(false);
      graphics.SetBlueReady(false);
      graphics.SetGreenReady(false);
    }

    /** `post_game_over()`: reset automatically, or leave 0:00 on the screen. */
    method PostGameOver()
      requires Valid()
      modifies this`state, this`redReady, this`blueReady, this`greenReady, stateIsr`enabled
      modifies graphics`redReady, graphics`blueReady, graphics`greenReady
      modifies graphics`textScroll, graphics`textXpos, graphics`textColor, graphics`textString
      modifies graphics`showPlayerBar
      ensures Valid()
      ensures cfg.autoReset ==> ResetDone()
      ensures !cfg.autoReset ==>
        && graphics.Text() == Gfx.StaticText("0:00", cfg.colorTimer)
        && state == old(state) && stateIsr.Model() == old(stateIsr.Model())
        && redReady == old(redReady) && blueReady == old(blueReady) && greenReady == old(greenReady)
    {
      if cfg.autoReset {
        Reset();
      } else {
        graphics.TextStatic("0:00", cfg.colorTimer);
      }
    }

    /**
     * `game_over()`: the long beep and the message for the configured time,
     * then `post_game_over()`; with no game-over time, a 2 s beep and
     * `post_game_over()` at once.
     */
    method GameOver(now: nat)
      requires Valid()
      modifies this`state, this`redReady, this`blueReady, this`greenReady, stateIsr
      modifies graphics`redReady, graphics`blueReady, graphics`greenReady
      modifies graphics`textScroll, graphics`textXpos, graphics`textColor, graphics`textString
      modifies graphics`showPlayerBar, buzzer`pinHigh, buzzer`active, buzzer`timeStop
      ensures Valid()
      ensures buzzer.Model() ==
        Bz.AfterBeep(old(buzzer.Model()), if cfg.gameOverTime > 0 then cfg.gameOverTime * 1000 else 2000, now)
      ensures cfg.gameOverTime > 0 ==>
        && state == GameOverState
        && graphics.Text() == Gfx.DynamicText(cfg.msgGameOver, "Red")
        && stateIsr.Model() == ArmTimer(old(stateIsr.Model()), Handler.PostGameOver, cfg.gameOverTime * 1000, now)
      ensures cfg.gameOverTime == 0 && cfg.autoReset ==> ResetDone()
      ensures cfg.gameOverTime == 0 && !cfg.autoReset ==>
        state == GameOverState && graphics.Text() == Gfx.StaticText("0:00", cfg.colorTimer)
    {
      state := GameOverState;
      if cfg.gameOverTime > 0 {
        buzzer.Beep(cfg.gameOverTime * 1000, now);
        graphics.TextDynamic(cfg.msgGameOver, "Red");
        stateIsr.SetTimer(Handler.PostGameOver, cfg.gameOverTime * 1000, now);
      } else {
        buzzer.Beep(2000, now);
        PostGameOver();
      }
    }

    /** `pause()`: the countdown stops and the remaining time gives back GO! minus one second. */
    method Pause()
      requires Valid()
      modifies this`state, this`timeRemaining, stateIsr`enabled
      modifies graphics`textScroll, graphics`textXpos, graphics`textColor, graphics`textString
      ensures Valid()
      ensures state == PausedState && !stateIsr.enabled
      ensures timeRemaining == PausedRemaining(old(timeRemaining), cfg.goTime)
      ensures graphics.Text() == Gfx.DynamicText("PAUSED", "Yellow")
    {
      state := PausedState;
      stateIsr.Remove();
      timeRemaining := Int16(timeRemaining - cfg.goTime + 1);
      if timeRemaining < 0 {
        timeRemaining := 0;
      }
      graphics.TextDynamic("PAUSED", "Yellow");
    }

    /** `countdown_b()`: the time without colon; in 500 ms the next second, or game over. */
    method CountdownB(now: nat)
      requires Valid()
      modifies stateIsr
      modifies graphics`textScroll, graphics`textXpos, graphics`textColor, graphics`textString
      ensures Valid()
      ensures graphics.Text() == Gfx.StaticText(FormatTimeUint8(timeRemaining, false), cfg.colorTimer)
      ensures stateIsr.Model() ==
        ArmTimer(old(stateIsr.Model()), CountdownStep(Handler.CountdownB, timeRemaining).0, 500, now)
    {
      graphics.TextStatic(FormatTimeUint8(timeRemaining, false), cfg.colorTimer);
      if timeRemaining <= 1 {
        stateIsr.SetTimer(Handler.GameOver, 500, now);
      } else {
        stateIsr.SetTimer(Handler.CountdownA, 500, now);
      }
    }

    /** `countdown_a()`: one second less, shown with colon; `countdown_b()` in 500 ms. */
    method CountdownA(now: nat)
      requires Valid()
      modifies this`timeRemaining, stateIsr
      modifies graphics`textScroll, graphics`textXpos, graphics`textColor, graphics`textString
      ensures Valid()
      ensures (Handler.CountdownB, timeRemaining) == CountdownStep(Handler.CountdownA, old(timeRemaining))
      ensures graphics.Text() == Gfx.StaticText(FormatTimeUint8(timeRemaining, true), cfg.colorTimer)
      ensures stateIsr.Model() == ArmTimer(old(stateIsr.Model()), Handler.CountdownB, 500, now)
    {
      timeRemaining := Int16(timeRemaining - 1);
      graphics.TextStatic(FormatTimeUint8(timeRemaining, true), cfg.colorTimer);
      stateIsr.SetTimer(Handler.CountdownB, 500, now);
    }

    /** `pre_countdown_go()`: GO! for the configured time, then the countdown; without it, the countdown at once. */
    method PreCountdownGo(now: nat)
      requires Valid()
      modifies this`state, this`timeRemaining, stateIsr
      modifies graphics`textScroll, graphics`textXpos, graphics`textColor, graphics`textString
      modifies buzzer`pinHigh, buzzer`active, buzzer`timeStop
      ensures Valid()
      ensures state == CountdownState
      ensures buzzer.Model() ==
        Bz.AfterBeep(old(buzzer.Model()), if cfg.goTime > 0 then cfg.goTime * 1000 else 1000, now)
      ensures cfg.goTime > 0 ==>
        && graphics.Text() == Gfx.StaticText("GO!", "Green") && timeRemaining == old(timeRemaining)
        && stateIsr.Model() == ArmTimer(old(stateIsr.Model()), Handler.CountdownA, cfg.goTime * 1000, now)
      ensures cfg.goTime == 0 ==>
        && (Handler.CountdownB, timeRemaining) == CountdownStep(Handler.CountdownA, old(timeRemaining))
        && stateIsr.Model() == ArmTimer(old(stateIsr.Model()), Handler.CountdownB, 500, now)
    {
      state := CountdownState;
      if cfg.goTime > 0 {
        buzzer.Beep(cfg.goTime * 1000, now);
        graphics.TextStatic("GO!", "Green");
        stateIsr.SetTimer(Handler.CountdownA, cfg.goTime * 1000, now);
      } else {
        buzzer.Beep(1000, now);
        CountdownA(now);
      }
    }

    /** `pre_countdown_1()`: a short beep and "1"; GO! in one second. */
    method PreCountdown1(now: nat)
      requires Valid()
      modifies stateIsr, buzzer`pinHigh, buzzer`active, buzzer`timeStop
      modifies graphics`textScroll, graphics`textXpos, graphics`textColor, graphics`textString
      ensures Valid()
      ensures buzzer.Model() == Bz.AfterBeep(old(buzzer.Model()), 250, now)
      ensures graphics.Text() == Gfx.StaticText("1", cfg.colorPre)
      ensures stateIsr.Model() == ArmTimer(old(stateIsr.Model()), Handler.PreCountdownGo, 1000, now)
    {
      buzzer.Beep(250, now);
      graphics.TextStatic("1", cfg.colorPre);
      stateIsr.SetTimer(Handler.PreCountdownGo, 1000, now);
    }

    /** `pre_countdown_2()`: a short beep and "2"; "1" in one second. */
    method PreCountdown2(now: nat)
      requires Valid()
      modifies stateIsr, buzzer`pinHigh, buzzer`active, buzzer`timeStop
      modifies graphics`textScroll, graphics`textXpos, graphics`textColor, graphics`textString
      ensures Valid()
      ensures buzzer.Model() == Bz.AfterBeep(old(buzzer.Model()), 250, now)
      ensures graphics.Text() == Gfx.StaticText("2", cfg.colorPre)
      ensures stateIsr.Model() == ArmTimer(old(stateIsr.Model()), Handler.PreCountdown1, 1000, now)
    {
      buzzer.Beep(250, now);
      graphics.TextStatic("2", cfg.colorPre);
      stateIsr.SetTimer(Handler.PreCountdown1, 1000, now);
    }

    /** `pre_countdown_3()`: a short beep and "3"; "2" in one second. */
    method PreCountdown3(now: nat)
      requires Valid()
      modifies stateIsr, buzzer`pinHigh, buzzer`active, buzzer`timeStop
      modifies graphics`textScroll, graphics`textXpos, graphics`textColor, graphics`textString
      ensures Valid()
      ensures buzzer.Model() == Bz.AfterBeep(old(buzzer.Model()), 250, now)
      ensures graphics.Text() == Gfx.StaticText("3", cfg.colorPre)
      ensures stateIsr.Model() == ArmTimer(old(stateIsr.Model()), Handler.PreCountdown2, 1000, now)
    {
      buzzer.Beep(250, now);
      graphics.TextStatic("3", cfg.colorPre);
      stateIsr.SetTimer(Handler.PreCountdown2, 1000, now);
    }

    /** `pre_countdown_msg()`: the get-ready message for the configured time, then "3"; without it, "3" at once. */
    method PreCountdownMsg(now: nat)
      requires Valid()
      modifies this`state, stateIsr, buzzer`pinHigh, buzzer`active, buzzer`timeStop
      modifies graphics`textScroll, graphics`textXpos, graphics`textColor, graphics`textString
      ensures Valid()
      ensures state == PreState
      ensures cfg.preTime > 0 ==>
        && graphics.Text() == Gfx.DynamicText(cfg.msgGetReady, cfg.colorPre)
        && stateIsr.Model() == ArmTimer(old(stateIsr.Model()), Handler.PreCountdown3, cfg.preTime * 1000, now)
        && buzzer.Model() == old(buzzer.Model())
      ensures cfg.preTime == 0 ==>
        && graphics.Text() == Gfx.StaticText("3", cfg.colorPre)
        && stateIsr.Model() == ArmTimer(old(stateIsr.Model()), Handler.PreCountdown2, 1000, now)
        && buzzer.Model() == Bz.AfterBeep(old(buzzer.Model()), 250, now)
    {
      state := PreState;
      if cfg.preTime > 0 {
        graphics.TextDynamic(cfg.msgGetReady, cfg.colorPre);
        stateIsr.SetTimer(Handler.PreCountdown3, cfg.preTime * 1000, now);
      } else {
        PreCountdown3(now);
      }
    }

    /** `ready()`: sets the time left and starts the get-ready sequence. */
    method Ready(now: nat)
      requires Valid()
      modifies this`state, this`timeRemaining, stateIsr, buzzer`pinHigh, buzzer`active, buzzer`timeStop
      modifies graphics`textScroll, graphics`textXpos, graphics`textColor, graphics`textString
      ensures Valid()
      ensures state == PreState && timeRemaining == StartRemaining(totalTime, cfg.goTime)
      ensures cfg.preTime > 0 ==>
        && graphics.Text() == Gfx.DynamicText(cfg.msgGetReady, cfg.colorPre)
        && stateIsr.Model() == ArmTimer(old(stateIsr.Model()), Handler.PreCountdown3, cfg.preTime * 1000, now)
      ensures cfg.preTime == 0 ==>
        && graphics.Text() == Gfx.StaticText("3", cfg.colorPre)
        && stateIsr.Model() == ArmTimer(old(stateIsr.Model()), Handler.PreCountdown2, 1000, now)
    {
      timeRemaining := StartRemaining(totalTime, cfg.goTime);
      PreCountdownMsg(now);
    }

    /** `rumble()`: the rumble message; the game starts when it has scrolled past. */
    method Rumble()
      requires Valid()
      modifies graphics`textScroll, graphics`textXpos, graphics`textColor, graphics`textString, graphics.isr
      ensures Valid()
      ensures graphics.Text() == Gfx.DynamicText(cfg.msgRumble, "Red")
      ensures graphics.isr.Model() == ArmTrigger(old(graphics.isr.Model()), Handler.Ready)
    {
      graphics.TextDynamicThen(cfg.msgRumble, "Red", Handler.Ready);
    }

    /** `num_players()`: standby, with the mode scrolling once before the clock. */
    method NumPlayers()
      requires Valid()
      modifies this`state
      modifies graphics`textScroll, graphics`textXpos, graphics`textColor, graphics`textString, graphics.isr
      ensures Valid()
      ensures state == StandbyState
      ensures graphics.Text() == Gfx.DynamicText(ModeBanner(mode).0, ModeBanner(mode).1)
      ensures graphics.isr.Model() == ArmTrigger(old(graphics.isr.Model()), Handler.Standby)
    {
      state := StandbyState;
      if mode == TwoPlayer {
        graphics.TextDynamicThen("2 PLAYERS", "Blue", Handler.Standby);
      } else if mode == ThreePlayer {
        graphics.TextDynamicThen("3 PLAYERS", "Green", Handler.Standby);
      } else {
        graphics.TextDynamicThen("RUMBLE MODE", "Red", Handler.Standby);
      }
    }

    /** `intro()`: the intro message, then the number of players. */
    method Intro()
      requires Valid()
      modifies graphics`textScroll, graphics`textXpos, graphics`textColor, graphics`textString, graphics.isr
      ensures Valid()
      ensures graphics.Text() == Gfx.DynamicText(cfg.msgIntro, cfg.colorIntro)
      ensures graphics.isr.Model() == ArmTrigger(old(graphics.isr.Model()), Handler.NumPlayers)
    {
      graphics.TextDynamicThen(cfg.msgIntro, cfg.colorIntro, Handler.NumPlayers);
    }

    /**
     * `check_players_ready()`: starts the game once everyone the mode needs
     * is ready, shows the clock otherwise, and does nothing in rumble mode.
     */
    method CheckPlayersReady(now: nat)
      requires Valid()
      modifies this`state, this`timeRemaining, stateIsr, buzzer`pinHigh, buzzer`active, buzzer`timeStop
      modifies graphics`textScroll, graphics`textXpos, graphics`textColor, graphics`textString
      modifies graphics`showPlayerBar
      ensures Valid()
      ensures PlayersReady(mode, blueReady, greenReady, redReady) == Some(true) ==>
        state == PreState && timeRemaining == StartRemaining(totalTime, cfg.goTime)
      ensures PlayersReady(mode, blueReady, greenReady, redReady) == Some(true) && cfg.preTime > 0 ==>
        && graphics.Text() == Gfx.DynamicText(cfg.msgGetReady, cfg.colorPre)
        && stateIsr.Model() == ArmTimer(old(stateIsr.Model()), Handler.PreCountdown3, cfg.preTime * 1000, now)
      ensures PlayersReady(mode, blueReady, greenReady, redReady) == Some(true) && cfg.preTime == 0 ==>
        && graphics.Text() == Gfx.StaticText("3", cfg.colorPre)
        && stateIsr.Model() == ArmTimer(old(stateIsr.Model()), Handler.PreCountdown2, 1000, now)
      ensures PlayersReady(mode, blueReady, greenReady, redReady) != Some(true) ==>
        && state == old(state) && timeRemaining == old(timeRemaining)
        && stateIsr.Model() == old(stateIsr.Model()) && buzzer.Model() == old(buzzer.Model())
      ensures PlayersReady(mode, blueReady, greenReady, redReady) == Some(false) ==>
        graphics.Text() == StandbyText()
      ensures PlayersReady(mode, blueReady, greenReady, redReady).None? ==>
        graphics.Text() == old(graphics.Text())
    {
      if mode == ThreePlayer {
        if blueReady && greenReady && redReady {
          state := PreState;
          Ready(now);
        } else {
          Standby();
        }
      } else if mode == TwoPlayer {
        if blueReady && redReady {
          state := PreState;
          Ready(now);
        } else {
          Standby();
        }
      }
    }

    // -------------------------------------------------------------------------
    // Buttons

    /**
     * The black button: skip the intro, pause, resume, or reset, by state.
     * While paused, a press resumes unless the button is still down (it never
     * is inside the press callback, see `ButtonHandle`) and stays down past
     * three seconds, which resets.
     */
    method BlackBtnPress(now: nat, heldPast3s: bool)
      requires Valid()
      modifies this`state, this`timeRemaining, this`redReady, this`blueReady, this`greenReady, stateIsr
      modifies graphics`redReady, graphics`blueReady, graphics`greenReady, graphics`showPlayerBar
      modifies graphics`textScroll, graphics`textXpos, graphics`textColor, graphics`textString, graphics.isr
      modifies buzzer`pinHigh, buzzer`active, buzzer`timeStop
      ensures Valid()
      ensures old(state) == StartupState ==>
        && state == StandbyState
        && graphics.Text() == Gfx.DynamicText(ModeBanner(mode).0, ModeBanner(mode).1)
        && graphics.isr.Model() == ArmTrigger(old(graphics.isr.Model()), Handler.Standby)
        && buzzer.Model() == Bz.AfterBeep(old(buzzer.Model()), Bz.ShortBeepLength, now)
      ensures old(state) == StandbyState ==>
        && state == StandbyState && graphics.Text() == StandbyText()
        && stateIsr.Model() == old(stateIsr.Model()) && buzzer.Model() == old(buzzer.Model())
      ensures old(state) == PreState ==>
        ResetDone() && buzzer.Model() == Bz.AfterBeep(old(buzzer.Model()), 1000, now)
      ensures old(state) == GameOverState ==>
        ResetDone() && buzzer.Model() == Bz.AfterBeep(old(buzzer.Model()), 250, now)
      ensures old(state) == CountdownState ==>
        && state == PausedState && !stateIsr.enabled
        && timeRemaining == PausedRemaining(old(timeRemaining), cfg.goTime)
        && graphics.Text() == Gfx.DynamicText("PAUSED", "Yellow")
        && buzzer.Model() == Bz.AfterBeep(old(buzzer.Model()), 1000, now)
      ensures old(state) == PausedState ==>
        if btnBlack.Get() && heldPast3s then ResetDone() else state == PreState
      ensures old(state) == PausedState && !(btnBlack.Get() && heldPast3s) && cfg.preTime > 0 ==>
        && graphics.Text() == Gfx.DynamicText(cfg.msgGetReady, cfg.colorPre)
        && stateIsr.Model() == ArmTimer(old(stateIsr.Model()), Handler.PreCountdown3, cfg.preTime * 1000, now)
      ensures old(state) == PausedState && !(btnBlack.Get() && heldPast3s) && cfg.preTime == 0 ==>
        && graphics.Text() == Gfx.StaticText("3", cfg.colorPre)
        && stateIsr.Model() == ArmTimer(old(stateIsr.Model()), Handler.PreCountdown2, 1000, now)
    {
      match state {
        case StartupState =>
          SkipIntro(now);
        case StandbyState =>
          Standby();
        case PreState =>
          BeepAndReset(1000, now);
        case CountdownState =>
          CountdownPress(now);
        case PausedState =>
          PausedPress(now, btnBlack.Get() && heldPast3s);
        case GameOverState =>
          BeepAndReset(250, now);
      }
    }

    /** The black button before the countdown or after the game: a beep of `length` ms, then a reset. */
    method BeepAndReset(length: nat, now: nat)
      requires Valid()
      modifies this`state, this`redReady, this`blueReady, this`greenReady, stateIsr`enabled
      modifies graphics`redReady, graphics`blueReady, graphics`greenReady, graphics`showPlayerBar
      modifies graphics`textScroll, graphics`textXpos, graphics`textColor, graphics`textString
      modifies buzzer`pinHigh, buzzer`active, buzzer`timeStop
      ensures Valid() && ResetDone()
      ensures buzzer.Model() == Bz.AfterBeep(old(buzzer.Model()), length, now)
    {
      buzzer.Beep(length, now);
      Reset();
    }

    /** The black button during the intro: a short beep, then the mode banner and standby. */
    method SkipIntro(now: nat)
      requires Valid()
      modifies this`state, buzzer`pinHigh, buzzer`active, buzzer`timeStop
      modifies graphics`textScroll, graphics`textXpos, graphics`textColor, graphics`textString, graphics.isr
      ensures Valid()
      ensures state == StandbyState
      ensures graphics.Text() == Gfx.DynamicText(ModeBanner(mode).0, ModeBanner(mode).1)
      ensures graphics.isr.Model() == ArmTrigger(old(graphics.isr.Model()), Handler.Standby)
      ensures buzzer.Model() == Bz.AfterBeep(old(buzzer.Model()), Bz.ShortBeepLength, now)
    {
      buzzer.BeepShort(now);
      NumPlayers();
    }

    /** The black button during the countdown: a 1000 ms beep, then pause. */
    method CountdownPress(now: nat)
      requires Valid()
      modifies this`state, this`timeRemaining, stateIsr`enabled, buzzer`pinHigh, buzzer`active, buzzer`timeStop
      modifies graphics`textScroll, graphics`textXpos, graphics`textColor, graphics`textString
      ensures Valid()
      ensures state == PausedState && !stateIsr.enabled
      ensures timeRemaining == PausedRemaining(old(timeRemaining), cfg.goTime)
      ensures graphics.Text() == Gfx.DynamicText("PAUSED", "Yellow")
      ensures buzzer.Model() == Bz.AfterBeep(old(buzzer.Model()), 1000, now)
    {
      buzzer.Beep(1000, now);
      Pause();
    }

    /** The black button while paused: reset when it was held, resume otherwise. */
    method PausedPress(now: nat, resetFlag: bool)
      requires Valid()
      modifies this`state, this`redReady, this`blueReady, this`greenReady, stateIsr
      modifies graphics`redReady, graphics`blueReady, graphics`greenReady, graphics`showPlayerBar
      modifies graphics`textScroll, graphics`textXpos, graphics`textColor, graphics`textString, graphics.isr
      modifies buzzer`pinHigh, buzzer`active, buzzer`timeStop
      ensures Valid()
      ensures resetFlag ==> ResetDone() && buzzer.Model() == Bz.AfterBeep(old(buzzer.Model()), 250, now)
      ensures !resetFlag ==> state == PreState
      ensures !resetFlag && cfg.preTime > 0 ==>
        && graphics.Text() == Gfx.DynamicText(cfg.msgGetReady, cfg.colorPre)
        && stateIsr.Model() == ArmTimer(old(stateIsr.Model()), Handler.PreCountdown3, cfg.preTime * 1000, now)
        && buzzer.Model() == Bz.AfterBeep(old(buzzer.Model()), Bz.ShortBeepLength, now)
      ensures !resetFlag && cfg.preTime == 0 ==>
        && graphics.Text() == Gfx.StaticText("3", cfg.colorPre)
        && stateIsr.Model() == ArmTimer(old(stateIsr.Model()), Handler.PreCountdown2, 1000, now)
        && buzzer.Model() == Bz.AfterBeep(Bz.AfterBeep(old(buzzer.Model()), Bz.ShortBeepLength, now), 250, now)
    {
      if resetFlag {
        buzzer.Beep(250, now);
        Reset();
      } else {
        buzzer.BeepShort(now);
        PreCountdownMsg(now);
      }
    }

    /**
     * The green button, in standby only. Alone, it toggles the green player
     * in three-player mode. With black held, it steps the total time and
     * stores it.
     */
    method GreenBtnPress(now: nat)
      requires Valid()
      modifies this`state, this`timeRemaining, this`greenReady, this`totalTime, stateIsr, prefs
      modifies graphics`greenReady, graphics`showPlayerBar
      modifies graphics`textScroll, graphics`textXpos, graphics`textColor, graphics`textString, graphics.isr
      modifies buzzer`pinHigh, buzzer`active, buzzer`timeStop, buzzer`double
      ensures Valid()
      ensures old(state) != StandbyState ==>
        && state == old(state) && greenReady == old(greenReady) && totalTime == old(totalTime)
        && prefs.entries == old(prefs.entries) && buzzer.Model() == old(buzzer.Model())
        && graphics.Text() == old(graphics.Text()) && stateIsr.Model() == old(stateIsr.Model())
      ensures old(state) == StandbyState && btnBlack.Get() ==>
        && totalTime == NextTotalTime(old(totalTime), cfg.intervalTime, cfg.minTime, cfg.maxTime)
        && prefs.entries == old(prefs.entries)["total_time" := NatToString(totalTime)]
        && graphics.Text() == StandbyText() && greenReady == old(greenReady)
      ensures old(state) == StandbyState && !btnBlack.Get() ==>
        && greenReady == (old(greenReady) != (mode == ThreePlayer)) && totalTime == old(totalTime)
      ensures old(state) == StandbyState && !btnBlack.Get() && mode != ThreePlayer ==>
        state == old(state) && buzzer.Model() == old(buzzer.Model())
    {
      if state == StandbyState {
        if !btnBlack.Get() {
          if mode == ThreePlayer {
            ToggleGreen(now);
          }
        } else {
          ChangeTotalTime(now);
        }
      }
    }

    /**
     * The green button alone in three-player mode: the green player's ready
     * flag flips, and a player who becomes ready is announced or, without
     * announcements, may start the game.
     */
    method ToggleGreen(now: nat)
      requires Valid() && state == StandbyState && mode == ThreePlayer
      modifies this`state, this`timeRemaining, this`greenReady, stateIsr
      modifies graphics`greenReady, graphics`showPlayerBar
      modifies graphics`textScroll, graphics`textXpos, graphics`textColor, graphics`textString, graphics.isr
      modifies buzzer`pinHigh, buzzer`active, buzzer`timeStop, buzzer`double
      ensures Valid()
      ensures greenReady == !old(greenReady) && graphics.greenReady == greenReady
      ensures state == StandbyState ==> buzzer.Model() == Bz.AfterBeepDouble(old(buzzer.Model()), now)
      ensures greenReady && cfg.showReady ==>
        && graphics.Text() == Gfx.DynamicText("GREEN READY", "Green")
        && graphics.isr.Model() == ArmTrigger(old(graphics.isr.Model()), Handler.CheckPlayersReady)
      ensures greenReady && !cfg.showReady ==> (state == PreState <==> blueReady && redReady)
    {
      buzzer.BeepDouble(now);
      // The firmware tests for rumble mode here too; in three-player mode that test is always false.
      if greenReady {
        greenReady := false;
        graphics.SetGreenReady(false);
      } else {
        greenReady := true;
        graphics.SetGreenReady(true);
        if cfg.showReady {
          graphics.TextDynamicThen("GREEN READY", "Green", Handler.CheckPlayersReady);
        } else {
          CheckPlayersReady(now);
        }
      }
    }

    /** The green button with black held: the total time steps on, is stored and shown. */
    method ChangeTotalTime(now: nat)
      modifies this`totalTime, prefs
      modifies graphics`showPlayerBar
      modifies graphics`textScroll, graphics`textXpos, graphics`textColor, graphics`textString
      modifies buzzer`pinHigh, buzzer`active, buzzer`timeStop
      ensures totalTime == NextTotalTime(old(totalTime), cfg.intervalTime, cfg.minTime, cfg.maxTime)
      ensures prefs.entries == old(prefs.entries)["total_time" := NatToString(totalTime)]
      ensures graphics.Text() == StandbyText() && graphics.showPlayerBar
      ensures buzzer.Model() == Bz.AfterBeep(old(buzzer.Model()), Bz.ShortBeepLength, now)
    {
      buzzer.BeepShort(now);
      totalTime := NextTotalTime(totalTime, cfg.intervalTime, cfg.minTime, cfg.maxTime);
      var _ := prefs.Set("total_time", NatToString(totalTime));
      Standby();
    }

    /**
     * The blue button, in standby only. Alone, it starts rumble mode or
     * toggles the blue player. With black held, it steps the brightness and
     * stores it.
     */
    method BlueBtnPress(now: nat)
      requires Valid()
      modifies this`state, this`timeRemaining, this`blueReady, stateIsr, prefs
      modifies graphics`blueReady, graphics`showPlayerBar, graphics`brightness, graphics`showBrightness
      modifies graphics`textScroll, graphics`textXpos, graphics`textColor, graphics`textString, graphics.isr
      modifies buzzer`pinHigh, buzzer`active, buzzer`timeStop, buzzer`double
      ensures Valid()
      ensures old(state) != StandbyState ==>
        && state == old(state) && blueReady == old(blueReady) && prefs.entries == old(prefs.entries)
        && buzzer.Model() == old(buzzer.Model()) && graphics.brightness == old(graphics.brightness)
        && graphics.Text() == old(graphics.Text()) && stateIsr.Model() == old(stateIsr.Model())
      ensures old(state) == StandbyState && btnBlack.Get() ==>
        && graphics.brightness == Gfx.NextBrightness(old(graphics.brightness)) && graphics.showBrightness
        && prefs.entries == old(prefs.entries)["brightness" := NatToString(graphics.brightness)]
        && blueReady == old(blueReady)
      ensures old(state) == StandbyState && !btnBlack.Get() ==>
        && graphics.brightness == old(graphics.brightness)
        && blueReady == (old(blueReady) != (mode != TimerRules.Rumble))
    {
      if state == StandbyState {
        if !btnBlack.Get() {
          ToggleBlue(now);
        } else {
          StepBrightness(now);
        }
      }
    }

    /**
     * The blue button alone in standby: rumble mode starts its message;
     * otherwise the blue player's ready flag flips, and a player who
     * becomes ready is announced or, without announcements, may start the game.
     */
    method ToggleBlue(now: nat)
      requires Valid() && state == StandbyState
      modifies this`state, this`timeRemaining, this`blueReady, stateIsr
      modifies graphics`blueReady, graphics`showPlayerBar
      modifies graphics`textScroll, graphics`textXpos, graphics`textColor, graphics`textString, graphics.isr
      modifies buzzer`pinHigh, buzzer`active, buzzer`timeStop, buzzer`double
      ensures Valid()
      ensures state == StandbyState ==> buzzer.Model() == Bz.AfterBeepDouble(old(buzzer.Model()), now)
      ensures mode == TimerRules.Rumble ==>
        && blueReady == old(blueReady) && state == StandbyState
        && graphics.Text() == Gfx.DynamicText(cfg.msgRumble, "Red")
        && graphics.isr.Model() == ArmTrigger(old(graphics.isr.Model()), Handler.Ready)
      ensures mode != TimerRules.Rumble ==> blueReady == !old(blueReady) && graphics.blueReady == blueReady
      ensures mode != TimerRules.Rumble && blueReady && cfg.showReady ==>
        && graphics.Text() == Gfx.DynamicText("BLUE READY", "Blue")
        && graphics.isr.Model() == ArmTrigger(old(graphics.isr.Model()), Handler.CheckPlayersReady)
      ensures mode != TimerRules.Rumble && blueReady && !cfg.showReady ==>
        (state == PreState <==> PlayersReady(mode, blueReady, greenReady, redReady) == Some(true))
    {
      buzzer.BeepDouble(now);
      if mode == TimerRules.Rumble {
        Rumble();
      } else if blueReady {
        blueReady := false;
        graphics.SetBlueReady(false);
      } else {
        blueReady := true;
        graphics.SetBlueReady(true);
        if cfg.showReady {
          graphics.TextDynamicThen("BLUE READY", "Blue", Handler.CheckPlayersReady);
        } else {
          CheckPlayersReady(now);
        }
      }
    }

    /** The blue button with black held: the next brightness, shown for a second and stored. */
    method StepBrightness(now: nat)
      requires Valid()
      modifies prefs, graphics`brightness, graphics`showBrightness, graphics.isr
      modifies buzzer`pinHigh, buzzer`active, buzzer`timeStop
      ensures Valid()
      ensures graphics.brightness == Gfx.NextBrightness(old(graphics.brightness)) && graphics.showBrightness
      ensures prefs.entries == old(prefs.entries)["brightness" := NatToString(graphics.brightness)]
      ensures graphics.isr.Model() == ArmTimer(old(graphics.isr.Model()), Handler.ShowBrightnessOff, 1000, now)
      ensures buzzer.Model() == Bz.AfterBeep(old(buzzer.Model()), Bz.ShortBeepLength, now)
    {
      buzzer.BeepShort(now);
      var b := graphics.ChangeBrightness(now);
      var _ := prefs.Set("brightness", NatToString(b));
    }

    /**
     * The red button, in standby only. Alone, it starts rumble mode or
     * toggles the red player. With black held, it moves to the next mode,
     * stores it and clears the game's ready flags (the display's bars are
     * left as they were).
     */
    method RedBtnPress(now: nat)
      requires Valid()
      modifies this`state, this`timeRemaining, this`redReady, this`blueReady, this`greenReady, this`mode
      modifies stateIsr, prefs
      modifies graphics`redReady, graphics`showPlayerBar, graphics`threePlayers, graphics`rumbleMode
      modifies graphics`textScroll, graphics`textXpos, graphics`textColor, graphics`textString, graphics.isr
      modifies buzzer`pinHigh, buzzer`active, buzzer`timeStop, buzzer`double
      ensures Valid()
      ensures old(state) != StandbyState ==>
        && state == old(state) && redReady == old(redReady) && mode == old(mode)
        && prefs.entries == old(prefs.entries) && buzzer.Model() == old(buzzer.Model())
        && graphics.Text() == old(graphics.Text()) && stateIsr.Model() == old(stateIsr.Model())
      ensures old(state) == StandbyState && btnBlack.Get() ==>
        && mode == NextMode(old(mode)).0
        && prefs.entries == old(prefs.entries)["mode" := NextMode(old(mode)).1]
        && !redReady && !blueReady && !greenReady && graphics.redReady == old(graphics.redReady)
        && state == StandbyState
        && graphics.Text() == Gfx.DynamicText(ModeBanner(mode).0, ModeBanner(mode).1)
      ensures old(state) == StandbyState && !btnBlack.Get() ==>
        && mode == old(mode)
        && redReady == (old(redReady) != (mode != TimerRules.Rumble))
    {
      if state == StandbyState {
        if !btnBlack.Get() {
          ToggleRed(now);
        } else {
          ChangeMode(now);
        }
      }
    }

    /**
     * The red button alone in standby: rumble mode starts its message;
     * otherwise the red player's ready flag flips, and a player who
     * becomes ready is announced or, without announcements, may start the game.
     */
    method ToggleRed(now: nat)
      requires Valid() && state == StandbyState
      modifies this`state, this`timeRemaining, this`redReady, stateIsr
      modifies graphics`redReady, graphics`showPlayerBar
      modifies graphics`textScroll, graphics`textXpos, graphics`textColor, graphics`textString, graphics.isr
      modifies buzzer`pinHigh, buzzer`active, buzzer`timeStop, buzzer`double
      ensures Valid()
      ensures state == StandbyState ==> buzzer.Model() == Bz.AfterBeepDouble(old(buzzer.Model()), now)
      ensures mode == TimerRules.Rumble ==>
        && redReady == old(redReady) && state == StandbyState
        && graphics.Text() == Gfx.DynamicText(cfg.msgRumble, "Red")
        && graphics.isr.Model() == ArmTrigger(old(graphics.isr.Model()), Handler.Ready)
      ensures mode != TimerRules.Rumble ==> redReady == !old(redReady) && graphics.redReady == redReady
      ensures mode != TimerRules.Rumble && redReady && cfg.showReady ==>
        && graphics.Text() == Gfx.DynamicText("RED READY", "Red")
        && graphics.isr.Model() == ArmTrigger(old(graphics.isr.Model()), Handler.CheckPlayersReady)
      ensures mode != TimerRules.Rumble && redReady && !cfg.showReady ==>
        (state == PreState <==> PlayersReady(mode, blueReady, greenReady, redReady) == Some(true))
    {
      buzzer.BeepDouble(now);
      if mode == TimerRules.Rumble {
        Rumble();
      } else if redReady {
        redReady := false;
        graphics.SetRedReady(false);
      } else {
        redReady := true;
        graphics.SetRedReady(true);
        if cfg.showReady {
          graphics.TextDynamicThen("RED READY", "Red", Handler.CheckPlayersReady);
        } else {
          CheckPlayersReady(now);
        }
      }
    }

    /**
     * The red button with black held: the next mode, stored; the game's ready
     * flags cleared (the display's are not); the new mode scrolls once.
     */
    method ChangeMode(now: nat)
      requires Valid()
      modifies this`state, this`redReady, this`blueReady, this`greenReady, this`mode, prefs
      modifies graphics`threePlayers, graphics`rumbleMode
      modifies graphics`textScroll, graphics`textXpos, graphics`textColor, graphics`textString, graphics.isr
      modifies buzzer`pinHigh, buzzer`active, buzzer`timeStop
      ensures Valid()
      ensures mode == NextMode(old(mode)).0
      ensures prefs.entries == old(prefs.entries)["mode" := NextMode(old(mode)).1]
      ensures !redReady && !blueReady && !greenReady
      ensures graphics.threePlayers == (mode == ThreePlayer) && graphics.rumbleMode == (mode == TimerRules.Rumble)
      ensures state == StandbyState
      ensures graphics.Text() == Gfx.DynamicText(ModeBanner(mode).0, ModeBanner(mode).1)
      ensures graphics.isr.Model() == ArmTrigger(old(graphics.isr.Model()), Handler.Standby)
      ensures buzzer.Model() == Bz.AfterBeep(old(buzzer.Model()), Bz.ShortBeepLength, now)
    {
      buzzer.BeepShort(now);
      var next := NextMode(mode);
      mode := next.0;
      var _ := prefs.Set("mode", next.1);
      redReady := false;
      blueReady := false;
      greenReady := false;
      graphics.SetThreePlayers(mode == ThreePlayer);
      graphics.SetRumbleMode(mode == TimerRules.Rumble);
      NumPlayers();
    }

    // -------------------------------------------------------------------------
    // Running callbacks

    /** Runs a callback handed back by a timer, the display or a button. */
    method Dispatch(h: Handler, now: nat, heldPast3s: bool)
      requires Valid()
      modifies this, stateIsr, graphics, graphics.isr, buzzer, prefs
      ensures Valid()
      ensures h == Handler.BlackBtnPress && old(state) == PausedState && !btnBlack.Get() ==> state == PreState
      ensures h == Handler.ShowBrightnessOff ==>
        && !graphics.showBrightness && graphics.Text() == old(graphics.Text())
        && graphics.isr.Model() == old(graphics.isr.Model())
    {
      match h {
        case ShowBrightnessOff => graphics.ShowBrightnessOff();
        case PostGameOver => PostGameOver();
        case GameOver => GameOver(now);
        case CountdownB => CountdownB(now);
        case CountdownA => CountdownA(now);
        case PreCountdownGo => PreCountdownGo(now);
        case PreCountdown1 => PreCountdown1(now);
        case PreCountdown2 => PreCountdown2(now);
        case PreCountdown3 => PreCountdown3(now);
        case Ready => Ready(now);
        case Standby => Standby();
        case NumPlayers => NumPlayers();
        case CheckPlayersReady => CheckPlayersReady(now);
        case BlackBtnPress => BlackBtnPress(now, heldPast3s);
        case GreenBtnPress => GreenBtnPress(now);
        case BlueBtnPress => BlueBtnPress(now);
        case RedBtnPress => RedBtnPress(now);
      }
    }

    /**
     * `handle()` of one button: the callback of an accepted edge runs before
     * the button records the new level, so inside a press callback the button
     * still reads as released.
     */
    method ButtonHandle(b: Btn.Button<Handler>, level: bool, now: nat, heldPast3s: bool)
      requires Valid()
      requires b == btnBlack || b == btnBlue || b == btnRed || b == btnGreen
      modifies this, stateIsr, graphics, graphics.isr, buzzer, prefs, b`currentState, b`lastChange
      ensures Valid()
      ensures b.State() == Btn.Poll(old(b.State()), level, now)
      ensures (b == btnBlack && old(b.posedgeCb) == Some(Handler.BlackBtnPress) && old(state) == PausedState
               && Btn.Accepts(old(b.State()), level, now) && Btn.Pressed(level)) ==> state == PreState
    {
      var cb := b.Callback(level, now);
      if cb.Some? {
        Dispatch(cb.value, now, heldPast3s);
      }
      b.Settle(level, now);
    }

    /**
     * `graphics.handle()`: the display's timer first, then, unless the
     * brightness is on show, one step of the text (whose wrap may run the
     * scroll callback) and the player bars. Returns the bars drawn.
     */
    method GraphicsHandle(now: nat, heldPast3s: bool) returns (lights: Option<Gfx.Lights>)
      requires Valid()
      modifies this, stateIsr, graphics, graphics.isr, buzzer, prefs
      ensures Valid()
      ensures old(graphics.showBrightness) && !Due(old(graphics.isr.Model()), now) ==>
        lights.None? && graphics.Text() == old(graphics.Text())
      ensures !old(graphics.showBrightness) && !Due(old(graphics.isr.Model()), now)
              && !Gfx.DrawStep(old(graphics.Text())).1 ==>
        && graphics.Text() == Gfx.DrawStep(old(graphics.Text())).0
        && (lights.Some? <==> graphics.showPlayerBar)
      ensures old(graphics.showBrightness) && Due(old(graphics.isr.Model()), now)
              && old(graphics.isr.Model()).callback == Some(Handler.ShowBrightnessOff)
              && !Gfx.DrawStep(old(graphics.Text())).1 ==>
        && !graphics.showBrightness
        && graphics.Text() == Gfx.DrawStep(old(graphics.Text())).0
        && (lights.Some? <==> graphics.showPlayerBar)
    {
      var fired := graphics.isr.Handle(now);
      if fired.Some? {
        Dispatch(fired.value, now, heldPast3s);
      }
      lights := None;
      if !graphics.showBrightness {
        var wrapped := graphics.DrawText();
        if wrapped.Some? {
          Dispatch(wrapped.value, now, heldPast3s);
        }
        if graphics.showPlayerBar {
          var l := graphics.DrawPlayersReady();
          lights := Some(l);
        }
      }
    }

    /**
     * One pass of `loop()`: the state timer, the four buttons in the order
     * black, blue, red, green, the display, then the buzzer. Each button's
     * debounce state changes only by its own reading.
     */
    method Loop(now: nat, black: bool, blue: bool, red: bool, green: bool, heldPast3s: bool)
      requires Valid()
      modifies this, stateIsr, graphics, graphics.isr, buzzer, prefs
      modifies btnBlack`currentState, btnBlack`lastChange, btnBlue`currentState, btnBlue`lastChange
      modifies btnRed`currentState, btnRed`lastChange, btnGreen`currentState, btnGreen`lastChange
      ensures Valid()
      ensures btnBlack.State() == Btn.Poll(old(btnBlack.State()), black, now)
      ensures btnBlue.State() == Btn.Poll(old(btnBlue.State()), blue, now)
      ensures btnRed.State() == Btn.Poll(old(btnRed.State()), red, now)
      ensures btnGreen.State() == Btn.Poll(old(btnGreen.State()), green, now)
    {
      var fired := stateIsr.Handle(now);
      if fired.Some? {
        Dispatch(fired.value, now, heldPast3s);
      }
      ButtonHandle(btnBlack, black, now, heldPast3s);
      ButtonHandle(btnBlue, blue, now, heldPast3s);
      ButtonHandle(btnRed, red, now, heldPast3s);
      ButtonHandle(btnGreen, green, now, heldPast3s);
      var _ := GraphicsHandle(now, heldPast3s);
      buzzer.Handle(now);
    }

    // -------------------------------------------------------------------------
    // Start-up

    /**
     * `load_settings()`: the settings file's values with their defaults, then
     * the stored total time clamped to the configured range, the stored
     * brightness and the stored mode.
     */
    method LoadSettings(doc: Option<Web.Doc>)
      modifies this`cfg, this`totalTime, this`mode
      modifies graphics`showAuxLights, graphics`showDimLights, graphics`brightness
      modifies graphics`threePlayers, graphics`rumbleMode, buzzer`buzzerOn
      ensures cfg == SettingsFrom(doc)
      ensures graphics.showAuxLights == cfg.showAuxLights && graphics.showDimLights == cfg.showDimLights
      ensures buzzer.buzzerOn == cfg.buzzerOn
      ensures totalTime == TotalTimeSetting(prefs.Get("total_time"), cfg.minTime, cfg.maxTime)
      ensures graphics.brightness == Gfx.BrightnessSetting(prefs.Get("brightness"))
      ensures mode == ModeSetting(prefs.Get("mode"))
      ensures graphics.threePlayers == (mode == ThreePlayer) && graphics.rumbleMode == (mode == TimerRules.Rumble)
    {
      LoadFileSettings(doc);
      LoadStoredSettings();
    }

    /** The first half of `load_settings()`: every value of the settings file, or its default. */
    method LoadFileSettings(doc: Option<Web.Doc>)
      modifies this`cfg, graphics`showAuxLights, graphics`showDimLights, buzzer`buzzerOn
      ensures cfg == SettingsFrom(doc)
      ensures graphics.showAuxLights == cfg.showAuxLights && graphics.showDimLights == cfg.showDimLights
      ensures buzzer.buzzerOn == cfg.buzzerOn
    {
      var msgIntro := Web.LoadSetting(doc, "msg_intro");
      var colorIntro := Web.LoadSetting(doc, "color_intro");
      var colorPre := Web.LoadSetting(doc, "color_pre");
      var colorTimer := Web.LoadSetting(doc, "color_timer");
      var aux := Web.LoadSetting(doc, "show_aux_lights");
      graphics.SetShowAuxLights(aux == "true");
      var dim := Web.LoadSetting(doc, "show_dim_lights");
      graphics.SetShowDimLights(dim == "true");
      var showReady := Web.LoadSetting(doc, "show_ready");
      var msgRumble := Web.LoadSetting(doc, "msg_rumble");
      var msgGetReady := Web.LoadSetting(doc, "msg_get_ready");
      var msgGameOver := Web.LoadSetting(doc, "msg_game_over");

      var minTimeString := Web.LoadSetting(doc, "min_time");
      var maxTimeString := Web.LoadSetting(doc, "max_time");
      var intervalTimeString := Web.LoadSetting(doc, "interval_time");
      var preTimeString := Web.LoadSetting(doc, "pre_time");
      var goTimeString := Web.LoadSetting(doc, "go_time");
      var gameOverTimeString := Web.LoadSetting(doc, "game_over_time");
      var autoReset := Web.LoadSetting(doc, "auto_reset");
      var buzzerOn := Web.LoadSetting(doc, "buzzer_on");
      buzzer.SetBuzzerOn(buzzerOn != "false");

      cfg := Settings(
        msgIntro, colorIntro, colorPre, colorTimer, aux == "true", dim == "true", showReady == "true",
        msgRumble, msgGetReady, msgGameOver,
        MinTimeSetting(minTimeString), MaxTimeSetting(maxTimeString), IntervalSetting(intervalTimeString),
        SecondsSetting(preTimeString, 5), SecondsSetting(goTimeString, 2),
        SecondsSetting(gameOverTimeString, 5), autoReset == "true", buzzerOn != "false");
    }

    /** The second half of `load_settings()`: the values kept in persistent storage. */
    method LoadStoredSettings()
      modifies this`totalTime, this`mode, graphics`brightness, graphics`threePlayers, graphics`rumbleMode
      ensures totalTime == TotalTimeSetting(prefs.Get("total_time"), cfg.minTime, cfg.maxTime)
      ensures cfg.minTime <= cfg.maxTime ==> cfg.minTime <= totalTime <= cfg.maxTime
      ensures graphics.brightness == Gfx.BrightnessSetting(prefs.Get("brightness"))
      ensures mode == ModeSetting(prefs.Get("mode"))
      ensures graphics.threePlayers == (mode == ThreePlayer) && graphics.rumbleMode == (mode == TimerRules.Rumble)
    {
      totalTime := TotalTimeSetting(prefs.Get("total_time"), cfg.minTime, cfg.maxTime);
      graphics.SetBrightness(prefs.Get("brightness"));
      mode := ModeSetting(prefs.Get("mode"));
      graphics.SetThreePlayers(mode == ThreePlayer);
      graphics.SetRumbleMode(mode == TimerRules.Rumble);
    }

    /** The four press callbacks of `setup()`. */
    method InstallCallbacks()
      requires btnBlack != btnBlue && btnBlack != btnRed && btnBlack != btnGreen && btnBlue != btnRed && btnBlue != btnGreen && btnRed != btnGreen
      modifies btnBlack`posedgeCb, btnBlue`posedgeCb, btnRed`posedgeCb, btnGreen`posedgeCb
      ensures btnBlack.posedgeCb == Some(Handler.BlackBtnPress) && btnBlue.posedgeCb == Some(Handler.BlueBtnPress)
      ensures btnRed.posedgeCb == Some(Handler.RedBtnPress) && btnGreen.posedgeCb == Some(Handler.GreenBtnPress)
    {
      btnBlack.SetPosedgeCb(Handler.BlackBtnPress);
      btnBlue.SetPosedgeCb(Handler.BlueBtnPress);
      btnGreen.SetPosedgeCb(Handler.GreenBtnPress);
      btnRed.SetPosedgeCb(Handler.RedBtnPress);
    }

    /** The end of `setup()`: the start-up beep, then the intro message or the number of players. */
    method Greet(now: nat)
      requires Valid()
      modifies this, graphics, graphics.isr, buzzer
      ensures Valid() && cfg == old(cfg)
      ensures buzzer.Model() == Bz.AfterBeep(old(buzzer.Model()), 500, now)
      ensures cfg.msgIntro == "" ==>
        && state == StandbyState
        && graphics.isr.Model() == ArmTrigger(old(graphics.isr.Model()), Handler.Standby)
      ensures cfg.msgIntro != "" ==>
        && state == old(state)
        && graphics.Text() == Gfx.DynamicText(cfg.msgIntro, cfg.colorIntro)
        && graphics.isr.Model() == ArmTrigger(old(graphics.isr.Model()), Handler.NumPlayers)
    {
      buzzer.Beep(500, now);
      if cfg.msgIntro == "" {
        NumPlayers();
      } else {
        Intro();
      }
    }

    /**
     * `setup()`: the press callbacks, the settings, the start-up beep, then
     * the intro message or, when there is none, the number of players.
     */
    method Setup(now: nat, doc: Option<Web.Doc>)
      requires Valid()
      modifies this, graphics, graphics.isr, buzzer
      modifies btnBlack`posedgeCb, btnBlue`posedgeCb, btnRed`posedgeCb, btnGreen`posedgeCb
      ensures Valid()
      ensures btnBlack.posedgeCb == Some(Handler.BlackBtnPress) && btnBlue.posedgeCb == Some(Handler.BlueBtnPress)
      ensures btnRed.posedgeCb == Some(Handler.RedBtnPress) && btnGreen.posedgeCb == Some(Handler.GreenBtnPress)
      ensures cfg == SettingsFrom(doc)
      ensures buzzer.buzzerOn == cfg.buzzerOn
      ensures cfg.buzzerOn ==> buzzer.pinHigh && buzzer.active && buzzer.timeStop == now + 500
      ensures cfg.msgIntro == "" ==> state == StandbyState
      ensures cfg.msgIntro != "" ==> graphics.Text() == Gfx.DynamicText(cfg.msgIntro, cfg.colorIntro)
    {
      InstallCallbacks();
      LoadSettings(doc);
      Greet(now);
    }
  }
}
