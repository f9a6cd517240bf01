# battlebricks timer — a verified model in Dafny

This project models the firmware of the battlebricks timer, an ESP8266 match
clock for LEGO robot battles. The clock has two LED matrix displays, four
buttons (black, blue, red, green), a buzzer and a small web interface. The
model covers its core:

- **Soft_ISR** (`soft_isr.dfy`): the one-slot, one-shot deferred callback. It
  is armed as a timer (due at a time) or as a trigger (run on request).
  Re-arming replaces what is pending, and the slot is disabled before its
  callback runs.
- **Button** (`button.dfy`): the debounced edge detector. It reads an
  active-low level and accepts a change only more than 50 ms after the last
  one. The press or release callback runs before the new level is recorded.
- **Buzzer** (`buzzer.dfy`): a timed pulse with a double beep (on, off, on).
  The library copy and the copy in `src/` share one class.
- **Persistent storage** (`storage.dfy`): an abstract string map.
- **Graphics** (`graphics.dfy`): the position and flags of the text on
  screen, and the scroll step whose wrap fires the display's own Soft_ISR.
  It also covers the brightness setting and its cycle 1..8, the colour-name
  table and which player bars are lit. No pixels are modelled.
- **The game** (`timer_rules.dfy`, `battlebricks.dfy`):
  - the pure rules: `format_time`, the settings-string mappings, the total
    time step, the mode cycle, the ready rule per mode and the countdown
    arithmetic;
  - the firmware's globals as the fields of one `Game` object;
  - the timer sequence, chained by re-arming `state_isr`;
  - the four button handlers;
  - `load_settings`, `setup` and one pass of `loop`.
- **The prototype** (`battlebots.dfy`): the earlier firmware's deferred
  callback (`do_time` / `do_scroll` / `do_handle`) and its `text_handle`.
  Its wrap behaviour is contrasted with the display code of the timer. The
  start-up sequence is proved to scroll the intro, then wait for the network
  with a ten-second fallback to hotspot mode.
- **The web layer's pure helpers** (`web_interface.dfy`):
  - the MIME type by file suffix;
  - the lookup order of a requested path over an abstract set of files;
  - the HTML input builders;
  - the first-match lookup of a setting over the categories of the settings
    document.

## How the model is built

- **Time and the outside world.** Time is the parameter `now: nat` in place
  of `millis()`. Pin levels, the button still being held, the answer of the
  WiFi stack and the parsed settings document are parameters too.
- **Callbacks.** C function pointers become values of the datatype
  `Callbacks.Handler` (`Battlebots.Callback` in the prototype). A component
  whose code calls a callback hands the callback back instead (`SoftIsr.Handle`,
  `SoftIsr.Trigger`, `Button.Callback`, `Graphics.DrawText`), and
  `Game.Dispatch` runs it at the point where the source calls it.
- **Objects.** Each class of the source is a Dafny class with the same fields.
  A value model (`Model()`, `State()`, `Text()`) ties its methods to the pure
  step functions, and the lemmas about the behaviour are proved on those
  functions.
- **Integer widths.** They are written out where the source relies on them:
  - `int16_t` text positions and `time_remaining` (`Common.Int16`);
  - the `uint8_t` brightness, `mode` and `format_time` parameter
    (`Common.Trunc8`);
  - the `uint16_t` beep length and stored total time (`Common.Trunc16`).

### Points where the code's behaviour is easy to misread

- **Pause.** `pause()` subtracts the GO! time less one second from the time
  remaining (`time_remaining - go_time + 1`, src/battlebricks.cpp:108) and
  floors the result at zero (src/battlebricks.cpp:109,
  `TimerRules.PausedRemaining`).
- **Countdown length.** `countdown_b` calls `game_over` once `time_remaining
  <= 1`. So from T, `game_over` follows T − 1 decrements, after 2·(T − 1)
  half-second callbacks (`TimerRules.CountdownReachesGameOver`).
- **Settings categories.** The header comment of the web interface
  (lib/Web_Interface/Web_Interface.cpp:10-14) names "basic" and "wifi" as the
  required categories and "advanced" as optional. The code of `load_setting`
  scans "general", then "advanced" when present, then "wifi"
  (`WebInterface.SettingValueScanOrder`).
- **Buzzer stop time.** Neither buzzer constructor initialises `_time_stop`.
  The firmware's buzzer is a global (src/battlebricks.cpp:44), so static
  storage starts it at 0, and the model's constructors do the same. The value
  matters before any beep: a double beep requested while the buzzer is
  disabled sets only the double flag, and the next `handle()` compares the
  stop time with now to decide when that flag clears.

## Model

| member | source | states |
|---|---|---|
| SoftIsr.SoftIsr.constructor | lib/Soft_ISR/Soft_ISR.h:25 | a fresh slot is disabled |
| SoftIsr.SoftIsr.SetTrigger | lib/Soft_ISR/Soft_ISR.cpp:9-13 | the slot is enabled, of trigger type, with callback cb, replacing any pending arming; the due time is untouched |
| SoftIsr.SoftIsr.SetTimer | lib/Soft_ISR/Soft_ISR.cpp:20-25 | the slot is enabled, of timer type, due at now + time, with callback cb; an earlier unfired callback is discarded |
| SoftIsr.SoftIsr.Trigger | lib/Soft_ISR/Soft_ISR.cpp:30-35 | the callback is handed back iff the slot was enabled, whatever its type, and the slot is disabled before it runs |
| SoftIsr.SoftIsr.Remove | lib/Soft_ISR/Soft_ISR.cpp:40-42 | the slot is disabled and nothing else changes; no callback runs |
| SoftIsr.SoftIsr.Handle | lib/Soft_ISR/Soft_ISR.cpp:47-56 | the callback is handed back iff the slot is enabled, of timer type and due (now ≥ due time); it is disabled first; otherwise the slot is unchanged |
| SoftIsr.DisabledRunsNothing | lib/Soft_ISR/Soft_ISR.cpp:40-56 | after remove (or on a fresh slot), no sequence of polls and triggers runs anything until the slot is re-armed |
| SoftIsr.ArmedFiresExactlyOnce | lib/Soft_ISR/Soft_ISR.cpp:30-56 | an armed slot runs its callback at most once over any sequence of polls and triggers: exactly at its first firing and never after |
| SoftIsr.PollsNeverFireTrigger | lib/Soft_ISR/Soft_ISR.cpp:49 | polling alone never fires a trigger-type arming, whatever the time |
| SoftIsr.TimerFiresAtFirstDuePoll | lib/Soft_ISR/Soft_ISR.cpp:20-25 | a timer armed at now for time fires at the first poll at or after now + time and at no earlier poll |
| SoftIsr.TriggerIgnoresDueTime | lib/Soft_ISR/Soft_ISR.cpp:30-56 | a trigger-mode slot never reads its due time: two slots that differ only there run the same callbacks over any sequence of polls and triggers |
| SoftIsr.RearmDiscardsPending | lib/Soft_ISR/Soft_ISR.cpp:9-25 | what a slot does after set_timer or set_trigger does not depend on what was pending before: two slots re-armed alike run the same callbacks over any sequence of polls and triggers, and only the new callback can run |
| Button.Button.constructor | lib/Button/Button.h:23-27 | a new button is released, last change 0, both callbacks unset; it keeps its pin |
| Button.Button.SetPosedgeCb | lib/Button/Button.cpp:35-37 | installs the press callback |
| Button.Button.SetNegedgeCb | lib/Button/Button.cpp:43-45 | installs the release callback |
| Button.Button.Get | lib/Button/Button.cpp:51-53 | returns the recorded pressed state and reads nothing else |
| Button.Button.Callback | lib/Button/Button.cpp:17-25 | a callback is chosen only for an accepted change (a new level, strictly more than 50 ms after the last change); the press callback on a press, the release callback on a release, never both |
| Button.Button.Settle | lib/Button/Button.cpp:19-27 | an accepted change records the new pressed state (the negated pin level) and now; otherwise nothing changes; this runs after the callback |
| Button.ChangesAlternate | lib/Button/Button.cpp:17-29 | the accepted changes of any sample sequence alternate press/release and are more than 50 ms apart |
| Button.QuietWithinDebounce | lib/Button/Button.h:6 | no change is accepted within 50 ms of the last one, so a new button ignores everything at now ≤ 50 |
| Buzzer.Buzzer.constructor | lib/Buzzer/Buzzer.cpp:14-22 | the library constructor drives the pin low with no beep active and no double beep pending; the stop time is 0, as for the global buzzer |
| Buzzer.Buzzer.WithoutPinWrite | src/buzzer.cpp:3-10 | the copy in src/ clears the active and double flags but does not write the pin; the stop time is 0, as for the global buzzer |
| Buzzer.Buzzer.Handle | lib/Buzzer/Buzzer.cpp:27-38 | an active, due beep ends (pin low) and, for a double beep, the gap of 100 ms is scheduled; otherwise, after the gap, the second beep starts and the double flag clears; only one branch runs; src/buzzer.cpp:12-23 does the same |
| Buzzer.Buzzer.SetBuzzerOn | lib/Buzzer/Buzzer.cpp:44-46 | only the enable flag changes; a beep in flight still ends at its stop time |
| Buzzer.Buzzer.Beep | lib/Buzzer/Buzzer.cpp:52-58 | when enabled: pin high, active, stop at now + the 16-bit length; when disabled nothing changes; src/buzzer.cpp:29-35 does the same |
| Buzzer.Buzzer.BeepShort | lib/Buzzer/Buzzer.cpp:63-65 | exactly a beep of 100 ms |
| Buzzer.Buzzer.BeepDouble | lib/Buzzer/Buzzer.cpp:70-73 | a short beep, then the double flag is set even when the buzzer is disabled; src/buzzer.cpp:41-44 does the same |
| Buzzer.AtMostOneRestart | lib/Buzzer/Buzzer.cpp:27-38 | over any sequence of handle calls the buzzer restarts at most once, and only when a double beep is pending: never a third beep |
| Buzzer.DoubleBeepPattern | src/buzzer.cpp:12-23 | a double beep is on 100 ms, off 100 ms, on 100 ms, then silent with nothing pending |
| Storage.PersistentStorage.constructor | lib/Persistent_Storage/Persistent_Storage.cpp:19-22 | the store holds what was saved before |
| Storage.PersistentStorage.Get | lib/Persistent_Storage/Persistent_Storage.cpp:64-83 | the stored value of a key, and "" for a missing key |
| Storage.PersistentStorage.Set | lib/Persistent_Storage/Persistent_Storage.cpp:29-58 | an empty key is refused (false) and changes nothing; otherwise the key maps to the value and a later get returns it |
| Graphics.ParseColor | src/graphics.cpp:241-249 | Blue, White, Green, Cyan, Magenta and Yellow map to their colour constants and every other name to red; never black or a dim colour |
| Graphics.StaticXpos | src/graphics.cpp:40-45 | static text starts at column 15 − 3·length; the 16-bit `text_xpos` keeps that exact for every text of up to 10927 characters |
| Graphics.DrawStep | src/graphics.cpp:183-192 | only the position changes; static text never moves; a wrap puts scrolling text back at column 32 |
| Graphics.DrawFired | src/graphics.cpp:183-192 | k draw steps hand back k results (one per step) |
| Graphics.DrawFiredDisabled | src/graphics.cpp:183-192 | with the display's slot disabled, no draw step runs anything |
| Graphics.ScrollUntilWrap | src/graphics.cpp:183-192 | scrolling text wraps after xpos + 8·length + 1 steps; only that step fires the slot, and afterwards the text is at 32 with the slot disabled |
| Graphics.ScrollCompletesOnce | src/graphics.cpp:48-59 | after text_dynamic with a callback, the callback runs exactly once, on the (8·length + 33)-th draw, and later wraps run nothing |
| Graphics.BrightnessSetting | src/graphics.cpp:61-70 | "" gives 2; otherwise the number read as a uint8_t: kept when in 1..8, 8 when above, 1 when 0 |
| Graphics.BrightnessRoundTrip | src/graphics.cpp:61-84 | a brightness saved by change_brightness reads back as the same value |
| Graphics.NextBrightness | src/graphics.cpp:72-77 | the next brightness stays in 1..8 |
| Graphics.BrightnessOrbit | src/graphics.cpp:72-77 | k steps from b reach b + k, wrapping past 8 back to 1 |
| Graphics.BrightnessCycle | src/graphics.cpp:72-77 | the brightness cycles through all eight values and returns after exactly eight presses |
| Graphics.ReadyLights | src/graphics.cpp:121-180 | the three-player layout iff three-player mode, none iff two-player mode without aux lights, the two-player layout otherwise; green is drawn only in three-player mode, blue and red only with aux lights; a drawn bar is lit iff its player is ready and dim iff its player is not ready and dim lights are on |
| Graphics.Graphics.constructor | src/graphics.h:62-68 | empty text at column 0, nothing shown, the display's slot fresh |
| Graphics.Graphics.ShowBrightnessOff | src/graphics.cpp:7-9 | the brightness is no longer on show |
| Graphics.Graphics.TextStatic | src/graphics.cpp:40-45 | the text is replaced by a non-scrolling one at the static column, which a draw step leaves in place; the display's slot is untouched |
| Graphics.Graphics.TextDynamic | src/graphics.cpp:48-53 | the text is replaced by a scrolling one at column 32 |
| Graphics.Graphics.TextDynamicThen | src/graphics.cpp:56-59 | as text_dynamic, and the display's slot is armed as a trigger with the callback, replacing any pending one |
| Graphics.Graphics.SetBrightness | src/graphics.cpp:61-70 | the brightness becomes the parsed setting |
| Graphics.Graphics.ChangeBrightness | src/graphics.cpp:72-84 | returns and stores the next brightness; shows it; re-arms the display's slot as a 1000 ms timer, discarding any pending scroll callback |
| Graphics.Graphics.SetThreePlayers | src/graphics.cpp:97-99 | sets the three-player flag |
| Graphics.Graphics.SetRumbleMode | src/battlebricks.cpp:417 | sets the rumble flag and nothing else |
| Graphics.Graphics.SetRedReady | src/graphics.cpp:100-102 | sets the red ready flag |
| Graphics.Graphics.SetBlueReady | src/graphics.cpp:103-105 | sets the blue ready flag |
| Graphics.Graphics.SetGreenReady | src/graphics.cpp:106-108 | sets the green ready flag |
| Graphics.Graphics.SetShowPlayerBar | src/graphics.cpp:109-111 | the player bar is shown |
| Graphics.Graphics.SetShowAuxLights | src/graphics.cpp:114-116 | sets the aux-lights flag |
| Graphics.Graphics.SetShowDimLights | src/graphics.cpp:117-119 | sets the dim-lights flag |
| Graphics.Graphics.DrawText | src/graphics.cpp:183-192 | one draw step of the text; on a wrap the display's slot is fired as by trigger(), otherwise it is untouched |
| Graphics.Graphics.DrawPlayersReady | src/graphics.cpp:168-180 | the bars drawn are those of ReadyLights; the blue and red LEDs follow the ready flags |
| TimerRules.PadSeconds | src/battlebricks.cpp:53-59 | seconds are two digits, zero-padded, with the same value |
| TimerRules.FormatTimeLayout | src/battlebricks.cpp:53-59 | the clock is the unpadded minutes, ':' or ' ', then the seconds padded to two digits |
| TimerRules.FormatTimeRoundTrip | src/battlebricks.cpp:53-59 | a clock text parses back to the time it shows |
| TimerRules.ShortClockText | src/battlebricks.cpp:53-59 | below ten minutes the clock is one digit, the separator and two digits |
| TimerRules.FormatTimeUint8 | src/battlebricks.cpp:53-59 | format_time as written shows its argument reduced modulo 256 |
| TimerRules.ClockTextRoundTrip | src/battlebricks.cpp:53-59 | the corrected clock shows the time itself, and 0 for a negative time |
| TimerRules.FormatTimeTruncatesLongGames | src/battlebricks.cpp:191 | a 5:00 game shows as 0:44 on the standby screen as written; the corrected clock shows 5:00 |
| TimerRules.FormatTimeShowsNegativeAsLarge | src/battlebricks.cpp:125-129 | a remaining time of −1 shows as 4:15 as written; the corrected clock shows 0:00 |
| TimerRules.MinTimeSetting | src/battlebricks.cpp:446-457 | the minimum time is one of 15, 30, 45, 60, 90 seconds |
| TimerRules.MaxTimeSetting | src/battlebricks.cpp:459-468 | the maximum time is one of 120, 180, 240, 300 seconds |
| TimerRules.IntervalSetting | src/battlebricks.cpp:470-483 | the interval is one of 1, 2, 5, 10, 15, 30 seconds |
| TimerRules.MinTimeRoundTrip | src/battlebricks.cpp:446-457 | every choice, written as its clock text, is recognised as itself |
| TimerRules.MaxTimeRoundTrip | src/battlebricks.cpp:459-468 | every choice, written as its clock text, is recognised as itself |
| TimerRules.IntervalRoundTrip | src/battlebricks.cpp:470-483 | every choice, written as its clock text, is recognised as itself |
| TimerRules.MinTimeRecognised | src/battlebricks.cpp:446-457 | any value other than the default 30 comes from exactly that clock text |
| TimerRules.MaxTimeRecognised | src/battlebricks.cpp:459-468 | any value other than the default 180 comes from exactly that clock text |
| TimerRules.IntervalRecognised | src/battlebricks.cpp:470-483 | any value other than the default 15 comes from exactly that clock text |
| TimerRules.ToIntOfChar | src/battlebricks.cpp:485-498 | the first character read as a number is its digit, or 0 for a non-digit |
| TimerRules.SecondsSetting | src/battlebricks.cpp:485-498 | "Off" gives 0, "" the default, otherwise the value of the first character (0 if it is not a digit) |
| TimerRules.TotalTimeSetting | src/battlebricks.cpp:505-512 | "" gives 90 (when in range); a stored value, read as a uint16_t, is kept when in [minimum, maximum], becomes the maximum above it and the minimum below it; with the maximum below the minimum the result is the minimum |
| TimerRules.TotalTimeRoundTrip | src/battlebricks.cpp:322-329 | a total time saved in range reads back unchanged |
| TimerRules.NextTotalTime | src/battlebricks.cpp:322-329 | the next total time is total + interval, or the minimum once that would exceed the maximum |
| TimerRules.NextTotalTimeInvariant | src/battlebricks.cpp:322-329 | stepping keeps the total time in [minimum, maximum] and on the grid minimum + j·interval |
| TimerRules.NextMode | src/battlebricks.cpp:397-404 | two players (0) go to three (1), three to rumble (2), and rumble or any larger value to two players, saved as "0" |
| TimerRules.ModeSetting | src/battlebricks.cpp:516-518 | the stored mode is read as uint8_t |
| TimerRules.ModeCycle | src/battlebricks.cpp:397-419 | three presses return to the mode; the saved string reads back as the new mode |
| TimerRules.PlayersReady | src/battlebricks.cpp:224-240 | three-player mode is ready iff blue, green and red are; two-player iff blue and red; rumble mode has no verdict |
| TimerRules.StartRemaining | src/battlebricks.cpp:179-182 | the countdown starts at total time − GO! time + 1 (in 16 bits) |
| TimerRules.PausedRemaining | src/battlebricks.cpp:105-111 | pausing subtracts GO! time − 1 and floors at 0 |
| TimerRules.CountdownReachesGameOver | src/battlebricks.cpp:114-129 | from T ≥ 2 the countdown chain reaches game_over with 1 remaining after exactly 2·(T − 1) steps, and not before |
| Battlebricks.DefaultSettings | src/battlebricks.cpp:432-501 | a settings file that does not parse gives the defaults |
| Battlebricks.SettingsDurationsBounded | src/battlebricks.cpp:446-498 | the pre, GO! and game-over times are at most 9 s and the time bounds lie in their tables |
| Battlebricks.ModeBanner | src/battlebricks.cpp:196-209 | the banner colour per mode, "RUMBLE MODE" in red for any other mode |
| Battlebricks.Game.constructor | src/battlebricks.h:47-81 | the globals at power-up: state STARTUP, nothing ready, both slots fresh, the button and buzzer pins |
| Battlebricks.Game.Standby | src/battlebricks.cpp:190-193 | the total time is shown as a static clock through `format_time` as written (its uint8_t parameter), with the player bar |
| Battlebricks.Game.Reset | src/battlebricks.cpp:70-80 | standby, state_isr cancelled, all ready flags cleared in the game and on the display, the total time shown through `format_time` as written; the result does not depend on the flags or state before, so a second reset changes nothing |
| Battlebricks.Game.ClearReady | src/battlebricks.cpp:73-79 | nobody is ready, in the game or on the display |
| Battlebricks.Game.PostGameOver | src/battlebricks.cpp:83-89 | with auto reset, a reset; otherwise 0:00 is shown and nothing else changes |
| Battlebricks.Game.GameOver | src/battlebricks.cpp:92-102 | state GAME_OVER, a beep of the game-over time and post_game_over armed after it; with no game-over time, a 2 s beep and post_game_over at once |
| Battlebricks.Game.Pause | src/battlebricks.cpp:105-111 | state PAUSED, state_isr cancelled, the paused remaining time, "PAUSED" scrolling in yellow |
| Battlebricks.Game.CountdownB | src/battlebricks.cpp:114-122 | the clock is shown without colon through `format_time` as written; game_over is armed iff at most 1 second remains, otherwise countdown_a, in 500 ms |
| Battlebricks.Game.CountdownA | src/battlebricks.cpp:125-129 | one second less, the clock with colon through `format_time` as written, countdown_b armed in 500 ms |
| Battlebricks.Game.PreCountdownGo | src/battlebricks.cpp:132-142 | state COUNTDOWN; GO! and a beep for the GO! time, then countdown_a; with no GO! time, a 1 s beep and countdown_a at once |
| Battlebricks.Game.PreCountdown1 | src/battlebricks.cpp:145-150 | "1", a 250 ms beep, GO! armed in 1 s |
| Battlebricks.Game.PreCountdown2 | src/battlebricks.cpp:153-158 | "2", a 250 ms beep, "1" armed in 1 s |
| Battlebricks.Game.PreCountdown3 | src/battlebricks.cpp:161-165 | "3", a 250 ms beep, "2" armed in 1 s |
| Battlebricks.Game.PreCountdownMsg | src/battlebricks.cpp:168-176 | state PRE; the get-ready message for the pre time, then "3"; with no pre time, "3" at once |
| Battlebricks.Game.Ready | src/battlebricks.cpp:179-182 | the countdown's starting time is set and the pre-countdown begins: the get-ready message with "3" armed after the pre time, or "3" at once with "2" armed in 1 s |
| Battlebricks.Game.Rumble | src/battlebricks.cpp:185-187 | the rumble message scrolls in red and then runs ready |
| Battlebricks.Game.NumPlayers | src/battlebricks.cpp:196-209 | state STANDBY, the mode banner scrolls, then standby runs |
| Battlebricks.Game.Intro | src/battlebricks.cpp:212-214 | the intro message scrolls, then num_players runs |
| Battlebricks.Game.CheckPlayersReady | src/battlebricks.cpp:224-240 | all players of the mode ready: PRE with the starting time, the get-ready message and "3" armed after the pre time (or "3" at once with "2" armed in 1 s); not all ready: the standby screen and nothing else; rumble mode: nothing at all |
| Battlebricks.Game.BlackBtnPress | src/battlebricks.cpp:245-293 | STARTUP shows the mode banner and goes to STANDBY with a short beep; STANDBY only redraws; PRE resets after a 1000 ms beep and GAME_OVER after a 250 ms beep; COUNTDOWN pauses with a 1000 ms beep and shows "PAUSED"; PAUSED resumes into PRE with the get-ready message and the pre-countdown re-armed (or "3" at once), unless the button is still held past 3 s, which resets |
| Battlebricks.Game.PausedPress | src/battlebricks.cpp:268-284 | resuming from pause goes back to PRE with a short beep, the get-ready message and "3" armed after the pre time, or "3" at once with its 250 ms beep and "2" armed in 1 s; the hold past 3 s resets with a 250 ms beep |
| Battlebricks.Game.SkipIntro | src/battlebricks.cpp:250-253 | a short beep, then the mode banner with STANDBY armed as its trigger |
| Battlebricks.Game.CountdownPress | src/battlebricks.cpp:263-266 | a 1000 ms beep, then PAUSED with state_isr cancelled, the paused time and "PAUSED" in yellow |
| Battlebricks.Game.BeepAndReset | src/battlebricks.cpp:258-261 | a beep of the given length, then the reset state: standby, nobody ready, state_isr cancelled |
| Battlebricks.Game.GreenBtnPress | src/battlebricks.cpp:298-336 | outside STANDBY nothing changes; with black held the total time steps, is saved and shown; otherwise green's ready flag flips in three-player mode only |
| Battlebricks.Game.ToggleGreen | src/battlebricks.cpp:302-319 | the green flag flips in the game and on the display with a double beep; once ready, "GREEN READY" is shown, or the players are checked at once |
| Battlebricks.Game.ChangeTotalTime | src/battlebricks.cpp:321-330 | the next total time, saved under "total_time" and shown on the standby screen through `format_time` as written, with a short beep |
| Battlebricks.Game.BlueBtnPress | src/battlebricks.cpp:341-371 | outside STANDBY nothing changes; with black held the brightness steps; otherwise blue's ready flag flips except in rumble mode |
| Battlebricks.Game.ToggleBlue | src/battlebricks.cpp:345-360 | in rumble mode the rumble message starts the match; otherwise the blue flag flips in the game and on the display, and once ready "BLUE READY" is shown or the players are checked at once |
| Battlebricks.Game.StepBrightness | src/battlebricks.cpp:362-365 | the next brightness, shown for 1 s and saved under "brightness", with a short beep |
| Battlebricks.Game.RedBtnPress | src/battlebricks.cpp:376-425 | outside STANDBY nothing changes; with black held the mode changes; otherwise red's ready flag flips except in rumble mode |
| Battlebricks.Game.ToggleRed | src/battlebricks.cpp:380-395 | in rumble mode the rumble message starts the match; otherwise the red flag flips in the game and on the display, and once ready "RED READY" is shown or the players are checked at once |
| Battlebricks.Game.ChangeMode | src/battlebricks.cpp:397-419 | the next mode, saved under "mode"; the game's ready flags cleared (the display's are not); the display's mode flags follow; the banner scrolls, then standby |
| Battlebricks.Game.Dispatch | src/battlebricks.cpp:625-638 | runs the handler a component hands back; a black press while paused, with the button still reading released, resumes; the brightness time-out stops the brightness display and leaves the text and the display's timer as they were |
| Battlebricks.Game.ButtonHandle | lib/Button/Button.cpp:17-29 | the button's callback runs before its level is recorded, so a black press while paused always resumes: the hold loop is never entered |
| Battlebricks.Game.GraphicsHandle | src/graphics.cpp:18-37 | the display's timer runs first: when it is due with the brightness time-out, the brightness display ends and the text takes its draw step in the same pass; while the brightness stays on show the text does not move and no bars are drawn; otherwise one draw step, then the bars iff the player bar is shown |
| Battlebricks.Game.Loop | src/battlebricks.cpp:625-638 | state_isr, then the buttons black, blue, red, green, then the display and the buzzer; each button's debounce state changes only by its own reading |
| Battlebricks.Game.LoadSettings | src/battlebricks.cpp:430-520 | every setting from the settings file with its default; the stored total time clamped to the configured range, the stored brightness and the stored mode |
| Battlebricks.Game.LoadFileSettings | src/battlebricks.cpp:432-501 | the settings file's values, and the display and buzzer flags set from them |
| Battlebricks.Game.LoadStoredSettings | src/battlebricks.cpp:505-518 | the stored total time, brightness and mode; the total time lies within the configured range |
| Battlebricks.Game.InstallCallbacks | src/battlebricks.cpp:588-591 | each button's press callback is its handler |
| Battlebricks.Game.Greet | src/battlebricks.cpp:609-616 | a 500 ms beep; without an intro message, num_players at once; otherwise the intro scrolls first |
| Battlebricks.Game.Setup | src/battlebricks.cpp:586-618 | the callbacks installed, the settings loaded, the start-up beep, then the intro or the standby screen |
| Battlebots.ArmingIsExclusive | src/battlebots.cpp:11-22 | do_time arms time mode only, do_scroll scroll mode only: at most one mode is ever armed |
| Battlebots.HandleRunsOnceWhenDue | src/battlebots.cpp:24-29 | do_handle runs the handler iff time mode is armed and due, disarming it first; nothing else changes |
| Battlebots.TextStepMatchesDrawStep | src/battlebots.cpp:31-44 | scrolling text moves and wraps as on the timer's display; the handler runs on a wrap iff scroll mode is armed, and scroll mode is then disarmed |
| Battlebots.StaticTextStaysPut | src/battlebots.cpp:63-68 | static text of at most 4095 characters never moves and runs nothing |
| Battlebots.LongStaticTextJumps | src/battlebots.cpp:36-38 | unlike the timer's display, static text of 4096 characters is sent to column 32 on its first step, because the prototype checks the wrap for static text too |
| Battlebots.ConnectingAwaitsNetwork | src/battlebots.cpp:83-87 | "WIFI CONNECTING..." scrolls in yellow with the hotspot fallback due in 10 s |
| Battlebots.WaitingRunsNothing | src/battlebots.cpp:133-153 | while not connected and before the timeout, a loop runs nothing and keeps waiting |
| Battlebots.TimeoutFallsBackToHotspot | src/battlebots.cpp:74-81 | at the timeout the loop runs msg_hotspot once: "HOTSPOT MODE" scrolls and ready follows its scroll |
| Battlebots.ConnectedCancelsHotspot | src/battlebots.cpp:137-143 | on connecting, the SSID scrolls in blue, the hotspot fallback is cancelled, and nothing runs in that loop |
| Battlebots.Loops | src/battlebots.cpp:133-153 | one result per loop |
| Battlebots.LoopsConcat | src/battlebots.cpp:133-153 | two series of loops run one after the other end in the same state, and run the same callbacks in order, as their concatenation |
| Battlebots.ScrollThenConnecting | src/battlebots.cpp:31-44 | scrolling text armed with msg_connecting runs nothing until it has left the screen, then runs msg_connecting once and starts waiting for the network |
| Battlebots.IntroThenConnecting | src/battlebots.cpp:89-92 | after the intro, 152 loops run nothing and the 153rd starts connecting |
| Battlebots.Prototype.constructor | src/battlebots.cpp:11-68 | the globals these functions use (`do_time_en`, `do_scroll_en`, `do_at_millis`, `do_handler`, `text_xpos`, `text_scroll`, `text_color`, `text_string`, `connecting`) start zero, false and empty; no given file declares them, so that start is assumed |
| Battlebots.Prototype.DoTime | src/battlebots.cpp:11-16 | time mode armed due at now + ms with the handler; scroll mode disarmed |
| Battlebots.Prototype.DoScroll | src/battlebots.cpp:18-22 | scroll mode armed with the handler; time mode disarmed |
| Battlebots.Prototype.DoHandle | src/battlebots.cpp:24-29 | the state and handler of HandleStep |
| Battlebots.Prototype.TextHandle | src/battlebots.cpp:31-61 | the state and handler of TextStep |
| Battlebots.Prototype.Text | src/battlebots.cpp:63-68 | the text at column 32 when scrolling, else 15 − 3·length |
| Battlebots.Prototype.Ready | src/battlebots.cpp:70-72 | "1:30" in red, static |
| Battlebots.Prototype.MsgHotspot | src/battlebots.cpp:74-81 | no longer connecting; "HOTSPOT MODE" scrolls in cyan, then ready |
| Battlebots.Prototype.MsgConnecting | src/battlebots.cpp:83-87 | "WIFI CONNECTING..." scrolls; msg_hotspot due in 10 s; connecting |
| Battlebots.Prototype.MsgIntro | src/battlebots.cpp:89-92 | "LEGO BATTLEBOTS" scrolls in white, then msg_connecting |
| Battlebots.Prototype.Run | src/battlebots.cpp:70-92 | runs a handler as its function does |
| Battlebots.Prototype.Setup | src/battlebots.cpp:97-128 | the intro starts |
| Battlebots.Prototype.Loop | src/battlebots.cpp:133-153 | the connection check, then text_handle and its handler, then do_handle and its handler, in that order |
| WebInterface.ContentTypeByTable | lib/Web_Interface/Web_Interface.cpp:65-80 | the type of the first matching suffix in the listed order, else "text/plain" |
| WebInterface.WwwPath | lib/Web_Interface/Web_Interface.cpp:88-92 | the path gets the "/www" prefix, and a trailing "/" gets "index.html" |
| WebInterface.FileRead | lib/Web_Interface/Web_Interface.cpp:86-128 | the compressed file, then the file, then the path without "/www"; not found iff none exists; the type is that of the uncompressed path; the cache header only for .js/.css/.ico and only on the two "/www" lookups |
| WebInterface.InputType | lib/Web_Interface/Web_Interface.cpp:142-148 | "num" is a number, "pass" a password, anything else text |
| WebInterface.TextInputHtml | lib/Web_Interface/Web_Interface.cpp:137-160 | the input of that type, marked required iff req |
| WebInterface.TextInputShape | lib/Web_Interface/Web_Interface.cpp:150-157 | the closing of the input keeps its head and ends in "required>" iff req |
| WebInterface.OptionsHtmlConcat | lib/Web_Interface/Web_Interface.cpp:175-186 | the options of a concatenation are those of each part, in order |
| WebInterface.OptionsHtmlCons | lib/Web_Interface/Web_Interface.cpp:175-186 | the first entry's option comes first, then the rest |
| WebInterface.OptionLine | lib/Web_Interface/Web_Interface.cpp:180-185 | one option, marked selected iff it equals the value |
| WebInterface.BoolOptions | lib/Web_Interface/Web_Interface.cpp:188-205 | On and Off, On selected iff the value is "true", Off iff "false" |
| WebInterface.OptionLines | lib/Web_Interface/Web_Interface.cpp:175-186 | one option per entry, in order |
| WebInterface.MultiInputHtml | lib/Web_Interface/Web_Interface.cpp:169-210 | the select element with the entries for "multi", otherwise the On/Off pair |
| WebInterface.LoadSetting | lib/Web_Interface/Web_Interface.cpp:486-528 | the value of the first matching id, scanning the categories in order; "" on a parse error or no match |
| WebInterface.FindFromConcat | lib/Web_Interface/Web_Interface.cpp:506-523 | scanning two lists one after the other is scanning their concatenation |
| WebInterface.FindFromShift | lib/Web_Interface/Web_Interface.cpp:506-523 | scanning past the first list is scanning the second |
| WebInterface.SettingValueScanOrder | lib/Web_Interface/Web_Interface.cpp:486-527 | the first match in general, then advanced (when present), then wifi |

## Left out

- HTTP and file-system plumbing of the web layer: `handle_settings_get`, `handle_settings_post`, `handle_nav`, `handle_file_upload`, `begin`, `handle`, `input_html`, and the streaming of files. These are I/O and a restart; the settings document enters parsed, as a map from category to entries.
- `wifi_setup` (src/battlebricks.cpp:525-579), WiFi, OTA, MDNS and the serial port, in both firmwares: network I/O. The prototype takes whether the network answered and its SSID as inputs of each loop.
- Pixel rendering: `draw_brightness`, `show_wifi`, `update_brightness`, `Graphics::begin` and the drawing in `draw_*_players_ready` go to the display library. Only the text position and flags, and which bars and LEDs are lit, are modelled.
- `millis()` wrap-around: time is an unbounded natural number.
- `yield()` and the hold loop of the black button while paused: whether the button stays held past three seconds is the input `heldPast3s`. `Game.ButtonHandle` shows the loop is never entered from a press.
- `buzzer_isr`, declared and polled but never armed: it would never run anything (`SoftIsr.DisabledRunsNothing`).
- `pinMode` and the initial pin writes of `setup`: hardware set-up.
- `Persistent_Storage::remove` and the JSON file behind the store: the store is an abstract string map and nothing in the core removes a key.
- The rumble branch of `green_btn_press`: green is only toggled in three-player mode, where it cannot run.
- `Graphics.Graphics.SetRumbleMode`: the header does not declare `set_rumble_mode`, so it is modelled as a flag setter with no drawing effect.
- Battlebots: the header does not declare the prototype's globals; their widths are taken from the matching fields of the timer's display (`int16_t` position).
- `toInt()`: leading white space, a sign and the leading digits are read (`Common.ToInt`); overflow of the 32-bit `long` it returns is not modelled, as the model reads digits into an unbounded integer.
- Battlebricks.Game.Setup: states the callbacks, the settings, the buzzer and the first screen; the exact arming of the display's slot and the buzzer model are stated by `Game.Greet`.
- Battlebricks.Game.Loop: states how each button's debounce state changes, not the combined effect of the callbacks run in one pass; each callback's effect is stated by its own method.
- Battlebricks.Game.Dispatch: states only the pause/resume and brightness time-out cases; every other handler's effect is the contract of the method it runs.

## Findings

The `Game` shows its clock through `format_time` as written (`TimerRules.FormatTimeUint8`). `TimerRules.ClockText` is the corrected formatter, and `TimerRules.ClockTextRoundTrip` proves the intended property about it.

| source | as written | input that shows it | evidently intended | confidence | as-written member | corrected member |
|---|---|---|---|---|---|---|
| src/battlebricks.cpp:53 | `format_time` takes a `uint8_t`, so a total time of 256 s or more is shown modulo 256; the maximum time can be 4:00 or 5:00 | total time 300 s: the standby screen shows "0:44" | show 5:00 | not executed | TimerRules.FormatTimeTruncatesLongGames | TimerRules.ClockTextRoundTrip |
| src/battlebricks.cpp:125-129 | pausing with 1 s left and a GO! time of 2 leaves 0 remaining; on resuming, `countdown_a` decrements to −1 before `countdown_b` ends the game, and the `uint8_t` parameter of `format_time` shows −1 as 255 s | time_remaining −1: the clock shows "4:15" | never show a negative time; show 0:00 | not executed | TimerRules.FormatTimeShowsNegativeAsLarge | TimerRules.ClockTextRoundTrip |
