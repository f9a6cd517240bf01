// The game's callbacks. The firmware passes plain function pointers to its
// one-shot timers and to its buttons; here each such function is a value of
// one datatype, and the game dispatches the value it is handed back.

module Callbacks {

  datatype Handler =
    // graphics.cpp
    | ShowBrightnessOff
    // the timer sequence of battlebricks.cpp
    | PostGameOver
    | GameOver
    | CountdownB
    | CountdownA
    | PreCountdownGo
    | PreCountdown1
    | PreCountdown2
    | PreCountdown3
    | Ready
    | Standby
    | NumPlayers
    | CheckPlayersReady
    // the button callbacks
    | BlackBtnPress
    | GreenBtnPress
    | BlueBtnPress
    | RedBtnPress
}
