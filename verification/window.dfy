/**
 * The main window's handling of the dial: the start/pause toggle, the reset
 * button, the time label and the reaction to the finished signal. Window
 * layout, icons as pixmaps and the message box are not part of this model.
 */
module Window {
  import Dial
  import TimeDisplay

  /** The start button shows either the play face ("Start Timer") or the pause face ("Pause Timer"). */
  datatype StartFace = PlayFace | PauseFace

  class MainWindow {
    var dial: Dial.TimerDial
    var startEnabled: bool
    var resetEnabled: bool
    var startFace: StartFace
    var timeText: string

    ghost predicate Valid()
      reads this, dial
    {
      dial.Valid()
    }

    /** A new dial, the play face on the start button and the dial's time in the label. */
    constructor()
      ensures Valid() && fresh(dial) && dial.State() == Dial.Initial()
      ensures startFace == PlayFace && startEnabled && resetEnabled
      ensures timeText == "25m 0s"
    {
      dial := new Dial.TimerDial();
      startEnabled := true;
      resetEnabled := true;
      startFace := PlayFace;
      timeText := "";
      new;
      var seconds := dial.GetCurrentTime();
      UpdateTimeDisplay(seconds);
      TimeDisplay.FormatExamples();
    }

    /**
     * on_startButton_clicked: pause a running dial, otherwise ask it to
     * start; the reset button is enabled exactly when the dial is not
     * running afterwards.
     */
    method OnStartButtonClicked()
      requires Valid()
      modifies this, dial
      ensures Valid() && dial == old(dial)
      ensures dial.State() == if old(dial.running) then Dial.Stop(old(dial.State()))
                              else Dial.Start(old(dial.State()))
      ensures startFace == if old(dial.running) then PlayFace else PauseFace
      ensures resetEnabled == !dial.running
      ensures startEnabled == old(startEnabled) && timeText == old(timeText)
    {
      var running := dial.IsRunning();
      if running {
        dial.PauseTimer();
        startFace := PlayFace;
      } else {
        dial.StartTimer();
        startFace := PauseFace;
      }
      var runningNow := dial.IsRunning();
      resetEnabled := !runningNow;
    }

    /**
     * on_resetButton_clicked: reset the dial; start is enabled and reset
     * disabled. The timeUpdated that resetTimer emits reaches
     * UpdateTimeDisplay through its connection, so the label shows the
     * seconds of the reset dial.
     */
    method OnResetButtonClicked()
      requires Valid()
      modifies this, dial
      ensures Valid() && dial == old(dial)
      ensures dial.State() == Dial.Reset(old(dial.State()))
      ensures startFace == PlayFace && startEnabled && !resetEnabled
      ensures timeText == TimeDisplay.FormatTimeDisplay(dial.currentTime)
    {
      dial.ResetTimer();
      var seconds := dial.GetCurrentTime();
      UpdateTimeDisplay(seconds);
      startFace := PlayFace;
      startEnabled := true;
      resetEnabled := false;
    }

    /** updateTimeDisplay, the slot for timeUpdated: show the formatted seconds. */
    method UpdateTimeDisplay(seconds: int)
      modifies this
      ensures timeText == TimeDisplay.FormatTimeDisplay(seconds)
      ensures dial == old(dial) && startEnabled == old(startEnabled)
      ensures resetEnabled == old(resetEnabled) && startFace == old(startFace)
    {
      timeText := TimeDisplay.FormatTimeDisplay(seconds);
    }

    /** timerFinished, the slot for the dial's finished signal: start disabled, reset enabled. */
    method TimerFinished()
      modifies this
      ensures !startEnabled && resetEnabled && startFace == PlayFace
      ensures dial == old(dial) && timeText == old(timeText)
    {
      startEnabled := false;
      resetEnabled := true;
      startFace := PlayFace;
    }
  }
}
