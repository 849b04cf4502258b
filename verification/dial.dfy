/**
 * The TimerDial countdown widget: its state, the transitions that the
 * control calls, the pointer handlers and the periodic tick cause, and the
 * class that performs them in place.
 *
 * The value-level functions (Start, Stop, Reset, SetMax, Press, Move,
 * Release, Tick, Refresh) say what each operation does to a DialState; each
 * method of class TimerDial follows the C++ statements and is proved to
 * produce exactly that state. The signals timeUpdated and timerFinished are
 * recorded, in emission order, in the events field.
 */
module Dial {
  import opened DialMath

  /** A signal the dial emits. */
  datatype Event = TimeUpdated(secondsRemaining: int) | TimerFinished

  /** The mouse button of a press or release. */
  datatype MouseButton = LeftButton | RightButton | MiddleButton

  /** A snapshot of the dial's fields, with the signals emitted so far. */
  datatype DialState = DialState(
    currentAngle: real,    // the target the user set by dragging
    remainingAngle: real,  // the wedge of time left
    maxTime: int,          // seconds that a full turn stands for
    currentTime: int,      // seconds left, as shown
    running: bool,
    dragging: bool,
    events: seq<Event>)

  /** The handle starts at 150 degrees, 25 minutes of a one-hour dial. */
  const DefaultAngle: real := 150.0
  const DefaultMaxTime: int := 3600

  /** What every operation keeps: a positive duration, non-negative angles and time. */
  predicate WellFormed(s: DialState)
  {
    s.maxTime > 0 && s.currentAngle >= 0.0 && s.remainingAngle >= 0.0 && s.currentTime >= 0
  }

  /** The seconds shown agree with the remaining-time wedge. */
  predicate Synced(s: DialState)
    requires WellFormed(s)
  {
    s.currentTime == Trunc(RawSeconds(s.remainingAngle, s.maxTime))
  }

  /**
   * updateTime: recompute the seconds from the remaining angle (snapped while
   * dragging) and emit timeUpdated with them.
   */
  function Refresh(s: DialState): (r: DialState)
    requires WellFormed(s)
    ensures WellFormed(r)
    ensures r == s.(currentTime := r.currentTime, events := s.events + [TimeUpdated(r.currentTime)])
    ensures !s.dragging ==> Synced(r)
    ensures s.dragging ==>
              && r.currentTime % SnapSeconds == 0
              && r.currentTime as real - 150.0 <= RawSeconds(s.remainingAngle, s.maxTime) < r.currentTime as real + 150.0
  {
    var t := Trunc(AngleToTime(s.remainingAngle, s.maxTime, s.dragging));
    s.(currentTime := t, events := s.events + [TimeUpdated(t)])
  }

  /** The state the constructor leaves: the default fields, then updateTime. */
  function Initial(): (s: DialState)
    ensures WellFormed(s) && Synced(s) && !s.running && !s.dragging
  {
    Refresh(DialState(DefaultAngle, DefaultAngle, DefaultMaxTime, 0, false, false, []))
  }

  /** startTimer: run only from idle and only with time left; otherwise nothing changes. */
  function Start(s: DialState): (r: DialState)
    ensures r.running <==> s.running || s.currentTime > 0
    ensures r == s.(running := r.running)
  {
    if !s.running && s.currentTime > 0 then s.(running := true) else s
  }

  /** pauseTimer and stopTimer: clear running; nothing else changes, and idle stays as it is. */
  function Stop(s: DialState): (r: DialState)
    ensures !r.running
    ensures r == s.(running := false)
    ensures !s.running ==> r == s
  {
    if s.running then s.(running := false) else s
  }

  /**
   * resetTimer: stop, bring the remaining angle back to the user's target and
   * recompute the seconds from it (snapped while dragging).
   */
  function Reset(s: DialState): (r: DialState)
    requires WellFormed(s)
    ensures WellFormed(r) && !r.running
    ensures r.currentAngle == r.remainingAngle == s.currentAngle
    ensures r.maxTime == s.maxTime && r.dragging == s.dragging
    ensures r.currentTime == Trunc(AngleToTime(s.currentAngle, s.maxTime, s.dragging))
    ensures r.events == s.events + [TimeUpdated(r.currentTime)]
    ensures !s.dragging ==> Synced(r)
  {
    var t := Trunc(AngleToTime(s.currentAngle, s.maxTime, s.dragging));
    s.(running := false, remainingAngle := s.currentAngle, currentTime := t,
       events := s.events + [TimeUpdated(t)])
  }

  /** setMaxTime: a new duration for the full turn; the angles stay, the seconds are rescaled. */
  function SetMax(s: DialState, seconds: int): (r: DialState)
    requires WellFormed(s) && seconds > 0
    ensures WellFormed(r) && r.maxTime == seconds
    ensures r.currentAngle == s.currentAngle && r.remainingAngle == s.remainingAngle
    ensures r.running == s.running && r.dragging == s.dragging
    ensures r.events == s.events + [TimeUpdated(r.currentTime)]
    ensures !s.dragging ==> Synced(r)
    ensures s.dragging ==>
              && r.currentTime % SnapSeconds == 0
              && r.currentTime as real - 150.0 <= RawSeconds(s.remainingAngle, seconds) < r.currentTime as real + 150.0
    ensures !s.dragging && s.remainingAngle <= FullTurn ==> r.currentTime <= seconds
  {
    var r := Refresh(s.(maxTime := seconds));
    assert !s.dragging && s.remainingAngle <= FullTurn ==> r.currentTime <= seconds by {
      if !s.dragging && s.remainingAngle <= FullTurn {
        RawSecondsAtMost(s.remainingAngle, seconds);
      }
    }
    r
  }

  /**
   * The handle moved to a pointer angle in [0, 360): the target becomes the
   * nearest five-minute multiple, both angles show it and timeUpdated is emitted.
   */
  function DragTo(s: DialState, angle: real): (r: DialState)
    requires WellFormed(s) && 0.0 <= angle < FullTurn
    ensures WellFormed(r) && Synced(r) && r.dragging
    ensures r.currentAngle == r.remainingAngle == TimeToAngle(r.currentTime, r.maxTime)
    ensures r.currentTime % SnapSeconds == 0
    ensures r.currentTime as real - 150.0 <= RawSeconds(angle, s.maxTime) < r.currentTime as real + 150.0
    ensures s.maxTime % SnapSeconds <= 150 ==> r.currentTime <= s.maxTime
    ensures r.maxTime == s.maxTime && r.running == s.running
    ensures r.events == s.events + [TimeUpdated(r.currentTime)]
  {
    var target := SnapToFiveMinutes(RawSeconds(angle, s.maxTime));
    var a := TimeToAngle(target, s.maxTime);
    AngleTimeRoundTrip(target, s.maxTime);
    assert s.maxTime % SnapSeconds <= 150 ==> target <= s.maxTime by {
      if s.maxTime % SnapSeconds <= 150 {
        RawSecondsBelowMax(angle, s.maxTime);
        SnapBelow(RawSeconds(angle, s.maxTime), s.maxTime);
      }
    }
    s.(dragging := true, currentAngle := a, remainingAngle := a, currentTime := target,
       events := s.events + [TimeUpdated(target)])
  }

  /** mousePressEvent: a left press on the dial starts a drag there; any other press is ignored. */
  function Press(s: DialState, button: MouseButton, x: real, y: real, bearing: real): (r: DialState)
    requires WellFormed(s) && -180.0 <= bearing <= 180.0
    ensures WellFormed(r)
    ensures button == LeftButton && OnDial(x, y) ==> r == DragTo(s, NormalizeBearing(bearing))
    ensures !(button == LeftButton && OnDial(x, y)) ==> r == s
  {
    if button == LeftButton && OnDial(x, y) then DragTo(s, NormalizeBearing(bearing)) else s
  }

  /** mouseMoveEvent: while dragging the handle follows the pointer; otherwise nothing happens. */
  function Move(s: DialState, bearing: real): (r: DialState)
    requires WellFormed(s) && -180.0 <= bearing <= 180.0
    ensures WellFormed(r)
    ensures s.dragging ==> r == DragTo(s, NormalizeBearing(bearing))
    ensures !s.dragging ==> r == s
  {
    if s.dragging then DragTo(s, NormalizeBearing(bearing)) else s
  }

  /** mouseReleaseEvent: releasing the left button ends the drag and changes nothing else. */
  function Release(s: DialState, button: MouseButton): (r: DialState)
    ensures button == LeftButton ==> !r.dragging
    ensures button != LeftButton ==> r == s
    ensures r == s.(dragging := r.dragging)
  {
    if button == LeftButton then s.(dragging := false) else s
  }

  /**
   * updateTimer: a tick while running with time left takes off exactly one
   * second; reaching zero empties the wedge, stops and emits timerFinished
   * before the final timeUpdated(0). Any other tick changes nothing.
   */
  function Tick(s: DialState): (r: DialState)
    requires WellFormed(s)
    ensures WellFormed(r)
    ensures !s.running || s.currentTime == 0 ==> r == s
    ensures s.running && s.currentTime > 0 ==>
      && r.currentTime == s.currentTime - 1
      && r.running == (r.currentTime > 0)
      && r.remainingAngle == TimeToAngle(r.currentTime, r.maxTime)
      && Synced(r)
      && r.currentAngle == s.currentAngle && r.maxTime == s.maxTime && r.dragging == s.dragging
      && r.events == s.events + (if r.currentTime == 0 then [TimerFinished, TimeUpdated(0)]
                                 else [TimeUpdated(r.currentTime)])
  {
    if !s.running || s.currentTime <= 0 then s
    else
      var t := s.currentTime - 1;
      AngleTimeRoundTrip(t, s.maxTime);
      if t <= 0 then
        s.(currentTime := 0, remainingAngle := 0.0, running := false,
           events := s.events + [TimerFinished, TimeUpdated(0)])
      else
        s.(currentTime := t, remainingAngle := TimeToAngle(t, s.maxTime),
           events := s.events + [TimeUpdated(t)])
  }

  /** The dial widget, its fields updated in place by the methods below. */
  class TimerDial {
    var currentAngle: real
    var remainingAngle: real
    var maxTime: int
    var currentTime: int
    var running: bool
    var dragging: bool
    /** The signals emitted so far, oldest first. */
    var events: seq<Event>

    /** The fields as a value. */
    function State(): DialState
      reads this
    {
      DialState(currentAngle, remainingAngle, maxTime, currentTime, running, dragging, events)
    }

    ghost predicate Valid()
      reads this
    {
      WellFormed(State())
    }

    constructor()
      ensures Valid() && State() == Initial()
      ensures currentAngle == remainingAngle == DefaultAngle && maxTime == DefaultMaxTime
      ensures currentTime == 1500 && !running && !dragging
      ensures events == [TimeUpdated(1500)]
    {
      currentAngle := DefaultAngle;
      remainingAngle := DefaultAngle;
      maxTime := DefaultMaxTime;
      currentTime := 0;
      running := false;
      dragging := false;
      events := [];
      new;
      UpdateTime();
      assert RawSeconds(DefaultAngle, DefaultMaxTime) == 1500.0;
    }

    method StartTimer()
      requires Valid()
      modifies this
      ensures Valid() && State() == Start(old(State()))
    {
      if !running && currentTime > 0 {
        running := true;
      }
    }

    method PauseTimer()
      requires Valid()
      modifies this
      ensures Valid() && State() == Stop(old(State()))
    {
      if running {
        running := false;
      }
    }

    method StopTimer()
      requires Valid()
      modifies this
      ensures Valid() && State() == Stop(old(State()))
    {
      if running {
        running := false;
      }
    }

    method ResetTimer()
      requires Valid()
      modifies this
      ensures Valid() && State() == Reset(old(State()))
    {
      StopTimer();
      currentTime := Trunc(AngleToTime(currentAngle, maxTime, dragging));
      remainingAngle := currentAngle;
      UpdateTime();
    }

    method GetCurrentTime() returns (seconds: int)
      requires Valid()
      ensures seconds == currentTime && seconds >= 0
    {
      seconds := currentTime;
    }

    method SetMaxTime(seconds: int)
      requires Valid() && seconds > 0
      modifies this
      ensures Valid() && State() == SetMax(old(State()), seconds)
    {
      maxTime := seconds;
      UpdateTime();
    }

    method GetMaxTime() returns (seconds: int)
      requires Valid()
      ensures seconds == maxTime && seconds > 0
    {
      seconds := maxTime;
    }

    method IsRunning() returns (b: bool)
      ensures b == running
    {
      b := running;
    }

    /** The pointer's bearing (degrees clockwise from 12 o'clock, as qAtan2 gives it) is passed in. */
    method MousePressEvent(button: MouseButton, x: real, y: real, bearing: real)
      requires Valid() && -180.0 <= bearing <= 180.0
      modifies this
      ensures Valid() && State() == Press(old(State()), button, x, y, bearing)
    {
      if button == LeftButton {
        var angle := bearing;
        if angle < 0.0 {
          angle := angle + FullTurn;
        }
        if OnDial(x, y) {
          dragging := true;
          currentAngle := angle;
          SnapHandle();
        }
      }
    }

    method MouseMoveEvent(bearing: real)
      requires Valid() && -180.0 <= bearing <= 180.0
      modifies this
      ensures Valid() && State() == Move(old(State()), bearing)
    {
      if dragging {
        var angle := bearing;
        if angle < 0.0 {
          angle := angle + FullTurn;
        }
        currentAngle := angle;
        SnapHandle();
      }
    }

    method MouseReleaseEvent(button: MouseButton)
      modifies this
      ensures State() == Release(old(State()), button)
    {
      if button == LeftButton {
        dragging := false;
      }
    }

    /**
     * The snapping steps shared by the press and move handlers: round the
     * handle's time to five minutes, put both angles there, then updateTime.
     */
    method SnapHandle()
      requires Valid() && dragging && currentAngle < FullTurn
      modifies this
      ensures Valid() && State() == DragTo(old(State()), old(currentAngle))
    {
      var seconds := Trunc(AngleToTime(currentAngle, maxTime, dragging));
      var fiveMinIntervals := QRound(seconds as real / 300.0);
      assert fiveMinIntervals * SnapSeconds == seconds;
      currentAngle := TimeToAngle(fiveMinIntervals * SnapSeconds, maxTime);
      remainingAngle := currentAngle;
      SnapRoundTrip(fiveMinIntervals, maxTime);
      UpdateTime();
    }

    /** updateTime */
    method UpdateTime()
      requires Valid()
      modifies this
      ensures Valid() && State() == Refresh(old(State()))
    {
      currentTime := Trunc(AngleToTime(remainingAngle, maxTime, dragging));
      events := events + [TimeUpdated(currentTime)];
    }

    /** updateTimer: one tick of the countdown. */
    method UpdateTimer()
      requires Valid()
      modifies this
      ensures Valid() && State() == Tick(old(State()))
    {
      if !running || currentTime <= 0 {
        return;
      }
      currentTime := currentTime - 1;
      if currentTime <= 0 {
        currentTime := 0;
        remainingAngle := 0.0;
        StopTimer();
        events := events + [TimerFinished];
      } else {
        remainingAngle := currentTime as real / maxTime as real * FullTurn;
      }
      events := events + [TimeUpdated(currentTime)];
    }
  }
}
