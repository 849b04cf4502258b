# VisualTimer countdown dial in Dafny

This project models the core of VisualTimer, a Qt desktop countdown timer. The user sets a
duration by dragging a handle around a circular dial. The dial then counts down one second
per tick, shows the time left as a red wedge and as a label, and signals when it reaches zero.

What is modelled:

- **The dial** (`TimerDial`, `src/timerdial.cpp`). This is class `Dial.TimerDial`, with the
  fields of the C++ class: target angle, remaining angle, full-dial duration, seconds left,
  running and dragging. A field `events` records the `timeUpdated` and `timerFinished`
  signals in the order they are emitted.
  - Each method follows the C++ statements. Each is proved to produce exactly the state given
    by a value-level function of module `Dial`: `Start`, `Stop`, `Reset`, `SetMax`, `Press`,
    `Move`, `Release`, `Tick` and `Refresh` (the C++ `updateTime`).
  - The properties are proved about those functions.
- **The angle/time arithmetic** (module `DialMath`):
  - `angleToTime` and `timeToAngle`.
  - Five-minute snapping.
  - Qt's `qRound`, and the implicit truncating `qreal`→`int` conversion.
- **Sequences of operations** (module `Countdown`):
  - A running dial counts down one second per tick.
  - It finishes with exactly one `timerFinished`.
  - A pause freezes it.
  - A reset returns to the last dragged target.
- **The standalone `Timer`** (`src/timer.cpp`), as class `SimpleTimer.Timer`.
- **The time label** `formatTimeDisplay` (`src/mainwindow.cpp`), as function
  `TimeDisplay.FormatTimeDisplay`. A parser, `ParseTimeDisplay`, is its partner: the round-trip
  lemma shows that the label carries exactly the minute and second fields.
- **The main window's button handlers and slots**, as class `Window.MainWindow`.

Modelling choices:

- Angles are Dafny `real`s, so the conversions are exact rational arithmetic.
- The pointer's bearing, which the C++ code gets from `qAtan2` in [-180, 180], is a method
  parameter. The model normalises it to [0, 360) as the source does.
- The hit test "distance from the centre ≤ DIAL_SIZE/2" is stated as x² + y² ≤ 90².
- A tick of the `QTimer` is an explicit call of `UpdateTimer`.

Behaviour of the code that the proofs make explicit:

- **Snapping can pass the end of the dial.** This happens when the full-dial duration is more
  than 150 s above a multiple of 300 s. With 3500 s, a press at 359° snaps to 3600 s
  (`DialMath.SnapOvershoot`). The bound "seconds ≤ duration" is proved only when
  `maxTime % 300 <= 150` (`DialMath.SnapWithinDial`). The default 3600 s satisfies it.
- **A running dial dragged to zero never finishes.** The dial stays "running" with 0 s,
  every later tick is ignored, and `timerFinished` is never emitted
  (`Countdown.DragToZeroWhileRunning`).
- **The start button can show "Pause" on a stopped dial.** Clicking start with 0 s on the
  dial shows the pause face although the dial did not start (`Window.MainWindow.OnStartButtonClicked`).
- **Hours are dropped from the label.** 3600 s shows as "0s" (`TimeDisplay.HoursDiscarded`).

Details of the code the model follows:

- The seconds cached from an angle are truncated toward zero, not rounded.
- Only a left-button release ends a drag.
- Nothing rejects a non-positive duration. The constructor fixes 3600 s, and `setMaxTime`
  accepts any `int`. Here `SetMaxTime` requires a positive value; see "Left out".

## Model

| member | source | states |
|---|---|---|
| DialMath.QRound | src/timerdial.cpp:238 | qRound of a non-negative value is the nearest integer, with halves rounded up |
| DialMath.Trunc | src/timerdial.cpp:254 | the qreal→int conversion truncates toward zero; for non-negative values it is the floor |
| DialMath.SnapToFiveMinutes | src/timerdial.cpp:237-239 | the snapped time is a multiple of 300 within 150 s of the raw time (nearest multiple, ties up) |
| DialMath.AngleToTime | src/timerdial.cpp:232-244 | the time is the angle's share of the full-dial duration; while dragging, it is that share snapped to a multiple of 300 s within 150 s of it |
| DialMath.TimeToAngle | src/timerdial.cpp:246-250 | seconds between 0 and the duration map to an angle between 0 and 360 |
| DialMath.NormalizeBearing | src/timerdial.cpp:180-183 | a bearing in [-180, 180] becomes an angle in [0, 360); 360 is added only to a negative bearing |
| DialMath.AngleTimeRoundTrip | src/timerdial.cpp:232-250 | when not dragging, angleToTime(timeToAngle(s)) == s for every s ≥ 0 and positive duration |
| DialMath.SnapRoundTrip | src/timerdial.cpp:190-195 | an angle encoding a multiple of 300 s snaps back to exactly that multiple, so updateTime after a drag keeps the snapped time |
| DialMath.SnapWithinDial | src/timerdial.cpp:237-239 | a snapped angle in [0, 360) never passes the duration when the duration is at most 150 s above a multiple of 300 |
| DialMath.SnapOvershoot | src/timerdial.cpp:237-239 | with a duration of 3500 s, an angle of 359° snaps to 3600 s, past the duration |
| Dial.Refresh | src/timerdial.cpp:252-256 | updateTime changes only the seconds and emits timeUpdated with them; when not dragging they agree with the remaining wedge, while dragging they are the multiple of 300 s within 150 s of the wedge's raw seconds |
| Dial.Initial | src/timerdial.cpp:11-32 | the constructed dial is well formed, idle, not dragging, and its seconds agree with its wedge |
| Dial.Start | src/timerdial.cpp:120-127 | the dial runs afterwards exactly when it was running or had time left; nothing else changes (so starting at 0 s does nothing) |
| Dial.Stop | src/timerdial.cpp:129-143 | pause/stop clear running, change nothing else, and do nothing when idle |
| Dial.Reset | src/timerdial.cpp:145-152 | reset stops the dial and sets the remaining angle to the target angle; the seconds become the target's time, and when not dragging that is floor(angle/360·duration); one timeUpdated is emitted |
| Dial.SetMax | src/timerdial.cpp:159-164 | the duration changes, the angles stay, and the seconds are rescaled from the remaining angle: synced when not dragging (never above the new duration when that angle is at most 360°), the multiple of 300 s within 150 s of the raw seconds over the new duration while dragging |
| Dial.DragTo | src/timerdial.cpp:186-196 | after a drag step: dragging; both angles equal timeToAngle(seconds); the seconds are the multiple of 300 nearest the pointer's raw time and agree with the wedge; the seconds are ≤ the duration when duration % 300 ≤ 150; one timeUpdated |
| Dial.Press | src/timerdial.cpp:176-200 | a left press within radius 90 is a drag step to the normalised bearing; any other press changes nothing and emits nothing |
| Dial.Move | src/timerdial.cpp:202-222 | a move while dragging is a drag step; otherwise nothing changes |
| Dial.Release | src/timerdial.cpp:224-230 | a left release clears dragging and nothing else; other buttons change nothing |
| Dial.Tick | src/timerdial.cpp:267-287 | a tick while running with time left takes off exactly 1 s. The wedge becomes seconds/duration·360 and the target is kept. At 0 the dial stops and emits timerFinished then timeUpdated(0); otherwise it emits timeUpdated(seconds). Any other tick changes nothing |
| Dial.TimerDial.constructor | src/timerdial.cpp:11-32 | both angles 150°, duration 3600 s, 1500 s, idle, not dragging, one timeUpdated(1500) |
| Dial.TimerDial.StartTimer | src/timerdial.cpp:120-127 | the new state is Start of the old one |
| Dial.TimerDial.PauseTimer | src/timerdial.cpp:129-135 | the new state is Stop of the old one |
| Dial.TimerDial.StopTimer | src/timerdial.cpp:137-143 | the new state is Stop of the old one |
| Dial.TimerDial.ResetTimer | src/timerdial.cpp:145-152 | the C++ steps (stop, time from the target, remaining angle := target, updateTime) give Reset of the old state |
| Dial.TimerDial.GetCurrentTime | src/timerdial.cpp:154-157 | returns the seconds left, never negative |
| Dial.TimerDial.SetMaxTime | src/timerdial.cpp:159-164 | the new state is SetMax of the old one |
| Dial.TimerDial.GetMaxTime | src/timerdial.cpp:166-169 | returns the duration, always positive |
| Dial.TimerDial.IsRunning | src/timerdial.cpp:171-174 | returns the running flag |
| Dial.TimerDial.MousePressEvent | src/timerdial.cpp:176-200 | the new state is Press of the old one for the given button, position and bearing |
| Dial.TimerDial.MouseMoveEvent | src/timerdial.cpp:202-222 | the new state is Move of the old one |
| Dial.TimerDial.MouseReleaseEvent | src/timerdial.cpp:224-230 | the new state is Release of the old one |
| Dial.TimerDial.SnapHandle | src/timerdial.cpp:189-196 | the C++ double rounding (truncate the snapped time, qRound it by 300, back to an angle, updateTime) lands exactly on DragTo of the pointer's angle |
| Dial.TimerDial.UpdateTime | src/timerdial.cpp:252-256 | the new state is Refresh of the old one |
| Dial.TimerDial.UpdateTimer | src/timerdial.cpp:267-287 | the new state is Tick of the old one |
| Countdown.Ticks | src/timerdial.cpp:267-287 | any number of ticks keeps the dial well formed |
| Countdown.IdleTicks | src/timerdial.cpp:269-270 | a dial that is not running, or running at 0 s, is unchanged by any number of ticks |
| Countdown.TicksKeepTarget | src/timerdial.cpp:272-283 | ticks never change the target angle, the duration or the drag state |
| Countdown.CountdownSteps | src/timerdial.cpp:272-285 | n ≤ t ticks from t > 0 running seconds leave t − n seconds, still running iff n < t. The wedge is (t − n)/duration·360. The log gains timeUpdated(t−1) … timeUpdated(t−n), with timerFinished before timeUpdated(0) |
| Countdown.FullCountdownEvents | src/timerdial.cpp:276-285 | the signals of a full countdown hold exactly one timerFinished and end with timeUpdated(0) |
| Countdown.CountdownFinishes | src/timerdial.cpp:276-286 | at least t ticks from t > 0 running seconds end at 0 s, stopped, empty wedge, target unchanged. Exactly one timerFinished is added, and the last signal is timeUpdated(0) |
| Countdown.PauseThenResume | src/timerdial.cpp:120-135 | ticks during a pause change nothing; start after a pause restores exactly the paused running state |
| Countdown.DragToZeroWhileRunning | src/timerdial.cpp:202-222 | dragging a running dial to 0° leaves it running at 0 s; no later tick changes it or emits timerFinished |
| Countdown.ResetRestoresDragTarget | src/timerdial.cpp:145-152 | after a press on the dial, a release, a start and any ticks, reset restores the dragged seconds and angle, not 0 |
| Countdown.HalfHourRunsDown | src/timerdial.cpp:176-200 | on a new dial a press at 180° gives 1800 s and timeUpdated(1800); started, 1800 ticks end at 0 s, stopped, with exactly one timerFinished |
| SimpleTimer.Timer.constructor | src/timer.cpp:3 | a new timer has time 0 and is not running |
| SimpleTimer.Timer.Start | src/timer.cpp:5-9 | running afterwards whatever the previous state (so idempotent); time unchanged |
| SimpleTimer.Timer.Stop | src/timer.cpp:11-15 | not running afterwards whatever the previous state (so idempotent); time unchanged |
| SimpleTimer.Timer.Reset | src/timer.cpp:17-20 | from any state: time 0, not running |
| SimpleTimer.Timer.GetTime | src/timer.cpp:22-24 | always returns 0, since the invariant time == 0 holds from construction through every operation |
| SimpleTimer.Timer.IsRunning | src/timer.cpp:26-28 | returns the running flag |
| TimeDisplay.TruncDiv | src/mainwindow.cpp:131 | C++ integer division: the quotient has the sign of the dividend |
| TimeDisplay.TruncRem | src/mainwindow.cpp:132 | C++ remainder: dividend = 60·quotient + remainder, the remainder has the dividend's sign and magnitude below 60 |
| TimeDisplay.IntToString | src/mainwindow.cpp:139 | QString::arg writes an int in decimal without leading zeros: a non-negative n as at least one digit that read back as n, a negative n as "-" followed by such digits for -n |
| TimeDisplay.NoLeadingZero | src/mainwindow.cpp:139 | the decimal text of a number of two or more digits does not start with '0' |
| TimeDisplay.ParseNatToString | src/mainwindow.cpp:139 | the decimal digits of n read back as n |
| TimeDisplay.FormatTimeDisplay | src/mainwindow.cpp:129-146 | the label is at least two characters and ends in "s" |
| TimeDisplay.FieldsOfNonNegative | src/mainwindow.cpp:131-133 | for seconds ≥ 0 the minute field is (seconds/60) % 60 and the second field seconds % 60, both in [0, 59] |
| TimeDisplay.FormatShape | src/mainwindow.cpp:137-143 | with a positive minute field the label is "<m>m <s>s", otherwise "<s>s" |
| TimeDisplay.HoursDiscarded | src/mainwindow.cpp:133 | a time and the same time one hour later give the same label |
| TimeDisplay.FormatExamples | src/mainwindow.cpp:129-146 | 1500 s shows as "25m 0s", 3600 s as "0s", 3660 s as "1m 0s" |
| TimeDisplay.FormatParseRoundTrip | src/mainwindow.cpp:129-146 | parsing the label of any seconds ≥ 0 gives back exactly its minute and second fields |
| TimeDisplay.DistinctWithinHour | src/mainwindow.cpp:131-143 | two different times below one hour give different labels |
| Window.MainWindow.constructor | src/mainwindow.cpp:12-56 | a fresh default dial, the play face, and the label "25m 0s" from the dial's time |
| Window.MainWindow.OnStartButtonClicked | src/mainwindow.cpp:63-76 | a running dial is paused and the play face shown; otherwise start is called and the pause face shown; reset is enabled exactly when the dial is not running afterwards |
| Window.MainWindow.OnResetButtonClicked | src/mainwindow.cpp:79-86 | the dial is reset, the play face shown, start enabled and reset disabled; the timeUpdated of the reset reaches the label, which shows formatTimeDisplay of the dial's new seconds |
| Window.MainWindow.UpdateTimeDisplay | src/mainwindow.cpp:88-91 | the label becomes formatTimeDisplay of the seconds; nothing else changes |
| Window.MainWindow.TimerFinished | src/mainwindow.cpp:93-102 | after the finished signal start is disabled, reset enabled and the play face shown |

## Left out

- Dial.DragTo: the bound "seconds ≤ duration" after a drag is stated only when `maxTime % 300 <= 150`, because otherwise it is false (`DialMath.SnapOvershoot`).
- Dial.TimerDial.SetMaxTime: requires a positive duration. With 0 the C++ code later divides by zero in `timeToAngle`; with a negative value it stores negative times in `m_currentTime`. The same precondition is on `Dial.SetMax`.
- DialMath.QRound: defined only for non-negative values. Qt versions round negative halves differently, and no caller passes a negative value.
- Floating point: angles are exact rationals. The C++ `double` arithmetic can round before a truncation: 27 s on a 3600 s dial gives the angle 2.7, which converts back to 26.999999999999996 and truncates to 26 s. So the `Synced` that `Dial.Tick` ensures, and `DialMath.AngleTimeRoundTrip`, hold in exact arithmetic; in `double` they fail for some times (for 391 of the values 0..3600 on a 3600 s dial). Such rounding effects are not modelled.
- Integer width: `int` is unbounded here. Overflow of `m_maxTime`, or of `fiveMinIntervals * 300`, is not modelled.
- Painting (`paint`, `boundingRect`, `angleToPoint`): floating-point rendering and trigonometry.
- `qAtan2`: the pointer's bearing is an input of the mouse handlers, not computed from the position.
- The `QTimer`: scheduling, start/stop of the timer object and its deletion in the destructor. A tick is a call of `UpdateTimer`.
- The wall-clock timestamp `m_lastUpdateTime` and `elapsedSeconds`: they are recorded but never affect the countdown.
- `update()` redraw requests, and the forwarding of mouse events to the `QGraphicsItem` base class.
- Signal delivery (`connect`): the dial's signals are logged in `events`, and the window's slots are separate methods. Only the reset handler passes its dial's `timeUpdated` on to `UpdateTimeDisplay`; ticks and drags are not connected to the window.
- Icons and tooltips: the start button's icon and tooltip, which are always set together, are one `StartFace` value. The reset icon, the icon sizes and the style sheets are not modelled.
- The message box shown on finish, `resizeEvent` and `showEvent`.
- The initial enabled state of the two buttons comes from `mainwindow.ui`, which is not part of this model. Both are taken as enabled, the `QPushButton` default.
- `src/iconhelper.h` (pixmap drawing) and `src/main.cpp` (application start-up).
