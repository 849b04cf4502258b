/**
 * Properties of the dial over sequences of operations: a run of ticks counts
 * down one second per tick and finishes exactly once, a pause freezes the
 * count, and a reset returns to the last dragged target.
 */
module Countdown {
  import opened DialMath
  import opened Dial

  /** The state after n ticks of the periodic timer. */
  function Ticks(s: DialState, n: nat): (r: DialState)
    requires WellFormed(s)
    ensures WellFormed(r)
    decreases n
  {
    if n == 0 then s else Ticks(Tick(s), n - 1)
  }

  /** The signals of one tick that leaves t seconds. */
  function StepEvents(t: int): seq<Event>
  {
    if t == 0 then [TimerFinished, TimeUpdated(0)] else [TimeUpdated(t)]
  }

  /** The signals of n firing ticks counting down from t seconds. */
  function TickEvents(t: int, n: nat): seq<Event>
    decreases n
  {
    if n == 0 then [] else StepEvents(t - 1) + TickEvents(t - 1, n - 1)
  }

  /** How many timerFinished signals a log holds. */
  function Finishes(events: seq<Event>): nat
  {
    if events == [] then 0
    else Finishes(events[..|events| - 1]) + (if events[|events| - 1] == TimerFinished then 1 else 0)
  }

  lemma {:induction false} FinishesAppend(a: seq<Event>, b: seq<Event>)
    ensures Finishes(a + b) == Finishes(a) + Finishes(b)
    decreases |b|
  {
    if b == [] {
      assert a + b == a;
    } else {
      var b' := b[..|b| - 1];
      assert (a + b)[..|a + b| - 1] == a + b';
      FinishesAppend(a, b');
    }
  }

  /** A dial that is idle, or running with nothing left, ignores every tick. */
  lemma {:induction false} IdleTicks(s: DialState, n: nat)
    requires WellFormed(s) && (!s.running || s.currentTime == 0)
    ensures Ticks(s, n) == s
    decreases n
  {
    if n > 0 {
      IdleTicks(Tick(s), n - 1);
    }
  }

  lemma {:induction false} TicksSplit(s: DialState, a: nat, b: nat)
    requires WellFormed(s)
    ensures Ticks(s, a + b) == Ticks(Ticks(s, a), b)
    decreases a
  {
    if a > 0 {
      TicksSplit(Tick(s), a - 1, b);
    }
  }

  /** Ticks never move the user's target, the duration or the drag state. */
  lemma {:induction false} TicksKeepTarget(s: DialState, n: nat)
    requires WellFormed(s)
    ensures Ticks(s, n).currentAngle == s.currentAngle
    ensures Ticks(s, n).maxTime == s.maxTime && Ticks(s, n).dragging == s.dragging
    decreases n
  {
    if n > 0 {
      TicksKeepTarget(Tick(s), n - 1);
    }
  }

  /**
   * While time is left, each tick of a running dial takes off exactly one
   * second and emits timeUpdated with the new value; the last second's tick
   * stops the dial and emits timerFinished first.
   */
  lemma {:induction false} CountdownSteps(s: DialState, n: nat)
    requires WellFormed(s) && s.running && 0 < s.currentTime && n <= s.currentTime
    ensures Ticks(s, n).currentTime == s.currentTime - n
    ensures Ticks(s, n).running == (n < s.currentTime)
    ensures Ticks(s, n).events == s.events + TickEvents(s.currentTime, n)
    ensures n > 0 ==> Synced(Ticks(s, n))
    ensures n > 0 ==> Ticks(s, n).remainingAngle == TimeToAngle(s.currentTime - n, s.maxTime)
    decreases n
  {
    if n > 0 {
      var t := s.currentTime;
      var s1 := Tick(s);
      assert s1.currentTime == t - 1 && s1.events == s.events + StepEvents(t - 1);
      assert TickEvents(t, n) == StepEvents(t - 1) + TickEvents(t - 1, n - 1);
      if n == 1 {
        assert Ticks(s, n) == s1;
        assert TickEvents(t - 1, 0) == [];
      } else {
        assert s1.running && 0 < s1.currentTime;
        assert Ticks(s, n) == Ticks(s1, n - 1);
        CountdownSteps(s1, n - 1);
      }
    }
  }

  /** The events of a full countdown from t seconds hold one timerFinished and end in timeUpdated(0). */
  lemma {:induction false} FullCountdownEvents(t: nat)
    requires t > 0
    ensures Finishes(TickEvents(t, t)) == 1
    ensures |TickEvents(t, t)| > 0 && TickEvents(t, t)[|TickEvents(t, t)| - 1] == TimeUpdated(0)
    decreases t
  {
    if t == 1 {
      assert TickEvents(1, 1) == [TimerFinished, TimeUpdated(0)];
      assert Finishes([TimerFinished]) == 1;
    } else {
      FullCountdownEvents(t - 1);
      FinishesAppend([TimeUpdated(t - 1)], TickEvents(t - 1, t - 1));
      assert Finishes([TimeUpdated(t - 1)]) == 0;
    }
  }

  /**
   * However many ticks arrive after the running time is used up, the dial
   * ends at zero, stopped, with an empty wedge, having emitted timerFinished
   * exactly once, followed by timeUpdated(0).
   */
  lemma CountdownFinishes(s: DialState, n: nat)
    requires WellFormed(s) && s.running && 0 < s.currentTime <= n
    ensures Ticks(s, n).currentTime == 0 && !Ticks(s, n).running
    ensures Ticks(s, n).remainingAngle == 0.0
    ensures Ticks(s, n).currentAngle == s.currentAngle
    ensures Finishes(Ticks(s, n).events) == Finishes(s.events) + 1
    ensures Ticks(s, n).events[|Ticks(s, n).events| - 1] == TimeUpdated(0)
  {
    var t := s.currentTime;
    TicksSplit(s, t, n - t);
    CountdownSteps(s, t);
    var done := Ticks(s, t);
    IdleTicks(done, n - t);
    TicksKeepTarget(s, t);
    FullCountdownEvents(t);
    FinishesAppend(s.events, TickEvents(t, t));
  }

  /**
   * A pause freezes the count: ticks while paused change nothing, and
   * starting again gives back exactly the running state that was paused.
   */
  lemma PauseThenResume(s: DialState, n: nat)
    requires WellFormed(s) && s.running && s.currentTime > 0
    ensures Ticks(Stop(s), n) == Stop(s)
    ensures Start(Ticks(Stop(s), n)) == s
  {
    IdleTicks(Stop(s), n);
  }

  /**
   * Dragging the handle to zero while the dial runs leaves it running with no
   * time left: no later tick changes it, and timerFinished is never emitted.
   */
  lemma DragToZeroWhileRunning(s: DialState, n: nat)
    requires WellFormed(s) && s.running && s.dragging
    ensures Move(s, 0.0).running && Move(s, 0.0).currentTime == 0
    ensures Ticks(Move(s, 0.0), n) == Move(s, 0.0)
  {
    var d := Move(s, 0.0);
    assert RawSeconds(0.0, s.maxTime) == 0.0;
    IdleTicks(d, n);
  }

  /**
   * Reset returns to the last dragged target, not to zero: after a drag, a
   * release, a start and any number of ticks, reset shows the dragged time again.
   */
  lemma ResetRestoresDragTarget(s: DialState, x: real, y: real, bearing: real, n: nat)
    requires WellFormed(s) && OnDial(x, y) && -180.0 <= bearing <= 180.0
    ensures var d := Release(Press(s, LeftButton, x, y, bearing), LeftButton);
            var r := Reset(Ticks(Start(d), n));
            && r.currentTime == d.currentTime && !r.running
            && r.currentAngle == r.remainingAngle == d.currentAngle
  {
    var d := Release(Press(s, LeftButton, x, y, bearing), LeftButton);
    TicksKeepTarget(Start(d), n);
    AngleTimeRoundTrip(d.currentTime, d.maxTime);
  }

  /**
   * On a new dial, a press straight below the centre drags to 180 degrees,
   * half an hour; started, it finishes after 1800 ticks, at zero, stopped,
   * with exactly one timerFinished.
   */
  lemma HalfHourRunsDown()
    ensures Press(Initial(), LeftButton, 0.0, 10.0, 180.0).currentTime == 1800
    ensures Press(Initial(), LeftButton, 0.0, 10.0, 180.0).events == [TimeUpdated(1500), TimeUpdated(1800)]
    ensures var r := Ticks(Start(Release(Press(Initial(), LeftButton, 0.0, 10.0, 180.0), LeftButton)), 1800);
            r.currentTime == 0 && !r.running && Finishes(r.events) == 1
  {
    var s := Initial();
    assert RawSeconds(DefaultAngle, DefaultMaxTime) == 1500.0;
    assert OnDial(0.0, 10.0);
    assert RawSeconds(180.0, DefaultMaxTime) == 1800.0;
    var d := Press(s, LeftButton, 0.0, 10.0, 180.0);
    assert d.currentTime == 1800;
    var go := Start(Release(d, LeftButton));
    CountdownFinishes(go, 1800);
    assert Finishes([TimeUpdated(1500), TimeUpdated(1800)]) == 0;
  }
}
