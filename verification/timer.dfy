/**
 * The standalone Timer: a running flag and a time that every operation
 * leaves at zero.
 */
module SimpleTimer {

  class Timer {
    var time: int
    var running: bool

    /** No operation ever sets the time to anything but zero. */
    ghost predicate Valid()
      reads this
    {
      time == 0
    }

    constructor()
      ensures Valid() && time == 0 && !running
    {
      time := 0;
      running := false;
    }

    /** Sets running; calling it again changes nothing. The time is left alone. */
    method Start()
      requires Valid()
      modifies this
      ensures Valid() && running && time == old(time)
    {
      if !running {
        running := true;
      }
    }

    /** Clears running; calling it again changes nothing. The time is left alone. */
    method Stop()
      requires Valid()
      modifies this
      ensures Valid() && !running && time == old(time)
    {
      if running {
        running := false;
      }
    }

    /** From any state at all: time zero, not running. */
    method Reset()
      modifies this
      ensures Valid() && time == 0 && !running
    {
      time := 0;
      running := false;
    }

    method GetTime() returns (t: int)
      requires Valid()
      ensures t == 0
    {
      t := time;
    }

    method IsRunning() returns (b: bool)
      ensures b == running
    {
      b := running;
    }
  }
}
