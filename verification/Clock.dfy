/** The controllable clock: real time with an offset, or a value that only moves on request. */
module Clocks {

  datatype ClockMode = Real(startedAt: int, base: int) | Paused(now: int)

  class Clock {
    var mode: ClockMode
    var wall: int  // what `Instant::now()` reads

    ghost predicate Valid()
      reads this
    {
      mode.Real? ==> mode.startedAt <= wall
    }

    constructor NewPaused(wall: int)
      ensures Valid() && mode == Paused(wall) && Now() == wall
    {
      this.wall := wall;
      mode := Paused(wall);
    }

    constructor New(wall: int)
      ensures Valid() && mode.Real? && Now() == wall
    {
      this.wall := wall;
      mode := Real(wall, wall);
    }

    function Now(): int
      reads this
    {
      match mode
      case Real(startedAt, base) => base + (wall - startedAt)
      case Paused(now) => now
    }

    // Real time goes by outside the program.
    method Elapse(d: nat)
      requires Valid()
      modifies this
      ensures Valid() && mode == old(mode)
      ensures Now() == old(Now()) + if mode.Real? then d else 0
    {
      wall := wall + d;
    }

    // Pausing and resuming keep the virtual time; in both modes the other call is a panic.
    method Pause()
      requires Valid() && mode.Real?
      modifies this
      ensures Valid() && mode.Paused? && Now() == old(Now())
    {
      mode := Paused(mode.base + (wall - mode.startedAt));
    }

    method Resume()
      requires Valid() && mode.Paused?
      modifies this
      ensures Valid() && mode.Real? && Now() == old(Now())
    {
      mode := Real(wall, mode.now);
    }

    method Advance(d: nat)
      requires Valid() && mode.Paused?
      modifies this
      ensures Valid() && mode.Paused? && Now() == old(Now()) + d
    {
      mode := Paused(mode.now + d);
    }

    method AdvanceTo(instant: int)
      requires Valid() && mode.Paused? && instant >= Now()
      modifies this
      ensures Valid() && mode.Paused? && Now() == instant
    {
      mode := Paused(instant);
    }
  }
}
