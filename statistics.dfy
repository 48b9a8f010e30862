/** The shared controller context (`Common`) that every state's handlers
    update: five event counters, the running lamp and the commanded speed. */
module Statistics {

  /** The value of a `Common` object at one moment. */
  datatype Counters = Counters(
    startCount: int,
    stopCount: int,
    setSpeedCount: int,
    unknownCount: int,
    stoppedCount: int,
    isLampOn: bool,
    speed: int)

  /** What `ClearStatistics` leaves behind: every counter and the speed zero,
      the lamp off. */
  const Cleared := Counters(0, 0, 0, 0, 0, false, 0)

  /** The five counters, in declaration order. */
  function Counts(c: Counters): (r: seq<int>)
    ensures |r| == 5
  {
    [c.startCount, c.stopCount, c.setSpeedCount, c.unknownCount, c.stoppedCount]
  }

  /** The number of messages the counters account for. */
  function Total(c: Counters): int
  {
    c.startCount + c.stopCount + c.setSpeedCount + c.unknownCount + c.stoppedCount
  }

  /** Exactly one of the five counters of `after` is one higher than in
      `before`, the other four are equal, and the lamp is as it was. (The
      speed is not constrained: a `SetSpeed` handler changes it.) */
  ghost predicate OneCounterBumped(before: Counters, after: Counters)
  {
    && after.isLampOn == before.isLampOn
    && exists k :: 0 <= k < 5 && Counts(after) == Counts(before)[k := Counts(before)[k] + 1]
  }

  /** The shared context object. States hold a reference to it and update
      its fields in place. */
  class Common {
    var startCount: int
    var stopCount: int
    var setSpeedCount: int
    var unknownCount: int
    var stoppedCount: int
    var isLampOn: bool
    var speed: int

    /** The current value of all fields. */
    function Value(): Counters
      reads this
    {
      Counters(startCount, stopCount, setSpeedCount, unknownCount, stoppedCount, isLampOn, speed)
    }

    /** A new context starts cleared. */
    constructor ()
      ensures Value() == Cleared
    {
      startCount, stopCount, setSpeedCount, unknownCount, stoppedCount := 0, 0, 0, 0, 0;
      isLampOn, speed := false, 0;
    }

    /** Zeroes every counter and the speed and turns the lamp off. */
    method ClearStatistics()
      modifies this
      ensures Value() == Cleared
    {
      startCount, stopCount, setSpeedCount, unknownCount, stoppedCount := 0, 0, 0, 0, 0;
      isLampOn, speed := false, 0;
    }

    /** Records the commanded speed; nothing else changes. */
    method SetSpeed(speed': int)
      modifies this
      ensures Value() == old(Value()).(speed := speed')
    {
      speed := speed';
    }

    /** Turns the running lamp on; nothing else changes. */
    method TurnRunningLampOn()
      modifies this
      ensures Value() == old(Value()).(isLampOn := true)
    {
      isLampOn := true;
    }

    /** Turns the running lamp off; nothing else changes. */
    method TurnRunningLampOff()
      modifies this
      ensures Value() == old(Value()).(isLampOn := false)
    {
      isLampOn := false;
    }
  }
}
