/** The three motor-control tests, replayed on a fresh engine each. Every
    intermediate check of a test is an `assert` here, and the final state
    of each run is what the method returns. */
module MotorScenarios {
  import opened Messages
  import opened Statistics
  import opened MotorStates
  import opened MotorEngine

  /** The full run: unknown events in `Idle`, start, speed, stop, winding
      down, and the chained `Idle` to `Locked` transition at the end. */
  method RunMotorControl() returns (final: StateId, stats: Counters)
    ensures final == Locked
    ensures stats == Counters(1, 1, 1, 8, 1, false, 100)
  {
    var mc := new MotorControl();
    mc.Reset();
    mc.common.ClearStatistics();
    assert !mc.IsStarted();

    mc.Start();
    assert mc.IsStarted();
    assert mc.GetStateId() == Idle && mc.common.Value() == Cleared;

    IdlePhase(mc);
    RunningPhase(mc);
    WindingDownPhase(mc);
    final, stats := mc.GetStateId(), mc.common.Value();
  }

  /** In `Idle`: three events it does not accept, then `Start`. */
  method IdlePhase(mc: MotorControl)
    requires mc.started && mc.state == Idle && mc.common.Value() == Cleared
    modifies mc, mc.common
    ensures mc.started && mc.state == Running
    ensures mc.common.Value() == Counters(1, 0, 0, 3, 0, true, 0)
  {
    ghost var entered := mc.Receive(Stop(false));
    entered := mc.Receive(Stopped);
    entered := mc.Receive(SetSpeed(10));
    assert mc.GetStateId() == Idle;
    assert mc.common.Value() == Cleared.(unknownCount := 3);

    entered := mc.Receive(Start);
  }

  /** In `Running`: two events it does not accept, a speed, then a normal
      stop. */
  method RunningPhase(mc: MotorControl)
    requires mc.started && mc.state == Running
    requires mc.common.Value() == Counters(1, 0, 0, 3, 0, true, 0)
    modifies mc, mc.common
    ensures mc.started && mc.state == WindingDown
    ensures mc.common.Value() == Counters(1, 1, 1, 5, 0, true, 100)
  {
    ghost var entered := mc.Receive(Start);
    entered := mc.Receive(Stopped);
    assert mc.GetStateId() == Running;
    assert mc.common.Value() == Counters(1, 0, 0, 5, 0, true, 0);

    entered := mc.Receive(SetSpeed(100));
    assert mc.GetStateId() == Running;
    assert mc.common.Value() == Counters(1, 0, 1, 5, 0, true, 100);

    entered := mc.Receive(Stop(false));
  }

  /** In `WindingDown`: three events it does not accept, then `Stopped`,
      which lands in `Locked` by way of `Idle`. */
  method WindingDownPhase(mc: MotorControl)
    requires mc.started && mc.state == WindingDown
    requires mc.common.Value() == Counters(1, 1, 1, 5, 0, true, 100)
    modifies mc, mc.common
    ensures mc.started && mc.state == Locked
    ensures mc.common.Value() == Counters(1, 1, 1, 8, 1, false, 100)
  {
    ghost var entered := mc.Receive(Start);
    entered := mc.Receive(Stop(false));
    entered := mc.Receive(SetSpeed(100));
    assert mc.GetStateId() == WindingDown;
    assert mc.common.Value() == Counters(1, 1, 1, 8, 0, true, 100);

    entered := mc.Receive(Stopped);
    assert entered == [Idle, Locked];
  }

  /** The emergency stop: `Running` goes through `Idle` to `Locked`. */
  method RunEmergencyStop() returns (final: StateId, stats: Counters)
    ensures final == Locked
    ensures stats == Counters(1, 1, 0, 0, 0, false, 0)
  {
    var mc := new MotorControl();
    mc.Reset();
    mc.common.ClearStatistics();
    assert !mc.IsStarted();

    mc.Start();
    assert mc.IsStarted();

    ghost var entered := mc.Receive(Start);
    assert mc.GetStateId() == Running;
    assert mc.common.Value() == Counters(1, 0, 0, 0, 0, true, 0);

    entered := mc.Receive(Stop(true));
    assert WindingDown !in entered;
    final, stats := mc.GetStateId(), mc.common.Value();
  }

  /** The engine's admission check over every message identity of the
      controller and every message kind. */
  method CheckSupported() returns (accepted: seq<bool>)
    ensures accepted == [true, true, true, true, false, true, true, true, true, false]
  {
    accepted := [
      Accepts(SET_SPEED), Accepts(START), Accepts(STOP), Accepts(STOPPED), Accepts(UNSUPPORTED),
      AcceptsMessage(SetSpeed(0)), AcceptsMessage(Start), AcceptsMessage(Stop(false)),
      AcceptsMessage(Stopped), AcceptsMessage(Unsupported)];
  }
}
