/** What the motor controller promises, proved about the engine's
    specification functions (and so, through the `ensures` of
    `MotorControl.Receive`, about the engine itself). */
module MotorProperties {
  import opened Messages
  import opened Statistics
  import opened MotorStates
  import opened MotorEngine

  /** The engine accepts exactly the identities that some state accepts:
      its declared list is the union of the states' lists. */
  lemma AcceptsIsUnionOfStates(id: MessageId)
    ensures Accepts(id) <==> exists s: StateId :: id in Accepted(s)
  {
    if Accepts(id) {
      var s := if id == START then Idle else if id == STOPPED then WindingDown else Running;
      assert id in Accepted(s);
    }
  }

  /** `accepts(message)` is true exactly for the kinds some state accepts:
      `Unsupported` is the one kind no state accepts. */
  lemma AcceptsMessageAgrees(m: Message)
    ensures AcceptsMessage(m) <==> exists s: StateId :: m.Id() in Accepted(s)
  {
    AcceptsIsUnionOfStates(m.Id());
  }

  /** Entering a state, with all the redirects that follows, changes no
      counter and not the speed, and never settles in `Idle`. */
  lemma {:induction false} SettleKeepsCounts(s: StateId, c: Counters)
    ensures Counts(Settle(s, c).stats) == Counts(c)
    ensures Settle(s, c).stats.speed == c.speed
    ensures Settle(s, c).next != Idle
    decreases ChainBound(s)
  {
    var e := EntryOutcome(s, c);
    if e.next != s {
      SettleKeepsCounts(e.next, e.stats);
    }
  }

  /** Every `receive` runs exactly one handler: exactly one of the five
      counters rises, by exactly one. */
  lemma ReceiveCountsOnce(s: StateId, m: Message, c: Counters)
    ensures exists k ::
              0 <= k < 5 && Counts(ReceiveOutcome(s, m, c).stats) == Counts(c)[k := Counts(c)[k] + 1]
    ensures Total(ReceiveOutcome(s, m, c).stats) == Total(c) + 1
  {
    var h := EventOutcome(s, m, c);
    if h.next != s {
      SettleKeepsCounts(h.next, h.stats);
    }
    var k :| 0 <= k < 5 && Counts(h.stats) == Counts(c)[k := Counts(c)[k] + 1];
    var r := ReceiveOutcome(s, m, c).stats;
    assert Counts(r) == Counts(h.stats);
    assert Total(r) == Counts(r)[0] + Counts(r)[1] + Counts(r)[2] + Counts(r)[3] + Counts(r)[4];
  }

  /** The counters account for every message received: after a run of
      `receive` calls their sum has grown by the number of messages. */
  lemma {:induction false} ReceiveAllCountsEveryMessage(s: StateId, ms: seq<Message>, c: Counters)
    ensures Total(ReceiveAll(s, ms, c).stats) == Total(c) + |ms|
    decreases |ms|
  {
    if ms != [] {
      var r := ReceiveOutcome(s, ms[0], c);
      ReceiveCountsOnce(s, ms[0], c);
      ReceiveAllCountsEveryMessage(r.next, ms[1..], r.stats);
    }
  }

  /** Since `ClearStatistics`, the sum of the counters is the number of
      messages received. */
  lemma CountersSumSinceClear(s: StateId, ms: seq<Message>)
    ensures Total(ReceiveAll(s, ms, Cleared).stats) == |ms|
  {
    ReceiveAllCountsEveryMessage(s, ms, Cleared);
  }

  /** Messages the current state does not accept are each counted as
      unknown and change nothing else: not the state, not the lamp, not the
      speed, not the other counters. */
  lemma {:induction false} UnacceptedMessagesOnlyCount(s: StateId, ms: seq<Message>, c: Counters)
    requires forall i :: 0 <= i < |ms| ==> ms[i].Id() !in Accepted(s)
    ensures ReceiveAll(s, ms, c) == Step(s, c.(unknownCount := c.unknownCount + |ms|))
    decreases |ms|
  {
    if ms != [] {
      var c' := c.(unknownCount := c.unknownCount + 1);
      assert ReceiveOutcome(s, ms[0], c) == Step(s, c');
      assert forall i :: 0 <= i < |ms[1..]| ==> ms[1..][i] == ms[i + 1];
      UnacceptedMessagesOnlyCount(s, ms[1..], c');
    }
  }

  /** `Locked` accepts nothing: whatever it receives is counted as unknown
      and the engine stays locked. */
  lemma LockedAbsorbs(ms: seq<Message>, c: Counters)
    ensures ReceiveAll(Locked, ms, c) == Step(Locked, c.(unknownCount := c.unknownCount + |ms|))
  {
    UnacceptedMessagesOnlyCount(Locked, ms, c);
  }

  /** The transition table of the controller, in both directions: `receive`
      leaves the state unchanged except for a `Start` in `Idle`, a `Stop` in
      `Running` and a `Stopped` in `WindingDown`, and for those it says
      where the engine ends up. */
  lemma NextState(s: StateId, m: Message, c: Counters)
    ensures ReceiveOutcome(s, m, c).next ==
      match s
      case Idle => if m.Start? then Running else Idle
      case Running =>
        if m.Stop? then (if m.isEmergencyStop then Locked else WindingDown) else Running
      case WindingDown => if m.Stopped? then Locked else WindingDown
      case Locked => Locked
  {
  }

  /** When the handler names the current state, dispatch is complete: no
      entry hook runs and the state is unchanged. */
  lemma SelfTransitionRunsNoHook(s: StateId, m: Message, c: Counters)
    requires EventOutcome(s, m, c).next == s
    ensures ReceiveOutcome(s, m, c) == EventOutcome(s, m, c)
    ensures ReceiveEntered(s, m, c) == []
  {
  }

  /** `Idle` is never the state `receive` ends in unless it started there:
      entering `Idle` always chains on to `Locked`. */
  lemma IdleIsTransient(s: StateId, m: Message, c: Counters)
    requires ReceiveOutcome(s, m, c).next == Idle
    ensures s == Idle && m.Id() != START
  {
    var h := EventOutcome(s, m, c);
    if h.next != s {
      SettleKeepsCounts(h.next, h.stats);
    }
  }

  /** The running lamp is on exactly in `Running` and `WindingDown`, and
      `receive` keeps it that way. */
  ghost predicate LampMatchesState(s: StateId, c: Counters)
  {
    c.isLampOn <==> (s == Running || s == WindingDown)
  }

  lemma ReceiveKeepsLampMatchingState(s: StateId, m: Message, c: Counters)
    requires LampMatchesState(s, c)
    ensures LampMatchesState(ReceiveOutcome(s, m, c).next, ReceiveOutcome(s, m, c).stats)
  {
  }

  /** `start()` leaves the lamp matching `Idle`, whatever the lamp was, so
      it holds from there on for every run of `receive` calls. */
  lemma StartedRunKeepsLampMatchingState(ms: seq<Message>, c: Counters)
    ensures LampMatchesState(Idle, c.(isLampOn := false))
    ensures LampMatchesState(ReceiveAll(Idle, ms, c.(isLampOn := false)).next,
                             ReceiveAll(Idle, ms, c.(isLampOn := false)).stats)
  {
    ReceiveAllKeepsLampMatchingState(Idle, ms, c.(isLampOn := false));
  }

  /** A run of `receive` calls keeps the lamp matching the state. */
  lemma {:induction false} ReceiveAllKeepsLampMatchingState(s: StateId, ms: seq<Message>, c: Counters)
    requires LampMatchesState(s, c)
    ensures LampMatchesState(ReceiveAll(s, ms, c).next, ReceiveAll(s, ms, c).stats)
    decreases |ms|
  {
    if ms != [] {
      var r := ReceiveOutcome(s, ms[0], c);
      ReceiveKeepsLampMatchingState(s, ms[0], c);
      ReceiveAllKeepsLampMatchingState(r.next, ms[1..], r.stats);
    }
  }

  /** The commanded speed changes only on a `SetSpeed` received in
      `Running`, and then to the requested value. */
  lemma SpeedFollowsSetSpeed(s: StateId, m: Message, c: Counters)
    ensures ReceiveOutcome(s, m, c).stats.speed ==
      if s == Running && m.SetSpeed? then m.speed else c.speed
  {
    var h := EventOutcome(s, m, c);
    if h.next != s {
      SettleKeepsCounts(h.next, h.stats);
    }
  }

  /** An emergency stop in `Running` goes through `Idle` straight to
      `Locked`, never entering `WindingDown`, and leaves the lamp off. */
  lemma EmergencyStopLocks(c: Counters)
    ensures ReceiveEntered(Running, Stop(true), c) == [Idle, Locked]
    ensures ReceiveOutcome(Running, Stop(true), c) ==
      Step(Locked, c.(stopCount := c.stopCount + 1, isLampOn := false))
  {
  }

  /** A normal stop in `Running` enters `WindingDown` only, with the lamp
      still as it was. */
  lemma NormalStopWindsDown(c: Counters)
    ensures ReceiveEntered(Running, Stop(false), c) == [WindingDown]
    ensures ReceiveOutcome(Running, Stop(false), c) ==
      Step(WindingDown, c.(stopCount := c.stopCount + 1))
  {
  }

  /** `Stopped` in `WindingDown` targets `Idle`, whose entry hook turns the
      lamp off and redirects to `Locked`. */
  lemma StoppedLocksViaIdle(c: Counters)
    ensures ReceiveEntered(WindingDown, Stopped, c) == [Idle, Locked]
    ensures ReceiveOutcome(WindingDown, Stopped, c) ==
      Step(Locked, c.(stoppedCount := c.stoppedCount + 1, isLampOn := false))
  {
  }

  /** `Start` in `Idle` enters `Running`, whose entry hook turns the lamp on
      and names `Running` itself, so the chain stops there. */
  lemma StartRuns(c: Counters)
    ensures ReceiveEntered(Idle, Start, c) == [Running]
    ensures ReceiveOutcome(Idle, Start, c) ==
      Step(Running, c.(startCount := c.startCount + 1, isLampOn := true))
  {
  }

  /** `SetSpeed(v)` in `Running` is a self-transition: it records `v`,
      counts the message and runs no hook. */
  lemma SetSpeedIsSelfTransition(c: Counters, v: int)
    ensures ReceiveEntered(Running, SetSpeed(v), c) == []
    ensures ReceiveOutcome(Running, SetSpeed(v), c) ==
      Step(Running, c.(setSpeedCount := c.setSpeedCount + 1, speed := v))
  {
  }
}
