/** The four states of the motor controller: their identities, the message
    identities each accepts, and their `on_event`, `on_event_unknown` and
    `on_enter_state` handlers.

    Each handler is given twice: as a function over the value of the shared
    context (its specification) and as a method that updates the shared
    `Common` object in place, proved to agree with the function. */
module MotorStates {
  import opened Messages
  import opened Statistics

  /** The state identities, in the order of the engine's state table. */
  datatype StateId = Idle | Running | WindingDown | Locked
  {
    /** The state's enumeration value (`IDLE` = 0 … `LOCKED` = 3): the
        position of the state in the engine's state table. */
    function Index(): (i: nat)
      ensures i < NUMBER_OF_STATES && StateTable[i] == this
    {
      match this
      case Idle => 0
      case Running => 1
      case WindingDown => 2
      case Locked => 3
    }
  }

  const NUMBER_OF_STATES: nat := 4

  /** The engine's state table, one entry per state, in enumeration order. */
  const StateTable: seq<StateId> := [Idle, Running, WindingDown, Locked]

  /** Distinct states have distinct enumeration values, so each value picks
      out exactly one entry of the table. */
  lemma IndexIsInjective(s: StateId, t: StateId)
    ensures s.Index() == t.Index() <==> s == t
  {
  }

  /** The message identities a state handles with `on_event`, in the order
      of its declaration. */
  function Accepted(s: StateId): (r: seq<MessageId>)
    ensures forall i, j :: 0 <= i < j < |r| ==> r[i] != r[j]
    ensures UNSUPPORTED !in r
  {
    match s
    case Idle => [START]
    case Running => [STOP, SET_SPEED]
    case WindingDown => [STOPPED]
    case Locked => []
  }

  /** What a handler or hook produced: the state it names and the new
      value of the shared context. */
  datatype Step = Step(next: StateId, stats: Counters)

  /** `on_event` of state `s` for a message it accepts. */
  function OnEvent(s: StateId, m: Message, c: Counters): (r: Step)
    requires m.Id() in Accepted(s)
    ensures Total(r.stats) == Total(c) + 1 && r.stats.unknownCount == c.unknownCount
    ensures r.stats.isLampOn == c.isLampOn
    ensures r.next == s <==> s == Running && m.SetSpeed?
  {
    match s
    case Idle =>
      Step(Running, c.(startCount := c.startCount + 1))
    case Running =>
      if m.Stop? then
        Step(if m.isEmergencyStop then Idle else WindingDown, c.(stopCount := c.stopCount + 1))
      else
        Step(Running, c.(setSpeedCount := c.setSpeedCount + 1, speed := m.speed))
    case WindingDown =>
      Step(Idle, c.(stoppedCount := c.stoppedCount + 1))
  }

  /** `on_event_unknown`: every state counts the message and stays. */
  function OnEventUnknown(s: StateId, c: Counters): (r: Step)
    ensures r.next == s
    ensures Counts(r.stats) == Counts(c)[3 := Counts(c)[3] + 1]
    ensures r.stats.isLampOn == c.isLampOn && r.stats.speed == c.speed
  {
    Step(s, c.(unknownCount := c.unknownCount + 1))
  }

  /** The engine's dispatch of one message to state `s`: `on_event` when `s`
      accepts the message's identity, `on_event_unknown` otherwise. */
  function EventOutcome(s: StateId, m: Message, c: Counters): (r: Step)
    ensures OneCounterBumped(c, r.stats)
    ensures m.Id() !in Accepted(s) ==> r == Step(s, c.(unknownCount := c.unknownCount + 1))
    ensures r.stats.speed != c.speed ==> s == Running && m.SetSpeed?
  {
    var r := if m.Id() in Accepted(s) then OnEvent(s, m, c) else OnEventUnknown(s, c);
    assert Counts(r.stats) == Counts(c)[CounterOf(s, m) := Counts(c)[CounterOf(s, m)] + 1];
    r
  }

  /** The position in `Counts` of the counter that dispatching `m` to `s`
      raises. */
  function CounterOf(s: StateId, m: Message): (k: nat)
    ensures k < 5
  {
    if m.Id() !in Accepted(s) then 3
    else if s == Idle then 0
    else if s == Running then (if m.Stop? then 1 else 2)
    else 4
  }

  /** `on_enter_state`. `Idle` turns the lamp off and redirects to `Locked`;
      `Running` turns the lamp on and stays; the other two states keep the
      default hook, which changes nothing and names the state itself. */
  function EntryOutcome(s: StateId, c: Counters): (r: Step)
    ensures Counts(r.stats) == Counts(c) && r.stats.speed == c.speed
    ensures r.next != s <==> s == Idle
    ensures r.next != s ==> r.next == Locked
  {
    match s
    case Idle => Step(Locked, c.(isLampOn := false))
    case Running => Step(Running, c.(isLampOn := true))
    case WindingDown => Step(WindingDown, c)
    case Locked => Step(Locked, c)
  }

  /** Dispatches `m` to state `s`, updating `common` in place, and returns
      the state the handler names. */
  method ProcessEvent(s: StateId, common: Common, m: Message) returns (next: StateId)
    modifies common
    ensures Step(next, common.Value()) == EventOutcome(s, m, old(common.Value()))
  {
    if m.Id() !in Accepted(s) {
      common.unknownCount := common.unknownCount + 1;
      next := s;
      return;
    }
    match s
    case Idle =>
      common.startCount := common.startCount + 1;
      next := Running;
    case Running =>
      if m.Stop? {
        common.stopCount := common.stopCount + 1;
        next := if m.isEmergencyStop then Idle else WindingDown;
      } else {
        common.setSpeedCount := common.setSpeedCount + 1;
        common.SetSpeed(m.speed);
        next := Running;
      }
    case WindingDown =>
      common.stoppedCount := common.stoppedCount + 1;
      next := Idle;
  }

  /** Runs the entry hook of `s` on `common` and returns the state it names. */
  method EnterState(s: StateId, common: Common) returns (next: StateId)
    modifies common
    ensures Step(next, common.Value()) == EntryOutcome(s, old(common.Value()))
  {
    match s
    case Idle =>
      common.TurnRunningLampOff();
      next := Locked;
    case Running =>
      common.TurnRunningLampOn();
      next := Running;
    case WindingDown =>
      next := WindingDown;
    case Locked =>
      next := Locked;
  }
}
