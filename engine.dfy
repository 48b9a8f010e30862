/** The motor-control engine: a four-entry state table, the current state,
    the started flag, and the dispatch loop with chained entry transitions. */
module MotorEngine {
  import opened Messages
  import opened Statistics
  import opened MotorStates

  /** The message identities the engine declares it accepts, in the order
      of its declaration. */
  const EngineAccepted: seq<MessageId> := [SET_SPEED, START, STOP, STOPPED]

  /** `accepts(id)`: the upfront admission check, independent of the
      current state. */
  function Accepts(id: MessageId): (r: bool)
    ensures r <==> id == SET_SPEED || id == START || id == STOP || id == STOPPED
  {
    id in EngineAccepted
  }

  /** `accepts(message)` delegates to the identity form. */
  function AcceptsMessage(m: Message): (r: bool)
    ensures r <==> !m.Unsupported?
  {
    Accepts(m.Id())
  }

  /** How many redirects a chain of entry hooks starting at `s` can still
      make: only `Idle` redirects, and only to `Locked`, which stays. */
  function ChainBound(s: StateId): nat
  {
    if s == Idle then 1 else 0
  }

  /** The chained-entry rule: enter `s`, run its entry hook, and while the
      hook names another state enter that one, until a hook names its own
      state. */
  function Settle(s: StateId, c: Counters): (r: Step)
    ensures EntryOutcome(r.next, r.stats).next == r.next
    ensures r.next == s || r.next == Locked
    decreases ChainBound(s)
  {
    var e := EntryOutcome(s, c);
    if e.next == s then e else Settle(e.next, e.stats)
  }

  /** The states whose entry hook runs, in order, when `s` is entered. */
  function EnteredStates(s: StateId, c: Counters): seq<StateId>
    decreases ChainBound(s)
  {
    var e := EntryOutcome(s, c);
    if e.next == s then [s] else [s] + EnteredStates(e.next, e.stats)
  }

  /** `receive` for one message, as a function of the current state and the
      shared context: run one handler; if it names another state, enter it
      following the chained-entry rule. */
  function ReceiveOutcome(s: StateId, m: Message, c: Counters): (r: Step)
    ensures r.next == s || EntryOutcome(r.next, r.stats).next == r.next
  {
    var h := EventOutcome(s, m, c);
    if h.next == s then h else Settle(h.next, h.stats)
  }

  /** The states entered while `m` is received in state `s`. */
  function ReceiveEntered(s: StateId, m: Message, c: Counters): seq<StateId>
  {
    var h := EventOutcome(s, m, c);
    if h.next == s then [] else EnteredStates(h.next, h.stats)
  }

  /** A run of `receive` calls, one per message of `ms`, in order. */
  function ReceiveAll(s: StateId, ms: seq<Message>, c: Counters): Step
    decreases |ms|
  {
    if ms == [] then Step(s, c)
    else
      var r := ReceiveOutcome(s, ms[0], c);
      ReceiveAll(r.next, ms[1..], r.stats)
  }

  /** The motor controller. */
  class MotorControl {
    /** The identity of the current state (the engine's index into its
        four-entry state table). */
    var state: StateId
    var started: bool
    /** The shared context every state updates. */
    const common: Common

    /** A new engine is not started; its context is cleared. */
    constructor ()
      ensures !started && state == Idle
      ensures fresh(common) && common.Value() == Cleared
    {
      state := StateTable[0];
      started := false;
      common := new Common();
    }

    /** `reset()`: back to the unstarted condition, with the current state at
        the first entry of the table; no hook runs and the context is kept. */
    method Reset()
      modifies this
      ensures !started && state == Idle
      ensures unchanged(common)
    {
      started := false;
      state := StateTable[0];
    }

    /** `start()` of an engine that is not started: the current state becomes
        the first entry of the table, `Idle`, and its entry hook runs (the
        lamp goes off), but the redirect the hook names is not followed: the
        engine stays in `Idle`. */
    method Start()
      requires !started
      modifies this, common
      ensures started && state == Idle
      ensures common.Value() == old(common.Value()).(isLampOn := false)
    {
      started := true;
      state := StateTable[0];
      var ignoredRedirect := EnterState(state, common);
    }

    /** `is_started()`. */
    function IsStarted(): (r: bool)
      reads this
      ensures r <==> started
    {
      started
    }

    /** `get_state_id()`: the identity of the current state, meaningful only
        once the engine is started. */
    function GetStateId(): (id: StateId)
      reads this
      requires started
      ensures id == state
    {
      state
    }

    /** `get_state()`: the table entry of the current state. Its identity is
        the one `get_state_id()` reports. */
    function GetState(): (s: StateId)
      reads this
      requires started
      ensures s == GetStateId()
    {
      StateTable[state.Index()]
    }

    /** `receive(sender, message)`: dispatches `m` to the current state, then
        applies chained entry transitions until a state's entry hook names
        that state itself. The sender is not used and not modelled. The ghost
        result lists the states whose entry hook ran. */
    method Receive(m: Message) returns (ghost entered: seq<StateId>)
      requires started
      modifies this, common
      ensures started
      ensures Step(state, common.Value()) == ReceiveOutcome(old(state), m, old(common.Value()))
      ensures entered == ReceiveEntered(old(state), m, old(common.Value()))
    {
      ghost var goal := ReceiveOutcome(state, m, common.Value());
      ghost var trace := ReceiveEntered(state, m, common.Value());
      var next := ProcessEvent(state, common, m);
      entered := [];
      while next != state
        invariant started
        invariant next == state ==> Step(state, common.Value()) == goal && entered == trace
        invariant next != state ==> Settle(next, common.Value()) == goal
        invariant next != state ==> entered + EnteredStates(next, common.Value()) == trace
        decreases if next == state then 0 else ChainBound(next) + 1
      {
        // No state overrides `on_exit_state`, whose default does nothing.
        state := StateTable[next.Index()];
        next := EnterState(state, common);
        entered := entered + [state];
      }
    }
  }
}
