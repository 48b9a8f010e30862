# Motor-control state machine and multi_array shape, in Dafny

This project models two parts of the Embedded Template Library test tree.

**The motor-control finite-state machine** defined in `test/test_fsm.cpp`. It is an
event-driven controller with four states: `Idle`, `Running`, `WindingDown` and
`Locked`. Five message kinds drive it: `Start`, `Stop(isEmergencyStop)`,
`SetSpeed(speed)`, `Stopped` and `Unsupported`.

- Each state declares the message identities it accepts. The engine routes an
  accepted message to the state's `on_event` handler and any other message to
  its `on_event_unknown` handler.
- Every handler updates the shared `Common` context: five counters, the
  running lamp and the commanded speed.
- When a handler names another state, the engine enters it and runs its
  `on_enter_state` hook. It keeps following the states the hooks name until
  a hook names its own state (the chained-entry rule).
- Only `Idle`'s hook redirects, and only to `Locked`. So the chain is at most
  two states long, and the dispatch loop is proved to terminate.

Files:

- `messages.dfy`: message identities and kinds.
- `statistics.dfy`: `Common` as a class, and its value `Counters`.
- `states.dfy`: the four states. Each handler is a function on `Counters` and
  a method that updates `Common` in place.
- `engine.dfy`: the engine class `MotorControl` with `Reset`, `Start`,
  `Receive` and `accepts`. Its `Receive` loop is proved against the function
  `ReceiveOutcome`.
- `properties.dfy`: what the controller promises, proved about those functions.
- `scenarios.dfy`: the three tests, replayed on a fresh engine each.

**The shape metadata of `etl::multi_array`** in `src/multi_array.h`
(`multi_array.dfy`).

- The four size parameters select one of four definitions (4, 3, 2 or 1
  dimensions) by their trailing zeros.
- `SIZE0..SIZE3`, `size()`, `size(i)`, `dimensions()` and `dimensions(i)` are
  functions of the parameters.
- Storage is one row-major array. `operator[]` yields a `Slice`: a reference
  to a row's block, or, in one dimension, to an element's position. Writes
  through it are in-place array updates.
- `multi_array_view`'s constructor copies the shape constants.

Two points where the code decides something a reader might expect otherwise:

- **`start()`.** Right after `start()` the test observes the state `IDLE`
  (test/test_fsm.cpp:373-374), although `Idle`'s entry hook names `LOCKED`
  (test/test_fsm.cpp:203-208). So `Start` leaves the engine in `Idle` and
  does not follow that redirect. The test also observes the lamp off at that
  point (test/test_fsm.cpp:376), which is what `Idle`'s hook does, so the
  model runs the hook and discards the state it names.
- **`dimensions()`.** `DIMENSIONS` is fixed by which definition the four
  size parameters select: the primary template (src/multi_array.h:48,
  `DIMENSIONS = 4`) or one of the partial specialisations with trailing
  zeros (src/multi_array.h:126-127, 174-175 and 220-221, for 3, 2 and 1
  dimensions). For example, `multi_array<T, 2, 0, 0, 5>` matches only the
  primary template, so it has four dimensions.

## Model

| member | source | states |
|---|---|---|
| `Messages.Message.Id` | test/test_fsm.cpp:44-98 | Each message kind carries its own identity (`START`=0 … `UNSUPPORTED`=4, the enumeration order). Each identity belongs to exactly one kind. |
| `Messages.IdDeterminesKind` | test/test_fsm.cpp:44-62 | Two messages with the same identity are of the same kind, so dispatch on identities cannot confuse kinds. |
| `Statistics.Common.constructor` | test/test_fsm.cpp:131-134 | A new context is cleared. |
| `Statistics.Common.ClearStatistics` | test/test_fsm.cpp:137-146 | Every counter and the speed become 0 and the lamp goes off. |
| `Statistics.Common.SetSpeed` | test/test_fsm.cpp:149-152 | The speed becomes the argument. Nothing else changes. |
| `Statistics.Common.TurnRunningLampOn` | test/test_fsm.cpp:155-158 | The lamp goes on. Nothing else changes. |
| `Statistics.Common.TurnRunningLampOff` | test/test_fsm.cpp:161-164 | The lamp goes off. Nothing else changes. |
| `MotorStates.StateId.Index` | test/test_fsm.cpp:102-111 | A state's enumeration value is its position in the state table: `IDLE` = 0, `RUNNING` = 1, `WINDING_DOWN` = 2, `LOCKED` = 3, all below `NUMBER_OF_STATES`. |
| `MotorStates.IndexIsInjective` | test/test_fsm.cpp:102-111 | Two states have the same enumeration value only if they are the same state. |
| `MotorStates.Accepted` | test/test_fsm.cpp:178-300 | Each state's accepted list (`Start` for `Idle`, `Stop` and `SetSpeed` for `Running`, `Stopped` for `WindingDown`, nothing for `Locked`) has no repeated identity and never holds `UNSUPPORTED`. |
| `MotorStates.OnEvent` | test/test_fsm.cpp:189-292 | Every `on_event` handler raises the counters' sum by one, never `unknownCount`, and leaves the lamp alone. It names another state for every accepted message except `SetSpeed` in `Running`. |
| `MotorStates.OnEventUnknown` | test/test_fsm.cpp:196-315 | Every `on_event_unknown` handler stays in its state, raises `unknownCount` by one and changes no other counter, the lamp or the speed. |
| `MotorStates.EventOutcome` | test/test_fsm.cpp:189-315 | Dispatching one message raises exactly one counter by exactly one and leaves the lamp alone. A message the state does not accept only raises `unknownCount` and keeps the state. Only `SetSpeed` in `Running` changes the speed. |
| `MotorStates.EntryOutcome` | test/test_fsm.cpp:203-262 | Entry hooks never touch the counters or the speed. A hook names a state other than its own exactly when the state is `Idle`, and then it names `Locked`. |
| `MotorStates.ProcessEvent` | test/test_fsm.cpp:189-315 | Updating `Common` in place and returning the next state agrees with `EventOutcome`. |
| `MotorStates.EnterState` | test/test_fsm.cpp:203-262 | Running the entry hook on `Common` in place agrees with `EntryOutcome`. |
| `MotorEngine.Accepts` | test/test_fsm.cpp:323 | `accepts(id)` is true exactly for `SET_SPEED`, `START`, `STOP` and `STOPPED`. |
| `MotorEngine.Settle` | test/test_fsm.cpp:203-262 | The chained entry ends in a state whose entry hook names that state itself, and that state is the one first entered or `Locked`. |
| `MotorEngine.ReceiveOutcome` | test/test_fsm.cpp:189-315 | After one `receive` the engine is either still in the state it was in, or rests in a state whose entry hook names itself. |
| `MotorEngine.AcceptsMessage` | test/test_fsm.cpp:552-556 | `accepts(message)` is true for every kind except `Unsupported`. |
| `MotorEngine.MotorControl.constructor` | test/test_fsm.cpp:327-335 | A new engine is not started, its current state is the first table entry, and its context is fresh and cleared. |
| `MotorEngine.MotorControl.Reset` | test/test_fsm.cpp:362-365 | After `reset()` the engine is not started and no hook has run: the context is unchanged. |
| `MotorEngine.MotorControl.Start` | test/test_fsm.cpp:368-382 | `start()` of an unstarted engine leaves it started and in `Idle`. `Idle`'s entry hook has run, so the lamp is off and nothing else in the context changed, and the redirect it names is not followed. |
| `MotorEngine.MotorControl.IsStarted` | test/test_fsm.cpp:362-369 | `is_started()` reports the started flag: false after `reset()`, true after `start()`. |
| `MotorEngine.MotorControl.GetStateId` | test/test_fsm.cpp:373 | `get_state_id()` of a started engine is the identity of its current state. |
| `MotorEngine.MotorControl.GetState` | test/test_fsm.cpp:373-374 | The table entry `get_state()` returns has the identity `get_state_id()` reports. |
| `MotorEngine.MotorControl.Receive` | test/test_fsm.cpp:480-486 | The new state and context are `ReceiveOutcome` of the old ones: one handler, then the chained entries until a hook names its own state. The ghost result lists the states entered, in order. |
| `MotorProperties.AcceptsIsUnionOfStates` | test/test_fsm.cpp:178-323 | The engine's accepted list is exactly the union of the four states' accepted lists. |
| `MotorProperties.AcceptsMessageAgrees` | test/test_fsm.cpp:546-556 | `accepts(message)` is true exactly when some state accepts the message. |
| `MotorProperties.SettleKeepsCounts` | test/test_fsm.cpp:203-262 | Following the entry chain changes no counter and not the speed, and never settles in `Idle`. |
| `MotorProperties.ReceiveCountsOnce` | test/test_fsm.cpp:189-315 | Every `receive` raises exactly one of the five counters by exactly one, so their sum rises by one. |
| `MotorProperties.ReceiveAllCountsEveryMessage` | test/test_fsm.cpp:384-492 | After any run of `receive` calls, the counters' sum has grown by the number of messages. |
| `MotorProperties.CountersSumSinceClear` | test/test_fsm.cpp:137-146 | Since `ClearStatistics`, the counters sum to the number of messages received. |
| `MotorProperties.UnacceptedMessagesOnlyCount` | test/test_fsm.cpp:384-398 | Messages the current state does not accept add one each to `unknownCount`. They change nothing else, the state included. |
| `MotorProperties.LockedAbsorbs` | test/test_fsm.cpp:300-315 | Whatever `Locked` receives, it stays `Locked` and only `unknownCount` grows. |
| `MotorProperties.NextState` | test/test_fsm.cpp:189-315 | The full transition table. The state changes only for `Start` in `Idle`, `Stop` in `Running` and `Stopped` in `WindingDown`, and the table gives where each lands. |
| `MotorProperties.SelfTransitionRunsNoHook` | test/test_fsm.cpp:242-247 | When the handler names the current state, no entry hook runs and the outcome is the handler's. |
| `MotorProperties.IdleIsTransient` | test/test_fsm.cpp:203-208 | `receive` ends in `Idle` only if it started there with a message other than `Start`. |
| `MotorProperties.ReceiveKeepsLampMatchingState` | test/test_fsm.cpp:155-262 | If the lamp is on exactly in `Running` and `WindingDown` before a `receive`, it is so after it. |
| `MotorProperties.StartedRunKeepsLampMatchingState` | test/test_fsm.cpp:368-492 | After `start()` the lamp matches `Idle` whatever it was before, and it keeps matching the state over any run of `receive` calls from there. |
| `MotorProperties.ReceiveAllKeepsLampMatchingState` | test/test_fsm.cpp:400-492 | The same holds over any run of `receive` calls. |
| `MotorProperties.SpeedFollowsSetSpeed` | test/test_fsm.cpp:242-247 | The speed changes only for a `SetSpeed` received in `Running`, and then becomes the requested value. |
| `MotorProperties.EmergencyStopLocks` | test/test_fsm.cpp:227-239 | An emergency stop in `Running` enters `Idle` then `Locked`, never `WindingDown`. It counts one stop and leaves the lamp off. |
| `MotorProperties.NormalStopWindsDown` | test/test_fsm.cpp:448-461 | A normal stop in `Running` enters only `WindingDown`, counts one stop and keeps the lamp. |
| `MotorProperties.StoppedLocksViaIdle` | test/test_fsm.cpp:480-492 | `Stopped` in `WindingDown` enters `Idle` then `Locked`, counts one stopped and turns the lamp off. |
| `MotorProperties.StartRuns` | test/test_fsm.cpp:401-414 | `Start` in `Idle` enters only `Running`, counts one start and turns the lamp on. |
| `MotorProperties.SetSpeedIsSelfTransition` | test/test_fsm.cpp:432-445 | `SetSpeed(v)` in `Running` enters no state, counts one set-speed and records `v`. |
| `MotorScenarios.RunMotorControl` | test/test_fsm.cpp:358-493 | The whole `test_fsm` run ends in `Locked` with counters (1, 1, 1, 8, 1), the lamp off and speed 100. |
| `MotorScenarios.IdlePhase` | test/test_fsm.cpp:384-414 | Three unaccepted events in `Idle`, then `Start`, give `Running`, three unknowns, one start and the lamp on. |
| `MotorScenarios.RunningPhase` | test/test_fsm.cpp:416-461 | Two unaccepted events, `SetSpeed(100)` and a normal stop give `WindingDown` with speed 100. |
| `MotorScenarios.WindingDownPhase` | test/test_fsm.cpp:463-492 | Three unaccepted events, then `Stopped`, give `Locked` by way of `Idle`, with the lamp off. |
| `MotorScenarios.RunEmergencyStop` | test/test_fsm.cpp:496-541 | The `test_fsm_emergency_stop` run ends in `Locked` with one start, one stop and the lamp off. |
| `MotorScenarios.CheckSupported` | test/test_fsm.cpp:544-557 | The ten admission checks of `test_fsm_supported` give the expected answers. |
| `MultiArrays.Dimensions` | src/multi_array.h:48-235 | `DIMENSIONS` is between 1 and 4. It is 4 exactly when `S3 != 0`. Every parameter at or beyond it is 0, and for more than one dimension the last one counted is non-zero. |
| `MultiArrays.SizeConstant` | src/multi_array.h:58-235 | Each definition declares `SIZE0..SIZE3`. Every `SIZEk` at or beyond the array's `DIMENSIONS` is the literal 0. |
| `MultiArrays.SizeConstantIsParam` | src/multi_array.h:126-235 | In every definition `SIZEk` equals `Sk`, and every `SIZEk` beyond the array's dimensions is 0. |
| `MultiArrays.Size` | src/multi_array.h:77-80 | `size()` is `SIZE0`. |
| `MultiArrays.SizeAt` | src/multi_array.h:82-92 | `size(i)` is `SIZEi` for `i` in 0..3 and 0 otherwise. |
| `MultiArrays.RowShape` | src/multi_array.h:54-56 | The row type has one dimension fewer, and its parameters are the remaining ones followed by 0. |
| `MultiArrays.Nested` | src/multi_array.h:54-56 | `k` levels of nesting remove `k` dimensions. |
| `MultiArrays.DimensionsAt` | src/multi_array.h:100-110 | `dimensions(i)` is `4 - i` for `i` in 0..3 and 0 otherwise. |
| `MultiArrays.DimensionsAtCountsDown` | src/multi_array.h:100-110 | `dimensions(i)` is `4 - i` for `i` in 0..3, equal to `DIMENSIONS` of the i-times-nested type, and 0 otherwise. |
| `MultiArrays.Extents` | src/multi_array.h:58-65 | The array's extents are `SIZE0` up to the last dimension. |
| `MultiArrays.CountIsProduct` | src/multi_array.h:114 | The element count of the nested storage is the product of the extents. |
| `MultiArrays.Row` | src/multi_array.h:67-75 | `operator[](i)` of an array of two or more dimensions is row `i`. Its shape is the row type, and its block lies inside the parent's. |
| `MultiArrays.RowsDisjoint` | src/multi_array.h:67-75 | Distinct rows of one array occupy disjoint storage. |
| `MultiArrays.Element` | src/multi_array.h:237-245 | `operator[](i)` of a one-dimension array refers to a position inside that array's block. |
| `MultiArrays.MultiArray.constructor` | src/multi_array.h:114 | The storage holds exactly as many elements as the shape calls for. |
| `MultiArrays.MultiArray.Get` | src/multi_array.h:242-245 | Reading element `i` of a one-dimension slice yields the storage position `Element` gives, the position `Set` writes. |
| `MultiArrays.MultiArray.Set` | src/multi_array.h:237-240 | Assigning through the element reference changes exactly that storage position. The element then reads back the new value. |
| `MultiArrays.WriteStaysInRow` | src/multi_array.h:67-70 | A write anywhere inside row `j` leaves every other row's storage as it was. |
| `MultiArrays.View.Dimensions` | src/multi_array.h:278-281 | The view's `dimensions()` is the count stored in its 8-bit field, so it is below 256. |
| `MultiArrays.ViewOf` | src/multi_array.h:269-281 | The view's `dimensions()` equals the array's `DIMENSIONS`, and its sizes are the array's `SIZE0..SIZE3`. |
| `MultiArrays.Data4Metadata` | test/test_multi_array.cpp:50-71 | For `multi_array<int, 2, 3, 4, 5>`: `size()` is 2, `dimensions()` is 4, `SIZEk` is `k + 2`, `size(i)` is `i + 2` and `dimensions(i)` is `4 - i`. |
| `MultiArrays.ViewsOfTestArrays` | test/test_multi_array.cpp:75-91 | Views of the 1- to 4-dimension test arrays report 1 to 4 dimensions. |
| `MultiArrays.WriteThroughRows` | src/multi_array.h:144-245 | After `a[0][1] = u` and `a[1][2] = v` on a 2 x 3 array, both elements read back what was written. |

## Left out

- The engine's own source (`fsm.h`) is not part of this model. The engine is modelled from what the tests observe.
  - The router identity and the CRTP/virtual dispatch are not modelled.
  - The `sender` argument is not modelled. The handlers never use it, and the null message router is only a placeholder for it.
  - `get_state()` is represented by `GetState`, which returns the table entry's identity: the tests only read that identity.
- `on_exit_state` is not modelled as a call. No state in test/test_fsm.cpp overrides it, so the model assumes it changes nothing.
- There is no hop-count guard on the entry chain, as in the source. Termination holds because only `Idle` redirects, and only to `Locked`.
- `MotorEngine.MotorControl.Receive` requires a started engine. The tests never call `receive` before `start`, so the model assumes that is not allowed.
- `MotorEngine.MotorControl.Start` runs `Idle`'s entry hook and discards the state it names. The tests cannot tell this from not running the hook, because the lamp is already off after `ClearStatistics()`. It requires an unstarted engine: every `start()` in the tests follows `reset()`.
- `MotorEngine.MotorControl.Start` and `Reset` do not model the engine's private bookkeeping beyond the started flag and the current state.
- `MotorStates.EventOutcome` does not model 32-bit overflow of the `int` counters. The model's counters are unbounded. Incrementing past `INT_MAX` is undefined behaviour in the source, and the tests stay far below it.
- The enumeration labels (`"Start"`, `"Idle"`, …) are left out. They are only used for printing.
- The test suite shares one global engine. Each scenario here builds a fresh one instead, after the same `reset()` and `ClearStatistics()`.
- `multi_array_view::operator()` is left out: its data pointer is never initialised, its `default` branch returns nothing, and its 3- and 4-dimension formulas ignore some indices, so it has no defined behaviour to model.
- The static `sizes[]` member of the 4-dimension array is left out. Its declaration and definition do not match, and nothing reads it.
- `MultiArrays.Row` and `MultiArrays.Element` require the index to be within `SIZE0`. `etl::array` is not part of this model, and the tests only index within range, so the model assumes an out-of-range index is not allowed.
- The initial element values of a new `multi_array` are not modelled.
- The `const` overloads of `operator[]` are the same as the non-const ones: `Get` reads, and `Set` writes.
- `test/test_array_wrapper.cpp` is not part of this model: the wrapper's header is not part of it either, and its tests only compare addresses.
- The empty test bodies of `test/test_multi_array.cpp` hold nothing to model.
