# InputSystem: a verified model of the input router

This project models the input router of the Cocos Creator package
`InputSystem`. The router receives raw keyboard, mouse, touch and
thumbstick events. It resolves each raw code to mapping names through the
configuration's reverse index `inputCodeToMappingNameSet`, then calls the
gameplay callbacks bound to those names:

- an **axis mapping** receives `magnitude × scale` while its code is held (from the next frame on) or when it is moved;
- an axis mapping receives 0 when its key or touch is released;
- an **action mapping** receives a call with no argument.

The router also keeps:

- four **held-event handlers** (touch, keyboard, mouse, gamepad), which re-dispatch held codes once per frame;
- a **pressed-code set**, which `getCodePressed` polls.

The model has two layers.

- `EngineModel` (engine_model.dfy) is a value-level state machine. The
  router's whole state is one `Engine` value. There is one function per
  `process*` and `on*` procedure, per binding call and per frame update.
  Callbacks are tokens. Every invocation is appended to a log `calls`, so
  properties can speak about which callbacks ran, in which order, with
  which value.
- `Runtime` (runtime.dfy) holds the classes of `InputSystem.ts`:
  `InputSystem`, `HeldEventHandler` and `AxisMapping`. Their fields are
  updated in place, and the loops over mapping names are `for` loops, as in
  `InputSystem.ts`. Every method is proved to leave the
  object in exactly the state the value-level function prescribes
  (`Abstract() == EngineModel.X(cfg, old(Abstract()), …)`).

The other modules:

- `InputSystemConfig` (config.dfy) holds the `EInputCode` ranges, the configuration shape and the shipped configuration, with facts about it.
- `EngineInvariant` (invariant.dfy) holds the state invariant that every sequence of entry-point calls keeps.
- `EngineProperties` (properties.dfy) holds the behaviour of the router.
- `FixtureScenario` (scenario.dfy) holds runs of the shipped configuration.

Some behaviour of the code is easy to misread. The model follows the code in each case:

- **Mouse release.** `processMouseUp` runs the same loop as `processMouseDown`, so releasing a mouse button executes its actions a second time and never zeroes its axes (`MouseUpRepeatsPress`).
- **Value events.** A mouse move, a wheel turn or a joystick value adds its code to the pressed set, and no value event or frame removes it (`ValueEventPresses`). Only a release event on the same code removes it. A joystick widget sends a touch end or cancel on its codes when the touch ends (GamepadJoystick.ts:61-85), and that release removes the code (`JoystickReleasedByTouchEnd`). The mouse-move and wheel codes have no release event, so once pressed they read as pressed for good.
- **Unmapped codes.** An event on a code the index does not list still enters or leaves its held handler (`UnmappedCodeInert`).
- **Touch end with a key still held.** Ending a touch on a code that a key still holds unpresses the code. The next frame presses it again (`TouchEndThenTickRepresses`).
- **Releasing one of two keys.** Releasing one of two keys that feed the same axis sends 0, although the other key is still held. The next frame restores the other key's value (`ForwardBackScenario`).
- **Mouse buttons in the shipped configuration.** Its buttons report codes 100010–100017, none of which the index lists, so no mouse button reaches a callback (`FixtureMouseButtonsInert`).
- **"Fire" in the shipped configuration.** "Fire" is fed by code 100002, which is no member of `EInputCode` (`FixtureFireCodeUnlisted`).

## Model

| member | source | states |
|---|---|---|
| InputSystemConfig.CodeRangesPartitioned | Example/assets/InputSystem/InputSystemConfig.ts:10-766 | every `EInputCode` member, as the enumeration numbers it, lies in the range of its source class: keyboard below 100000, mouse axes, buttons from 100010, wheel from 100050, touch from 100100, thumbsticks from 100200. The membership clause carries the content; the ranges not overlapping follows from their bounds alone |
| InputSystemConfig.ConsistentScaleLookups | Example/assets/InputSystem/InputSystemConfig.ts:781-805 | a reverse index that lists only names fed by the code, over disjoint axis and action names, makes every `axisMappingSet[name][code]` lookup of the handlers defined |
| InputSystemConfig.FixtureMouseButtons | Example/assets/InputSystem/InputSystemConfig.ts:945-954 | the shipped table maps exactly buttons 0..7, button `i` to `MouseButtonLeft + i` |
| InputSystemConfig.FixtureReverseIndexConsistent | Example/assets/InputSystem/InputSystemConfig.ts:813-862 | every name listed for a code in the shipped index is an axis or action mapping fed by that code |
| InputSystemConfig.FixtureKeysMatchCodes | Example/assets/InputSystem/InputSystemConfig.ts:863-942 | in the shipped axis and action tables every entry's key equals its `code` field |
| InputSystemConfig.FixtureNamesDisjoint | Example/assets/InputSystem/InputSystemConfig.ts:863-942 | no shipped name is both an axis and an action mapping |
| InputSystemConfig.FixtureUnitScales | Example/assets/InputSystem/InputSystemConfig.ts:863-916 | every shipped scale is +1 or -1 |
| InputSystemConfig.FixtureScaleLookupsDefined | Example/assets/InputSystem/InputSystemConfig.ts:812-955 | the shipped configuration defines every scale lookup the handlers make |
| InputSystemConfig.FixtureMovementAxes | Example/assets/InputSystem/InputSystemConfig.ts:864-891 | A and D feed MoveRight with scales -1 and +1, S and W feed MoveForward with -1 and +1 |
| InputSystemConfig.FixtureMouseButtonsUnmapped | Example/assets/InputSystem/InputSystemConfig.ts:813-862 | no code of the shipped mouse-button table has an entry in the shipped index |
| InputSystemConfig.FixtureFireCodeUnlisted | Example/assets/InputSystem/InputSystemConfig.ts:934-941 | "Fire" is fed by code 100002, which belongs to no source class of the enumeration |
| EngineModel.EventStart | InputSystemRuntime/InputSystem.ts:581-583 | after `eventStart` a code is held iff it was held or is the new code; starting a held code changes nothing; no code is held twice; earlier codes keep their order |
| EngineModel.EventEnd | InputSystemRuntime/InputSystem.ts:585-587 | after `eventEnd` a code is held iff it was held and is not the ended code; ending a code not held changes nothing |
| EngineModel.EventEndNoDup | InputSystemRuntime/InputSystem.ts:585-587 | ending a code keeps the held set free of repeats |
| EngineModel.EventEndAt | InputSystemRuntime/InputSystem.ts:585-587 | ending the code at position `i` of a repeat-free held set removes exactly that position |
| EngineModel.ActionCancel | InputSystemRuntime/InputSystem.ts:633-635 | `ActionMapping.cancel` leaves the whole state unchanged |
| EngineModel.PressLoop | InputSystemRuntime/InputSystem.ts:171-184 | the loop of a press changes only the callback log, and only by appending |
| EngineModel.HeldLoop | InputSystemRuntime/InputSystem.ts:191-205 | the loop of a held code changes only axis values and the log, keeps the bound names and only appends to the log |
| EngineModel.ValueLoop | InputSystemRuntime/InputSystem.ts:274-293 | the loop of a value event changes only axis values and the log, and only appends to the log |
| EngineModel.KeyUpLoop | InputSystemRuntime/InputSystem.ts:212-226 | the loop of a key release changes only axis values and the log, and only appends to the log |
| EngineModel.Tick | InputSystemRuntime/InputSystem.ts:19-34 | a frame keeps the set of bound axis names |
| EngineModel.Initial | InputSystemRuntime/InputSystem.ts:10-51 | the state of a new router: nothing pressed, held, bound or invoked; `InitialInv` shows it meets the invariant |
| EngineModel.AxisExecute | InputSystemRuntime/InputSystem.ts:604-607 | `AxisMapping.execute`: the instance stores the value and its callback receives it; `AxisExecuteInv` states what this keeps |
| EngineModel.AxisCancel | InputSystemRuntime/InputSystem.ts:609-612 | `AxisMapping.cancel`: the instance stores 0 and its callback receives it; `AxisCancelInv` states what this keeps |
| EngineModel.ActionExecute | InputSystemRuntime/InputSystem.ts:629-631 | `ActionMapping.execute`: the callback is invoked with no value; `ActionExecuteInv` states what this keeps |
| EngineModel.ButtonCode | InputSystemRuntime/InputSystem.ts:534 | the code of a mouse button is its `mouseButtonToInputCodeSet` entry, `undefined` when it has none; `FixtureMouseButtonsInert` states what the shipped table gives |
| EngineModel.OnTouchRelease | InputSystemRuntime/InputSystem.ts:499-507 | onTouchEnd and onTouchCancel: the code leaves the touch handler, then processTouchEnd runs; `TouchReleaseIsKeyUp` and `JoystickReleasedByTouchEnd` state its effect |
| EngineModel.ProcessPress | InputSystemRuntime/InputSystem.ts:171-184 | processKeyDown, processMouseDown and processTouchStart: a listed code becomes pressed and each bound action of its names runs in index order; `PressInvokesActions` and `KeyDownPressed` state this |
| EngineModel.ProcessKeyUp | InputSystemRuntime/InputSystem.ts:212-226 | processKeyUp: a listed code is unpressed and each bound axis of its names receives 0; `KeyUpZeroesAxes` and `KeyUpReleased` state this |
| EngineModel.ProcessMouseUp | InputSystemRuntime/InputSystem.ts:253-266 | processMouseUp: a listed code is unpressed and its bound actions run again; `MouseUpRepeatsPress` states this |
| EngineModel.ProcessTouchRelease | InputSystemRuntime/InputSystem.ts:410-453 | processTouchEnd and processTouchCancel: a listed code is unpressed, its actions are cancelled (a no-op) and its axes receive 0; `TouchReleaseIsKeyUp` states this |
| EngineModel.BindAxis | InputSystemRuntime/InputSystem.ts:137-146 | bindAxis: only a configured, not yet bound name gets a new instance at 0; `BindAxisFirstWins` states this |
| EngineModel.BindAction | InputSystemRuntime/InputSystem.ts:155-164 | bindAction: only a configured, not yet bound name gets a new instance; `BindActionFirstWins` states this |
| EngineModel.OnKeyDown | InputSystemRuntime/InputSystem.ts:513-517 | onKeyDown: the key enters the key handler, then processKeyDown runs; `KeyDownPressed` states its effect |
| EngineModel.OnKeyUp | InputSystemRuntime/InputSystem.ts:519-523 | onKeyUp: the key leaves the key handler, then processKeyUp runs; `KeyUpReleased` states its effect |
| EngineModel.OnMouseDown | InputSystemRuntime/InputSystem.ts:532-537 | onMouseDown: the button's table entry (or `undefined`) enters the mouse handler, then processMouseDown runs on a defined entry; `UnmappedCodeInert` and `FixtureMouseButtonsInert` state its effect on unlisted buttons |
| EngineModel.OnMouseUp | InputSystemRuntime/InputSystem.ts:539-544 | onMouseUp: the button's entry leaves the mouse handler, then processMouseUp runs on a defined entry; `MouseUpRepeatsPress` states what that does |
| EngineModel.OnMouseMove | InputSystemRuntime/InputSystem.ts:525-530 | onMouseMove: the X delta is dispatched on the mouse-X code, then the Y delta on the mouse-Y code; `ValueDeliversScaled` states each half |
| EngineModel.OnMouseWheel | InputSystemRuntime/InputSystem.ts:546-551 | onMouseWheel: the X scroll on the wheel-X code, then the Y scroll on the wheel-Y code; `ValueDeliversScaled` states each half |
| EngineModel.OnTouchStart | InputSystemRuntime/InputSystem.ts:494-497 | onTouchStart: the code enters the touch handler, then processTouchStart runs; `PressInvokesActions` states what that does |
| EngineModel.OnJoystick | InputSystemRuntime/InputSystem.ts:509-511 | onJoystick: processJoystick on the code with the value; `ValueDeliversScaled` and `JoystickReleasedByTouchEnd` state its effect |
| EngineModel.TouchReleaseLoop | InputSystemRuntime/InputSystem.ts:414-426 | the loop of a touch end changes only axis values and the log, keeps the bound names and only appends to the log |
| EngineModel.ValueStep | InputSystemRuntime/InputSystem.ts:280-290 | one iteration of the value loop keeps the bound axis names |
| EngineModel.ProcessHeld | InputSystemRuntime/InputSystem.ts:191-205 | a held re-dispatch keeps the bound axis names |
| EngineModel.ProcessValue | InputSystemRuntime/InputSystem.ts:274-293 | a value event keeps the bound axis names |
| EngineModel.HeldUpdate | InputSystemRuntime/InputSystem.ts:589-593 | a handler's `update` over its held codes keeps the bound axis names |
| EngineModel.MouseHeldUpdate | InputSystemRuntime/InputSystem.ts:589-593 | the mouse handler's `update` keeps the bound axis names; an `undefined` entry does nothing |
| EngineModel.GetCodePressed | InputSystemRuntime/InputSystem.ts:126-128 | a code reads as pressed iff it is in the pressed set; how each event changes the answer is stated by `KeyDownPressed`, `KeyUpReleased`, `ValueEventPresses`, `JoystickReleasedByTouchEnd` and `TickPresses` |
| EngineInvariant.Inv | InputSystemRuntime/InputSystem.ts:10-44 | the state invariant over the router's fields: bound names are configured and carry their own name; each axis `value` is the last value its callback received; every logged invocation came from a bound instance; no held set holds a code twice |
| EngineInvariant.ReachableInv | InputSystemRuntime/InputSystem.ts:10-51 | from a fresh router, after any sequence of events, binds and frames: bound names are configured; each instance carries its own name; each axis `value` equals the last value its callback received (0 before any); every logged invocation came from a bound instance with that instance's callback; no held set holds a code twice |
| EngineInvariant.StepInv | InputSystemRuntime/InputSystem.ts:494-551 | every entry point keeps the invariant |
| EngineInvariant.RunInv | InputSystemRuntime/InputSystem.ts:494-551 | any sequence of entry-point calls keeps the invariant |
| EngineInvariant.TickInv | InputSystemRuntime/InputSystem.ts:589-593 | a frame over the four handlers keeps the invariant |
| EngineInvariant.ProcessPressInv | InputSystemRuntime/InputSystem.ts:171-184 | processKeyDown, processMouseDown and processTouchStart keep the invariant |
| EngineInvariant.ProcessHeldInv | InputSystemRuntime/InputSystem.ts:191-205 | the four `process*Held` procedures keep the invariant |
| EngineInvariant.ProcessValueInv | InputSystemRuntime/InputSystem.ts:274-293 | processMouseMove, processMouseWheel and processJoystick keep the invariant |
| EngineInvariant.ProcessKeyUpInv | InputSystemRuntime/InputSystem.ts:212-226 | processKeyUp keeps the invariant |
| EngineInvariant.ProcessMouseUpInv | InputSystemRuntime/InputSystem.ts:253-266 | processMouseUp keeps the invariant |
| EngineInvariant.ProcessTouchReleaseInv | InputSystemRuntime/InputSystem.ts:410-453 | processTouchEnd and processTouchCancel keep the invariant |
| EngineInvariant.BindAxisInv | InputSystemRuntime/InputSystem.ts:137-146 | bindAxis keeps the invariant; a new axis reports 0 because its callback was never invoked |
| EngineInvariant.BindActionInv | InputSystemRuntime/InputSystem.ts:155-164 | bindAction keeps the invariant |
| EngineInvariant.AxisExecuteInv | InputSystemRuntime/InputSystem.ts:604-607 | `AxisMapping.execute` keeps the invariant: the stored value is the value just delivered |
| EngineInvariant.AxisCancelInv | InputSystemRuntime/InputSystem.ts:609-612 | `AxisMapping.cancel` keeps the invariant: the stored 0 is the value just delivered |
| EngineInvariant.ActionExecuteInv | InputSystemRuntime/InputSystem.ts:629-631 | `ActionMapping.execute` keeps the invariant: the logged invocation comes from the bound instance |
| EngineInvariant.PressLoopInv | InputSystemRuntime/InputSystem.ts:175-182 | the press loop keeps the invariant |
| EngineInvariant.HeldLoopInv | InputSystemRuntime/InputSystem.ts:195-203 | the held loop keeps the invariant |
| EngineInvariant.ValueStepInv | InputSystemRuntime/InputSystem.ts:280-290 | one iteration of the value loop keeps the invariant |
| EngineInvariant.ValueLoopInv | InputSystemRuntime/InputSystem.ts:278-291 | the value loop keeps the invariant |
| EngineInvariant.KeyUpLoopInv | InputSystemRuntime/InputSystem.ts:216-224 | the key-release loop keeps the invariant |
| EngineInvariant.TouchReleaseLoopInv | InputSystemRuntime/InputSystem.ts:414-426 | the touch-end loop keeps the invariant |
| EngineInvariant.HeldUpdateInv | InputSystemRuntime/InputSystem.ts:589-593 | a handler's `update` keeps the invariant |
| EngineInvariant.MouseHeldUpdateInv | InputSystemRuntime/InputSystem.ts:589-593 | the mouse handler's `update` keeps the invariant |
| EngineInvariant.InitialInv | InputSystemRuntime/InputSystem.ts:10-51 | a new router meets the invariant |
| EngineInvariant.Step | InputSystemRuntime/InputSystem.ts:494-551 | each public entry point (events, binds, a frame) keeps every bound axis a configured one |
| EngineInvariant.Run | InputSystemRuntime/InputSystem.ts:494-551 | a sequence of entry-point calls, applied in order |
| EngineInvariant.LastAxisValueAppend | InputSystemRuntime/InputSystem.ts:614-617 | the value an axis reports changes only with an invocation of that axis, to the value invoked with |
| EngineProperties.HeldDeliversScale | InputSystemRuntime/InputSystem.ts:191-205 | a held code invokes, in index order, each bound axis among its names with `1 × scale` and no action; afterwards every such axis holds that scale and every other axis is unchanged |
| EngineProperties.HeldLoopCalls | InputSystemRuntime/InputSystem.ts:195-203 | the held loop appends to the log, in index order, one invocation per bound axis among the names, carrying that axis's callback and `1 × scale`, and nothing else |
| EngineProperties.HeldLoopStep | InputSystemRuntime/InputSystem.ts:195-203 | one iteration of the held loop appends the first name's axis invocation, if it is bound, and keeps the bindings the rest of the loop needs |
| EngineProperties.AxisCallsFor | InputSystemRuntime/InputSystem.ts:195-203 | the invocations a held re-dispatch must make: for each name in order, one axis invocation with `v × scale` when the name is bound |
| EngineProperties.AxisCallsForValueFree | InputSystemRuntime/InputSystem.ts:604-607 | which invocations a held loop makes depends on the bound instances, not on the values they last stored |
| EngineProperties.HeldLoopValues | InputSystemRuntime/InputSystem.ts:195-203 | the held loop stores `1 × scale` in each bound axis among the names, and leaves the others alone |
| EngineProperties.ValueDeliversScaled | InputSystemRuntime/InputSystem.ts:274-293 | a move, wheel or joystick value `v` invokes, for each name of the code in index order, its bound action and then its bound axis with `v × scale`; afterwards every such axis holds `v × scale` and every other axis is unchanged |
| EngineProperties.ValueLoopCalls | InputSystemRuntime/InputSystem.ts:278-291 | the value loop appends to the log, for each name in index order, the bound action's invocation followed by the bound axis's invocation with `v × scale`, and nothing else |
| EngineProperties.ValueLoopStep | InputSystemRuntime/InputSystem.ts:280-290 | one iteration of the value loop appends the first name's action and then axis invocations, and keeps the bindings the rest of the loop needs |
| EngineProperties.ValueStepCalls | InputSystemRuntime/InputSystem.ts:280-290 | one iteration keeps the action bindings and the bound axis instances, and appends the action invocation before the axis invocation |
| EngineProperties.ValueCallsFor | InputSystemRuntime/InputSystem.ts:278-291 | the invocations a value event must make: for each name in order, its action if bound, then its axis with `v × scale` if bound |
| EngineProperties.ValueCallsForValueFree | InputSystemRuntime/InputSystem.ts:280-290 | which invocations a value loop makes depends on the bound instances, not on the values the axes last stored |
| EngineProperties.ValueLoopValues | InputSystemRuntime/InputSystem.ts:278-291 | the value loop stores `v × scale` in each bound axis among the names, and leaves the others alone |
| EngineProperties.KeyUpZeroesAxes | InputSystemRuntime/InputSystem.ts:212-226 | a key release delivers exactly one 0 to each bound axis of the code, in index order; it invokes nothing else and leaves the other axes' values alone |
| EngineProperties.KeyUpLoopValues | InputSystemRuntime/InputSystem.ts:216-224 | the release loop stores 0 in each bound axis among the names, and leaves the others alone |
| EngineProperties.KeyUpLoopCalls | InputSystemRuntime/InputSystem.ts:216-224 | the release loop appends one zero invocation per bound axis among the names, in order |
| EngineProperties.ZeroCallsAreZeros | InputSystemRuntime/InputSystem.ts:609-612 | every invocation a release makes delivers 0 to an axis |
| EngineProperties.PressInvokesActions | InputSystemRuntime/InputSystem.ts:171-184 | a key, mouse or touch press invokes exactly the bound actions of the code's names, in index order, and changes no axis |
| EngineProperties.PressLoopCalls | InputSystemRuntime/InputSystem.ts:175-182 | the press loop changes nothing but the log, and appends one invocation per bound action among the names |
| EngineProperties.ActionCallsFor | InputSystemRuntime/InputSystem.ts:629-631 | every invocation of a press is an action invocation |
| EngineProperties.ActionCallsForUnbound | InputSystemRuntime/InputSystem.ts:175-182 | names none of which has a bound action make the press loop invoke nothing |
| EngineProperties.MouseUpRepeatsPress | InputSystemRuntime/InputSystem.ts:253-266 | releasing a mouse button makes the same invocations as pressing it, leaves every axis as it was, and unpresses the code |
| EngineProperties.TouchReleaseIsKeyUp | InputSystemRuntime/InputSystem.ts:410-453 | ending or cancelling a touch has exactly the effect of a key release on the same code |
| EngineProperties.TouchReleaseLoopIsKeyUpLoop | InputSystemRuntime/InputSystem.ts:414-426 | the touch-end loop equals the key-up loop, because action cancel does nothing |
| EngineProperties.KeyDownPressed | InputSystemRuntime/InputSystem.ts:513-517 | after onKeyDown, `getCodePressed(c)` holds iff it held before or `c` is the pressed code listed in the index; the key is held |
| EngineProperties.KeyUpReleased | InputSystemRuntime/InputSystem.ts:519-523 | after onKeyUp, `getCodePressed(c)` holds iff it held before and `c` is not the released listed code; the key is no longer held |
| EngineProperties.UnmappedCodeInert | InputSystemRuntime/InputSystem.ts:494-544 | a key, touch or mouse-button event on a code the index does not list (or a button with no table entry) changes only its held handler; a joystick value, held re-dispatch, press or processMouseUp of such a code changes nothing |
| EngineProperties.ValueEventPresses | InputSystemRuntime/InputSystem.ts:274-293 | a value event adds its listed code to the pressed set and removes none; it touches only axes and the log besides |
| EngineProperties.JoystickReleasedByTouchEnd | InputSystemRuntime/InputSystem.ts:410-428 | a joystick value presses its listed code, and a touch end or cancel on that code (as the joystick widget sends) unpresses it again; an unlisted code is left as it was |
| EngineProperties.HeldUpdateFrame | InputSystemRuntime/InputSystem.ts:589-593 | one handler's update adds every listed held code to the pressed set and changes nothing else but axes and the log |
| EngineProperties.MouseHeldUpdateFrame | InputSystemRuntime/InputSystem.ts:589-593 | the mouse handler's update does the same; `undefined` entries add nothing |
| EngineProperties.TickPresses | InputSystemRuntime/InputSystem.ts:191-205 | a frame re-adds to the pressed set every listed code some handler holds, and changes no handler and no action binding |
| EngineProperties.TouchEndThenTickRepresses | InputSystemRuntime/InputSystem.ts:410-428 | a touch end on a code still held by a key unpresses it, and the next frame presses it again |
| EngineProperties.BindAxisFirstWins | InputSystemRuntime/InputSystem.ts:137-146 | bindAxis creates an instance at value 0 iff the name is configured and not yet bound; it keeps every existing instance, changes nothing else, and binding again does nothing |
| EngineProperties.BindActionFirstWins | InputSystemRuntime/InputSystem.ts:155-164 | bindAction creates an instance iff the name is configured and not yet bound; it keeps every existing instance, changes nothing else, and binding again does nothing |
| EngineProperties.LoneKeyTick | InputSystemRuntime/InputSystem.ts:589-593 | a frame with one held key feeding one bound axis is one execution of that axis with the key's scale |
| EngineProperties.HeldKeyRepeats | InputSystemRuntime/InputSystem.ts:573-593 | over `k` frames a lone held key delivers its scale to its axis exactly `k` times, once per frame |
| FixtureScenario.PressWithoutActions | InputSystemRuntime/InputSystem.ts:171-184 | a key press of a code none of whose names binds an action only marks the key held and, if the index lists the code, pressed; it invokes nothing and changes no axis |
| FixtureScenario.ReleaseOneAxis | InputSystemRuntime/InputSystem.ts:212-226 | a release of a code feeding one bound axis is one cancel of that axis |
| FixtureScenario.TwoKeysTick | InputSystemRuntime/InputSystem.ts:589-593 | with two keys held on the same axis, a frame executes it for each key in the order pressed, so the later key's value stays |
| FixtureScenario.ForwardBackScenario | Example/assets/InputSystem/InputSystemConfig.ts:878-891 | with the shipped configuration, bind MoveForward, hold W, add S, release S, release W with frames between: the callback receives 1, 1, -1, 0, 1, 0 and the router ends with nothing pressed or held |
| FixtureScenario.FixtureMouseButtonsInert | InputSystemRuntime/InputSystem.ts:532-544 | with the shipped configuration a mouse press or release only enters or leaves the mouse handler |
| Runtime.AxisMapping.Execute | InputSystemRuntime/InputSystem.ts:604-607 | stores `v` and invokes the callback with it |
| Runtime.AxisMapping.Cancel | InputSystemRuntime/InputSystem.ts:609-612 | stores 0 and invokes the callback with 0 |
| Runtime.HeldEventHandler.EventStart | InputSystemRuntime/InputSystem.ts:581-583 | the held codes become `EngineModel.EventStart` of the old ones |
| Runtime.HeldEventHandler.EventEnd | InputSystemRuntime/InputSystem.ts:585-587 | the held codes become `EngineModel.EventEnd` of the old ones |
| Runtime.InputSystem.constructor | InputSystemRuntime/InputSystem.ts:10-51 | a new router is the initial state: nothing pressed, held, bound or invoked |
| Runtime.InputSystem.GetCodePressed | InputSystemRuntime/InputSystem.ts:126-128 | answers what `EngineModel.GetCodePressed` answers for the router's abstract state |
| Runtime.InputSystem.BindAxis | InputSystemRuntime/InputSystem.ts:137-146 | the new state is `EngineModel.BindAxis` of the old one; a first bind of a configured name stores a freshly allocated instance, and any other bind leaves the instance table as it was |
| Runtime.InputSystem.BindAction | InputSystemRuntime/InputSystem.ts:155-164 | the new state is `EngineModel.BindAction` of the old one |
| Runtime.InputSystem.ExecuteAxis | InputSystemRuntime/InputSystem.ts:604-607 | `execute` on the instance bound to the name gives `EngineModel.AxisExecute`: that instance stores and receives the value, no other instance changes |
| Runtime.InputSystem.CancelAxis | InputSystemRuntime/InputSystem.ts:609-612 | `cancel` on the instance bound to the name gives `EngineModel.AxisCancel`: that instance stores and receives 0, no other instance changes |
| Runtime.InputSystem.ValueStep | InputSystemRuntime/InputSystem.ts:280-290 | one iteration of the value loop gives `EngineModel.ValueStep`: the action first, then the axis |
| Runtime.InputSystem.PressLoop | InputSystemRuntime/InputSystem.ts:175-182 | the `for` loop over names gives `EngineModel.PressLoop` of the old state |
| Runtime.InputSystem.HeldLoop | InputSystemRuntime/InputSystem.ts:195-203 | the loop gives `EngineModel.HeldLoop` of the old state |
| Runtime.InputSystem.ValueLoop | InputSystemRuntime/InputSystem.ts:278-291 | the loop gives `EngineModel.ValueLoop` of the old state |
| Runtime.InputSystem.KeyUpLoop | InputSystemRuntime/InputSystem.ts:216-224 | the loop gives `EngineModel.KeyUpLoop` of the old state |
| Runtime.InputSystem.TouchReleaseLoop | InputSystemRuntime/InputSystem.ts:414-426 | the loop gives `EngineModel.TouchReleaseLoop` of the old state |
| Runtime.InputSystem.ProcessPress | InputSystemRuntime/InputSystem.ts:171-184 | processKeyDown (and the identical processMouseDown, processTouchStart) gives `EngineModel.ProcessPress` |
| Runtime.InputSystem.ProcessHeld | InputSystemRuntime/InputSystem.ts:191-205 | the four `process*Held` procedures give `EngineModel.ProcessHeld` |
| Runtime.InputSystem.ProcessValue | InputSystemRuntime/InputSystem.ts:274-293 | processMouseMove (and the identical processMouseWheel, processJoystick) gives `EngineModel.ProcessValue` |
| Runtime.InputSystem.ProcessKeyUp | InputSystemRuntime/InputSystem.ts:212-226 | processKeyUp gives `EngineModel.ProcessKeyUp` |
| Runtime.InputSystem.ProcessMouseUp | InputSystemRuntime/InputSystem.ts:253-266 | processMouseUp gives `EngineModel.ProcessMouseUp` |
| Runtime.InputSystem.ProcessTouchRelease | InputSystemRuntime/InputSystem.ts:410-453 | processTouchEnd and processTouchCancel give `EngineModel.ProcessTouchRelease` |
| Runtime.InputSystem.OnTouchStart | InputSystemRuntime/InputSystem.ts:494-497 | gives `EngineModel.OnTouchStart` |
| Runtime.InputSystem.OnTouchEnd | InputSystemRuntime/InputSystem.ts:499-502 | gives `EngineModel.OnTouchRelease` |
| Runtime.InputSystem.OnTouchCancel | InputSystemRuntime/InputSystem.ts:504-507 | gives `EngineModel.OnTouchRelease` |
| Runtime.InputSystem.OnJoystick | InputSystemRuntime/InputSystem.ts:509-511 | gives `EngineModel.OnJoystick` |
| Runtime.InputSystem.OnKeyDown | InputSystemRuntime/InputSystem.ts:513-517 | gives `EngineModel.OnKeyDown` |
| Runtime.InputSystem.OnKeyUp | InputSystemRuntime/InputSystem.ts:519-523 | gives `EngineModel.OnKeyUp` |
| Runtime.InputSystem.OnMouseMove | InputSystemRuntime/InputSystem.ts:525-530 | gives `EngineModel.OnMouseMove`: X first, then Y |
| Runtime.InputSystem.OnMouseDown | InputSystemRuntime/InputSystem.ts:532-537 | gives `EngineModel.OnMouseDown` |
| Runtime.InputSystem.OnMouseUp | InputSystemRuntime/InputSystem.ts:539-544 | gives `EngineModel.OnMouseUp` |
| Runtime.InputSystem.OnMouseWheel | InputSystemRuntime/InputSystem.ts:546-551 | gives `EngineModel.OnMouseWheel`: X first, then Y |
| Runtime.InputSystem.UpdateHeld | InputSystemRuntime/InputSystem.ts:589-593 | a handler's `update` gives `EngineModel.HeldUpdate` over its held codes |
| Runtime.InputSystem.UpdateMouseHeld | InputSystemRuntime/InputSystem.ts:589-593 | the mouse handler's `update` gives `EngineModel.MouseHeldUpdate` |
| Runtime.InputSystem.Tick | InputSystemRuntime/InputSystem.ts:19-34 | one frame updates the touch, key, mouse and gamepad handlers in that order, giving `EngineModel.Tick` |

## Left out

- Registration with the engine's input and touch event sources (InputSystem.ts:65-82), because these are calls into platform code. Their effect is the `On*` entry points.
- The on-screen touch overlay and its prefab loading (InputSystem.ts:87-107), because these are asset I/O. `alwaysShowTouch` and `touchPrefabUuid` are carried in the configuration but nothing reads them.
- The per-frame director subscription (InputSystem.ts:573-579), because it is a platform callback. It is modelled as an explicit `Tick` that the caller invokes. `Tick` runs the handlers in the order they subscribe, which is the order the fields are initialised (InputSystem.ts:19-34).
- The gamepad event source and `onGamepadInput` (InputSystem.ts:116-118, 488-490, 553-564), because they are disabled or empty in the code. The gamepad handler is there, and it starts out with no codes.
- The singleton accessor (InputSystem.ts:53-60) and the vector and cast helpers (InputSystem.ts:673-707), because they are type plumbing. The code, the button index and the deltas that the wrappers read from platform event objects are passed to the entry points directly.
- GamepadJoystick.ts, GamepadTouch.ts and Character.ts are not part of this model. The model uses one fact from GamepadJoystick.ts (lines 61-85): the widget ends a touch by sending a touch end or cancel on its codes. `JoystickReleasedByTouchEnd` takes that sequence as its input.
- Magnitudes and scales are real numbers, not 64-bit floats, so rounding is not modelled.
- The callbacks' own effects, and any re-entry into the router from a callback, are not modelled. A callback is a token, and its invocation is an entry in the log.
- Names inherited from `Object.prototype` (such as `"toString"`), which a JavaScript object lookup would also find, are not modelled. Configurations are plain finite maps.
- The value-event and held handlers (`ProcessHeld`, `ProcessValue`, `Tick` and their `Runtime` counterparts) require `ScaleLookupsDefined`. The code dereferences `axisMappingSet[name][code]` unchecked and would throw where that entry is missing. The shipped configuration meets this requirement (`FixtureScaleLookupsDefined`).
- Removing bindings is not modelled, because the code has no operation for it.
