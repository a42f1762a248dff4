# Input interpretation layer of the QUADBOT-X1 teleoperation front-end

This project models, in Dafny, how the robot front-end turns pointer and touch
input into discrete motion commands (`forward`, `backward`, `left`, `right`,
`rotate-left`, `rotate-right`), and proves properties of that model. It covers
five pieces:

- **Joystick** (`joystick.dfy`): a drag state machine over a round base.
  Each sample is a displacement from the centre. The displacement is clamped
  to a 50 px radius for display. It is neutral within 10 px of the centre.
  Otherwise the strictly larger of |dx| and |dy| gives the axis and its sign
  gives the direction. In the model, where every event is handled against
  the current state, a command is sent only when the recorded direction
  changes to a non-neutral value. The program's document-level listeners
  compare against an older direction and can send again (see "Left out").
- **Sliders** (`sliders.dfy`): three range inputs over [0, 100], each with a
  neutral band of ±10 around 50. The three share ONE remembered direction,
  `lastDirection`, as the component does.
- **Swipe and long-press recogniser** (`gesture.dfy`): a single-touch start
  sample and a cancellable 500 ms long-press timer. A touch-end within
  300 ms that travelled more than 50 px on some axis is a swipe.
- **Directional pad** (`control_pad.dfy`): six buttons with fixed
  directions. There is no debounce. A held-button marker is kept.
- **Application shell** (`app.dfy`): in the model, a command is accepted
  only while the robot is on and connected, because every handler reads the
  current state. The controllers' `disabled` flag comes from the same two
  conditions. The program's drag handlers can read older values (see
  "Left out"). The connection goes disconnected → connecting →
  connected. Sensor readings are simulated within range and graded. Swipes
  map to directions. The controller menu is modelled too.

`commands.dfy` holds the shared vocabulary: `Direction` (with `Neutral` for
the empty string `''`), `Option`, and `Outcome`/`Trace`. An `Outcome` is the
state after one handler plus what it sent. A `Trace` is the state after a
sequence of events plus everything sent, in order.

Each component that updates state in place has two parts:

- a value datatype of its state, with a pure `Step` function per event and a
  `Run` over an event sequence;
- a class whose fields are the component's state variables. Its handler
  methods update the fields and promise `State() == Step(old(State()), …)`.

The lemmas are stated about `Step` and `Run`.

Modelling conventions:

- Coordinates, slider values and times are integers. `Date.now()` is a
  `now` parameter. Timer expiry is an explicit event. `Math.random()` is a
  boolean choice carried by the sensor-tick event.
- The joystick's container centre is at `width / 2`, which can be a half
  pixel. The model therefore classifies the exact integer displacement
  *doubled* (`2*(clientX-left) - width`). The 10 px dead zone becomes
  `(2dx)² + (2dy)² > 400`.
- The displayed, clamped offset is a pair of reals. The value of
  `Math.sqrt` is carried in each sample as `distance`, with the precondition
  `distance ≥ 0 ∧ distance² = dx² + dy²`. This is an idealised exact square
  root.
- A handler's `disabled` prop is a parameter of its `Step` and its methods.
- Handler presence (`handlers.onLongPress`) is the `hasLongPress` parameter
  of the recogniser. It only affects touch-start.

Points where the code behaves differently from what one might expect; the model follows the code:

- **Ties.** The code compares with a strict `absX > absY`
  (`src/components/JoystickControl.jsx:39`, `src/hooks/useGesture.jsx:53`).
  So when |dx| = |dy| the result is vertical (`forward`/`backward`, swipe
  up/down), not horizontal. `Joystick.TieGoesVertical` and
  `Gesture.SwipeTieGoesVertical` state this.
- **Slider memory.** One might expect each slider to remember its own last
  direction. The code has one shared `lastDirection`
  (`src/components/SliderControl.jsx:9`), and it is modelled exactly as
  written. `Sliders.SharedMemoryResends` shows a consequence: a slider that
  has not changed its classification sends its direction again once another
  slider has sent one. `Sliders.StepKeepsCoherent` shows the memory is never
  inconsistent: whenever it holds a channel's direction, that channel's
  slider currently selects it.
- **Disabling mid-drag.** In the model, where every handler reads the
  current `disabled` value, joystick moves are ignored while `disabled`.
  The drag itself is not abandoned: `isDragging` stays true until a release.
  `Joystick.DisabledIgnoresInput` and `Joystick.DisabledRunIsSilent` state
  this for up-to-date handlers. The program's document-level handlers can
  still act on an older `disabled` value (see "Left out").

## Model

| member | source | states |
|---|---|---|
| Joystick.DeltaMatchesCentre | src/components/JoystickControl.jsx:18-22 | half the doubled integer displacement is exactly the pointer minus the box's edge minus half its width (height) |
| Joystick.Heading | src/components/JoystickControl.jsx:33-44 | the handler's own test: raw distance over 10, then the strictly larger absolute component of the clamped offset and its sign; `ClampedHeading` proves it equal to `Classify` |
| Joystick.Track | src/components/JoystickControl.jsx:14-52 | the move handler on one sample: ignored when disabled, otherwise stores the clamped offset and the new direction and sends it when new and non-neutral; its properties are `EmitsOnlyOnChange` and `StepKeepsValid` |
| Joystick.Start | src/components/JoystickControl.jsx:54-58 | press: ignored when disabled, otherwise starts the drag and tracks the sample; stated by `PressStartsDrag` and `DisabledIgnoresInput` |
| Joystick.TrackRecords | src/components/JoystickControl.jsx:14-52 | an enabled sample stores the clamped offset and the sample's direction, keeps the drag flag, and sends the direction exactly when it is new and non-neutral |
| Joystick.PressStartsDrag | src/components/JoystickControl.jsx:54-58 | an enabled mouse press or one-finger touch start, from any state, starts a drag at the sample's clamped offset and direction, and sends that direction exactly when it is non-neutral and differs from the one recorded before |
| Joystick.DragRightSteps | src/components/JoystickControl.jsx:14-63 | the state after each event of a drag along the horizontal axis and the command each one sends: the first step past 10 px sends `right`, later steps in the same direction and the return to the centre send nothing |
| Joystick.Move | src/components/JoystickControl.jsx:60-63 | move: tracked only while dragging; stated by `MoveNeedsDrag` |
| Joystick.Step | src/components/JoystickControl.jsx:71-95 | the seven event handlers of the base: one-finger guards on touch, releases reset; stated by `MultiTouchIgnored` and `ReleaseResets` |
| Joystick.Clamp | src/components/JoystickControl.jsx:24-29 | the handle offset is the displacement itself within the 50 px radius; otherwise it has length exactly 50; either way it lies on the displacement's ray through the centre (zero cross product, same signs), so the angle is unchanged |
| Joystick.RimScaling | src/components/JoystickControl.jsx:26-29 | rescaling a longer displacement by 50/distance puts it on the rim, on the same ray (zero cross product) and with the same signs and dominant axis |
| Joystick.Classify | src/components/JoystickControl.jsx:36-44 | a sample is neutral exactly when its distance is at most 10 px, and never classifies as a rotation |
| Joystick.TieGoesVertical | src/components/JoystickControl.jsx:39-43 | outside the dead zone, equal magnitudes classify as backward or forward by the sign of dy |
| Joystick.ClassifyAlongRay | src/components/JoystickControl.jsx:36-44 | pushing further along the same ray (integer factor ≥ 1) never changes a non-neutral direction |
| Joystick.ClampedHeading | src/components/JoystickControl.jsx:24-44 | classifying the clamped offset, as the handler does, gives the direction of the raw displacement |
| Joystick.EmitsOnlyOnChange | src/components/JoystickControl.jsx:46-51 | a sent command is non-neutral, differs from the previously recorded direction and becomes the recorded one; a move while dragging and enabled sends exactly when its direction is new and non-neutral |
| Joystick.StepIdempotent | src/components/JoystickControl.jsx:46-51 | handled against the current state, the same event a second time changes nothing and sends nothing |
| Joystick.DisabledIgnoresInput | src/components/JoystickControl.jsx:14-15 | while disabled, presses and moves leave the state unchanged and send nothing; releases still reset |
| Joystick.MoveNeedsDrag | src/components/JoystickControl.jsx:60-63 | moves are ignored unless a drag is in progress |
| Joystick.ReleaseResets | src/components/JoystickControl.jsx:65-69 | mouse-up, mouse-leave and touch-end stop dragging, recentre the handle, clear the direction and send nothing |
| Joystick.MultiTouchIgnored | src/components/JoystickControl.jsx:83-91 | touch starts and moves with other than one finger leave the state unchanged |
| Joystick.StepKeepsValid | src/components/JoystickControl.jsx:54-69 | every event keeps an idle joystick centred and neutral and the handle within the radius |
| Joystick.RunKeepsValid | src/components/JoystickControl.jsx:54-69 | the same for any sequence of events |
| Joystick.RunNeverSendsNeutral | src/components/JoystickControl.jsx:48-50 | no sequence of events sends the neutral direction |
| Joystick.DisabledRunIsSilent | src/components/JoystickControl.jsx:54-58 | while disabled, no sequence of events sends a command, and an idle joystick never starts dragging |
| Joystick.RightAndBack | src/components/JoystickControl.jsx:14-69 | a drag from the centre to 100 px right and back, then a release, sends exactly `right` and ends idle |
| Joystick.JoystickControl.constructor | src/components/JoystickControl.jsx:6-8 | starts idle: centred, not dragging, neutral |
| Joystick.JoystickControl.HandleJoystickMove | src/components/JoystickControl.jsx:14-52 | clamps, classifies the clamped offset and sends on change, with the effect of the exact-integer specification |
| Joystick.JoystickControl.HandleStart | src/components/JoystickControl.jsx:54-58 | unless disabled, starts dragging and processes the sample |
| Joystick.JoystickControl.HandleMove | src/components/JoystickControl.jsx:60-63 | processes the sample only while dragging |
| Joystick.JoystickControl.HandleEnd | src/components/JoystickControl.jsx:65-69 | resets to idle |
| Joystick.JoystickControl.HandleTouchStart | src/components/JoystickControl.jsx:83-86 | a single-finger touch starts a drag; other touch counts change nothing |
| Joystick.JoystickControl.HandleTouchMove | src/components/JoystickControl.jsx:88-91 | a single-finger move is a move; other touch counts change nothing |
| Sliders.Low | src/components/SliderControl.jsx:21 | below the centre: left, forward, rotate-left for the X, Y and rotation sliders (also lines 40 and 59); see `ChannelsPartitionDirections` |
| Sliders.High | src/components/SliderControl.jsx:21 | above the centre: right, backward, rotate-right (also lines 40 and 59); see `ChannelsPartitionDirections` |
| Sliders.Change | src/components/SliderControl.jsx:13-30 | the common logic of the three change handlers with the shared memory; stated by `ChangeSendsNewDirection`, `NeutralClearsOnlyOwnDirection`, `ChangeTouchesOwnChannel` and `DisabledChangeIsInert` |
| Sliders.Step | src/components/SliderControl.jsx:13-75 | a change on one slider, or reset; stated by the change lemmas and `ResetCentres` |
| Sliders.ChannelsPartitionDirections | src/components/SliderControl.jsx:19-22 | the three channels' direction pairs are disjoint, exclude neutral and cover all six directions |
| Sliders.Classify | src/components/SliderControl.jsx:19-22 | a value in [40, 60] is neutral, under 40 selects the channel's first direction, over 60 its second |
| Sliders.ChangeSendsNewDirection | src/components/SliderControl.jsx:24-26 | a change sends exactly once, exactly its classification, when that is non-neutral and differs from the shared memory, and the memory then holds it |
| Sliders.NeutralClearsOnlyOwnDirection | src/components/SliderControl.jsx:27-29 | back in the band, the memory is cleared only if it holds this channel's direction, and nothing is sent |
| Sliders.ChangeTouchesOwnChannel | src/components/SliderControl.jsx:13-68 | a change stores its own value and leaves the other two sliders unchanged |
| Sliders.DisabledChangeIsInert | src/components/SliderControl.jsx:14 | while disabled, a change alters nothing and sends nothing |
| Sliders.ResetCentres | src/components/SliderControl.jsx:70-75 | reset sets all three values to 50, clears the memory and sends nothing |
| Sliders.RepeatedChangeIsSilent | src/components/SliderControl.jsx:24-29 | the same change repeated sends nothing and changes nothing the second time |
| Sliders.StepKeepsCoherent | src/components/SliderControl.jsx:13-75 | whenever the shared memory holds a channel's direction, that channel's slider currently selects it; every event keeps this |
| Sliders.RunKeepsCoherent | src/components/SliderControl.jsx:13-75 | the same for any sequence of events |
| Sliders.RunSendsNoNeutral | src/components/SliderControl.jsx:24-26 | no sequence of events sends the neutral direction |
| Sliders.ForwardBackwardTrace | src/components/SliderControl.jsx:32-49 | Y moved 50 → 80 → 85 → 50 → 20 sends `backward` then `forward`, nothing else |
| Sliders.SharedMemoryResends | src/components/SliderControl.jsx:9 | with the one shared memory, X 80, Y 80, X 85 sends `right`, `backward`, `right` |
| Sliders.SliderControl.constructor | src/components/SliderControl.jsx:6-9 | starts with all three sliders at 50 and no remembered direction |
| Sliders.SliderControl.HandleChange | src/components/SliderControl.jsx:13-30 | the shared change logic of the three handlers, equal to the specification `Change` |
| Sliders.SliderControl.HandleXChange | src/components/SliderControl.jsx:13-30 | the left/right handler |
| Sliders.SliderControl.HandleYChange | src/components/SliderControl.jsx:32-49 | the forward/backward handler |
| Sliders.SliderControl.HandleRotationChange | src/components/SliderControl.jsx:51-68 | the rotation handler |
| Sliders.SliderControl.HandleReset | src/components/SliderControl.jsx:70-75 | centres everything and clears the memory |
| Gesture.ClassifySwipe | src/hooks/useGesture.jsx:50-58 | a swipe is reported exactly when the touch ended within 300 ms and travelled more than 50 px on some axis; it is horizontal exactly when abs(dx) > abs(dy) |
| Gesture.SwipeTieGoesVertical | src/hooks/useGesture.jsx:53-57 | equal travel on both axes gives a down or up swipe |
| Gesture.SwipeExamples | src/hooks/useGesture.jsx:50-58 | (100,100)→(100,200) in 100 ms is a down swipe; in 400 ms none; (30,10) in 50 ms none |
| Gesture.Step | src/hooks/useGesture.jsx:15-61 | the touch-start, touch-move and touch-end listeners and the long-press timer callback; stated by the lemmas that follow |
| Gesture.CancelTimer | src/hooks/useGesture.jsx:40-43 | clearing forgets the reference, removes exactly the referenced timer from the pending ones, keeps every other pending timer, and leaves the start sample alone |
| Gesture.StepKeepsValid | src/hooks/useGesture.jsx:15-61 | timer handles in use are always ones already handed out |
| Gesture.MultiTouchStartIgnored | src/hooks/useGesture.jsx:16 | a touch-start with other than one finger changes nothing |
| Gesture.StartRecordsAndArms | src/hooks/useGesture.jsx:18-29 | a single-finger start records (x, y, time) and arms a fresh pending timer exactly when a long-press handler is configured |
| Gesture.MoveOnlyCancels | src/hooks/useGesture.jsx:32-37 | a move cancels the pending timer and changes nothing else |
| Gesture.EndCancelsAndForgets | src/hooks/useGesture.jsx:39-61 | a touch-end removes exactly the referenced timer from the pending ones and keeps the others, always leaves no start sample, and without a start sample reports nothing |
| Gesture.EndReportsSwipe | src/hooks/useGesture.jsx:45-58 | a touch-end reports a swipe exactly when there was a start sample and the touch was fast and long enough |
| Gesture.StaleTimerIsHarmless | src/hooks/useGesture.jsx:25-28 | a timer that was cleared or has already fired does nothing |
| Gesture.LongPressSuppressesSwipe | src/hooks/useGesture.jsx:24-28 | touch, timer fires (twice), release: the long-press handler runs once and no swipe is reported |
| Gesture.RestartOrphansTimer | src/hooks/useGesture.jsx:15-30 | a second start while a long-press timer is pending overwrites its reference, so after the release the first timer still reports a long press |
| Gesture.NoHandlerNoLongPress | src/hooks/useGesture.jsx:24-29 | without a long-press handler no timer is ever armed and no run reports a long press |
| Gesture.GestureRecogniser.constructor | src/hooks/useGesture.jsx:5-6 | both refs start empty |
| Gesture.GestureRecogniser.ClearLongPressTimer | src/hooks/useGesture.jsx:33-36 | clears the referenced timer, as `CancelTimer` |
| Gesture.GestureRecogniser.HandleTouchStart | src/hooks/useGesture.jsx:15-30 | the touch-start handler, equal to `Step` on a touch-start |
| Gesture.GestureRecogniser.HandleTouchMove | src/hooks/useGesture.jsx:32-37 | the touch-move handler |
| Gesture.GestureRecogniser.HandleTouchEnd | src/hooks/useGesture.jsx:39-61 | the touch-end handler, returning the swipe it reports |
| Gesture.GestureRecogniser.LongPressTimerFires | src/hooks/useGesture.jsx:25-28 | the timer callback runs only for a pending timer and clears the start sample |
| ControlPad.ButtonDirection | src/components/ControlPad.jsx:36-59 | the direction each of the six buttons sends; `ButtonTableIsBijective` shows the table is one-to-one onto the non-neutral directions |
| ControlPad.Step | src/components/ControlPad.jsx:8-25 | press, release and leave on the pad; stated by `PressSendsItsDirection`, `ReleaseClears` and `LeaveClearsOnlyHeld` |
| ControlPad.ButtonTableIsBijective | src/components/ControlPad.jsx:36-59 | the six buttons map one-to-one onto the six non-neutral directions |
| ControlPad.PressSendsItsDirection | src/components/ControlPad.jsx:8-12 | an enabled press sends exactly its button's direction and marks it held; a disabled press changes nothing and sends nothing |
| ControlPad.ReleaseClears | src/components/ControlPad.jsx:14-16 | release clears the marker and sends nothing |
| ControlPad.LeaveClearsOnlyHeld | src/components/ControlPad.jsx:25 | leaving a button clears the marker only if that button is the held one, and sends nothing |
| ControlPad.RunKeepsValid | src/components/ControlPad.jsx:8-16 | the marker only ever holds a direction that some button sends |
| ControlPad.EveryPressSends | src/components/ControlPad.jsx:8-12 | an enabled pad sends one command per press, in order, repeats included |
| ControlPad.DisabledPadIsSilent | src/components/ControlPad.jsx:9 | a disabled pad sends nothing whatever the events |
| ControlPad.Pad.constructor | src/components/ControlPad.jsx:6 | no button is held at first |
| ControlPad.Pad.HandleButtonPress | src/components/ControlPad.jsx:8-12 | the press handler |
| ControlPad.Pad.HandleButtonRelease | src/components/ControlPad.jsx:14-16 | clears the marker |
| ControlPad.Pad.HandleMouseLeave | src/components/ControlPad.jsx:25 | releases only when the left button is the held one |
| App.BatteryTick | src/App.jsx:44 | one battery tick: minus one or unchanged, clamped to [0, 100]; stated by `TicksStayInRange` |
| App.GasTick | src/App.jsx:46 | one gas tick: plus or minus 5, floored at 0; stated by `TicksStayInRange` |
| App.SignalTick | src/App.jsx:47 | one signal tick: plus or minus 2, clamped to [0, 100]; stated by `TicksStayInRange` |
| App.SwipeDirection | src/App.jsx:67-72 | up, down, left, right stand for forward, backward, left, right; `SwipeMappingIsInjective` states the mapping is one-to-one |
| App.IsDisabled | src/App.jsx:82 | the controllers' `disabled` input, not on or not connected; `DisabledMeansNotConnected` shows it is exactly "not connected" in reachable states |
| App.HandleControl | src/App.jsx:54-58 | records the command only when on and connected; stated by `CommandsNeedEnabledControllers` |
| App.Step | src/App.jsx:27-78 | every handler and effect of the shell as one event; stated by `StepKeepsValid`, `ToggleDrivesConnection` and `SwitchSelectsAndCloses` |
| App.ClampPercent | src/App.jsx:44 | the result is in [0, 100], and equals the input when the input is already in range |
| App.FloorAtZero | src/App.jsx:46 | a negative input gives 0, a non-negative one is returned unchanged |
| App.TicksStayInRange | src/App.jsx:43-48 | for any random choice a tick keeps battery and signal in [0, 100] and gas ≥ 0, and away from the bounds moves each by exactly its step |
| App.BatteryStatus | src/App.jsx:135-141 | critical exactly under 20, normal exactly from 40 |
| App.GasStatus | src/App.jsx:147-153 | critical exactly over 300, normal exactly up to 200 |
| App.SignalStatus | src/App.jsx:162-168 | critical exactly under 30, normal exactly from 50 |
| App.GradesAreMonotone | src/App.jsx:135-168 | less battery or signal, or more gas, never gives a milder grade |
| App.SwipeMappingIsInjective | src/App.jsx:67-72 | up, down, left, right map to distinct commands among forward, backward, left, right |
| App.LaunchIsValid | src/App.jsx:16-24 | the initial state satisfies the invariant and has the controllers disabled |
| App.StepKeepsValid | src/App.jsx:27-78 | every event keeps readings in range, and keeps disconnected ⇔ off and connecting ⇔ on with the timer pending |
| App.RunKeepsValid | src/App.jsx:27-78 | the same for any sequence of events |
| App.CommandsNeedEnabledControllers | src/App.jsx:54-58 | a controller command or a swipe is recorded exactly when the controllers are enabled; otherwise nothing changes |
| App.DisabledMeansNotConnected | src/App.jsx:82 | in every reachable state the controllers are disabled exactly when the robot is not connected |
| App.ToggleDrivesConnection | src/App.jsx:27-38 | toggling flips the switch; switching on gives connecting and the timer then connects; switching off disconnects and the old timer no longer connects |
| App.SwitchSelectsAndCloses | src/App.jsx:74-78 | choosing a controller selects it and closes the menu |
| App.NoConnectionWithoutTimer | src/App.jsx:27-58 | without the connection timer firing, a robot that is not connected never connects and no command is recorded |
| App.ConnectThenSwipe | src/App.jsx:27-72 | switch on, timer, swipe up records `forward`; switching off before the timer makes the swipe ignored |
| App.RobotApp.constructor | src/App.jsx:16-24 | the launch state: off, disconnected, battery 85, gas 50, signal 78, pad controller, menu closed |
| App.RobotApp.Disabled | src/App.jsx:82 | the controllers' disabled flag; in every state satisfying the invariant it holds exactly when the status is not connected |
| App.RobotApp.HandleControl | src/App.jsx:54-58 | records the command only when on and connected |
| App.RobotApp.HandleSwipe | src/App.jsx:67-72 | a swipe is the command it maps to |
| App.RobotApp.HandleToggleRobot | src/App.jsx:61-64 | flips the switch and runs the connection effect |
| App.RobotApp.OnConnectTimer | src/App.jsx:31-33 | a pending connection timer connects |
| App.RobotApp.OnSensorInterval | src/App.jsx:43-48 | one sensor tick, only while connected |
| App.RobotApp.SwitchController | src/App.jsx:74-78 | selects the controller and closes the menu |
| App.RobotApp.ToggleMenu | src/App.jsx:175 | opens or closes the controller menu |

## Left out

- Rendering, CSS classes, icons and status text. `CameraFeed`,
  `StatusIndicator`, `EmergencyStop` and `SensorCard` are presentation only.
- DOM listener registration and removal. The document-level listeners of a
  joystick drag (`JoystickControl.jsx:97-128`) are modelled as the same
  move and release events as on the base, handled against the current
  state.
- `getBoundingClientRect`: the container box is an integer input.
- The joystick's null-ref guard (`JoystickControl.jsx:15`): both refs are
  taken as mounted.
- React batching and stale closures: each event is a sequential state update
  handled with current values. The program differs here. Its document-level
  joystick handlers come from an effect keyed only on `isDragging`
  (`JoystickControl.jsx:97-128`). They run the move handler of the render
  in which the drag began, so they read that render's `direction`
  (line 46), its `disabled` (line 15), which was false since the drag
  started, and its `onControl` (line 49). That `onControl` is the shell's
  `handleControl` of an earlier render, whose on-and-connected test
  (`App.jsx:55`) reads old values too. Two consequences:
  - The program sends again on every document-level move whose direction
    differs from the one at drag start. Press at the centre and drag right:
    the base handler sends `right` once, and the document handler sends
    `right` on every later move, including a second `right` for the same
    event.
  - A drag can outlive the robot being switched off. Press at the centre,
    switch the robot off from the keyboard (emergency stop), then move
    30 px right inside the base. The base handler ignores the move, but the
    document handler moves the handle and sends `right`, and the shell
    records `right` as the last action while the robot is off.

  The model's `EmitsOnlyOnChange`, `StepIdempotent`, `RightAndBack`,
  `DisabledIgnoresInput`, `DisabledRunIsSilent` and
  `App.CommandsNeedEnabledControllers` describe up-to-date handlers only and
  capture neither consequence.
- Floating point: `Math.sqrt` is an exact real supplied with each sample.
  The clamp division is done in reals.
- `Math.random`, `setTimeout`, `setInterval` and `Date.now`. They become
  boolean choices, explicit timer events and a time parameter. The sensor
  interval's 5 s period and the connection timer's 2 s delay are not timed.
- `navigator.vibrate` haptics, a foreign side effect.
- The HTML `disabled` attribute on the slider inputs, the reset button, the
  pad buttons and the menu button. It stops events before the handlers run.
  The model has the handlers' own guards only, so `HandleReset` and
  `ToggleMenu` are ungated, as their code is.
- Whether a swipe handler is present (`onSwipeRight?.()`): the recogniser
  reports the swipe. The application supplies all four handlers.
- The hook's effect is registered again whenever its handlers object
  changes, and its cleanup then clears the pending timer
  (`useGesture.jsx:67-73`). The model keeps one registration for the
  whole run.
- `touchcancel` is not handled by the source and has no event in the model.
- Slider values are integers as the range input delivers them. Their
  [0, 100] range is not a precondition, and classification holds for any
  integer.
