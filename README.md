# HurricaneVR simulator extensions: button, grab and turning state machines

This project models the parts of the HurricaneVR-Extensions desktop simulators that are
state machines and not float transform math, and proves what those state machines promise.
The simulators let a desktop user drive a HurricaneVR rig with mouse and keyboard:

- the **hands simulator** turns keys and mouse buttons into the framework's per-button
  records (`Active`, `JustActivated`, `JustDeactivated`, `Value`). It publishes each record
  through the static `HVRController.SetButtonState`. It also drives the hand grabbers'
  `CanRelease` / `AllowGrabbing` permissions from the grip record.
- The model covers both revisions of the hands simulator: the later one in
  `Core/HVRHandsSimulator.cs` (module `CoreHands`) and the earlier one in
  `Simulator/HVRHandsSimulator.cs` (module `SimulatorHands`).
- The two revisions differ:
  - **Clearing.** The later revision clears the edge flags of all ten records at the start of
    every frame. The earlier one itself never clears the flags of a hand that is not held.
  - **Unchanged input.** The later revision ignores an input equal to the stored value. The
    earlier one re-sets and re-publishes every button of a held hand every frame.
  - **Published side.** The earlier revision publishes every record under the left hand.
  - **Grab order.** The earlier revision handles the grab before simulating the grip, so it
    sees the grip flags the previous frame left.
- The outcomes of dependency resolution and of `Start` are shared by all three simulators
  (module `Lifecycle`).
- Both revisions resolve their dependencies with the same code (module `HandsCommon`): two
  tracked controllers, then a camera, then two grabbers, failing fast. Each item goes to the
  left slot when its side is `Left`, and to the right slot otherwise.
- The **body simulator** (`Simulator/HVRBodySimulator.cs`, module `SimulatorBody`) latches
  turning on a right-button press edge and off on a release edge; the release wins. It hides
  the cursor while turning, and turns the rig on each physics step while the latch is set.

Framework objects appear only as the fields the simulators touch (module `Framework`):

- `HVRButtonState` is a struct passed by `ref`, so it is a value (`ButtonState`). A `ref`
  parameter becomes the old value in and the new value out. The controller holds its five
  records, and their stored inputs, as fields.
- `HVRController.SetButtonState` is a sink that keeps every publication in order. The last
  one published is the last element of its log.
- `ForceRelease` is a counter on the grabber. What `IsGrabbing` reads after a forced release is
  left open: the grab functions take it as a parameter, and the methods state the grabber's
  other fields around whatever value it has.
- A `NullReferenceException` from a dependency slot that a modelled method dereferences (a
  controller target, the camera, a grabber, the player controller or inputs) is a result of
  that method (`StartOutcome`, `FrameOutcome`, a `nullReference` flag). The state is stated as
  it stands when the exception leaves the method. Two other exceptions are not modelled: an
  unassigned `Rig`, and unset `ControllerLeft` / `ControllerRight` (see "Left out").
- Each class also has a value view (`View()`, `Snapshot()`). The per-frame contracts state
  each object's whole new state as a pure function of its old view.

## Model

| member | source | states |
|---|---|---|
| Framework.ButtonSink.SetButtonState | Core/HVRHandsSimulator.cs:208 | every publication is appended to the log, in call order |
| Framework.Grabber.ForceRelease | Core/HVRHandsSimulator.cs:240 | a forced release is recorded as one more call; IsGrabbing may read anything afterwards |
| HandsCommon.SetState | Core/HVRHandsSimulator.cs:189-206 | Active becomes the input; JustActivated is raised exactly on an inactive-to-active move and JustDeactivated exactly on an active-to-inactive move; a raised flag stays raised; an input equal to Active changes nothing |
| HandsCommon.HandsResolution | Core/HVRHandsSimulator.cs:335-393 | resolution succeeds iff auto-resolution is off or there are exactly 2 controllers, a camera and exactly 2 grabbers; the first failing check, in that order, names the missing component |
| HandsCommon.LastInSlot | Core/HVRHandsSimulator.cs:357-363 | the item a slot-assigning foreach leaves in a slot is the last one of that slot's side, and no later item goes to that slot; no item at all leaves the slot untouched |
| HandsCommon.OnePerSideFillsBothSlots | Core/HVRHandsSimulator.cs:357-363 | with one Left and one other item, each slot receives a different item of its own side |
| HandsCommon.SameSideLeavesOtherSlot | Core/HVRHandsSimulator.cs:381-387 | two items of the same side both go to one slot, the second overwriting the first, and the other slot is never assigned |
| HandsCommon.SlotStep | Core/HVRHandsSimulator.cs:357-363 | one more iteration of the foreach moves the slot exactly when the next item is of its side |
| HandsCommon.Resolve | Core/HVRHandsSimulator.cs:335-393 | with auto-resolution off or the wrong number of controllers nothing is assigned; pose drivers are disabled and the camera is cached only past the controller check; the input manager's controllers are taken only when every check passes; a later failing check keeps what earlier steps assigned |
| HandsCommon.ResolveFillsEachSide | Core/HVRHandsSimulator.cs:335-393 | on a rig with one controller and one grabber per side, every target and grabber slot ends non-null and holding its own side |
| HandsCommon.SameSideGrabbersLeaveSlot | Core/HVRHandsSimulator.cs:373-387 | two Left grabbers pass the count check and resolution succeeds, yet the right grabber slot keeps its old value |
| HandsCommon.GrabberCheck | Core/HVRHandsSimulator.cs:137-159 | a frame stops in the left block iff the left hand is held with a null grabber; it stops in the right block iff the left block completed and the right hand is held with a null grabber; it completes iff every held hand has a grabber |
| HandsCommon.FrameCheck | Core/HVRHandsSimulator.cs:131-159 | a frame throws in the hand motion iff a held hand's controller target is null, or the camera is missing while held hands move without rotating; past the motion it stops in a hand's block as GrabberCheck says; it completes iff neither happens; the same order holds at Simulator/HVRHandsSimulator.cs:104-132 |
| HandsCommon.SkippedResolutionFramesThrow | Core/HVRHandsSimulator.cs:131-135 | with auto-resolution off, a fresh component's frame throws in the hand motion whenever a hand is held |
| HandsCommon.ResolvedRigMovesHands | Core/HVRHandsSimulator.cs:357-367 | with one tracked controller per side, a camera and two grabbers, the hand motion of a frame never throws, whatever is held |
| HandsCommon.HandsStart | Core/HVRHandsSimulator.cs:93-104 | Start disables the component iff resolution failed or the platform is mobile; otherwise it stops on a null reference iff a controller target is null |
| HandsCommon.SkippedResolutionCannotStart | Core/HVRHandsSimulator.cs:326-338 | with auto-resolution off, a fresh component off mobile always stops on a null reference in SetHandsInitialPosition |
| HandsCommon.SameSideControllersCannotStart | Core/HVRHandsSimulator.cs:326-363 | two tracked controllers of one side pass resolution, yet a fresh component stops on a null reference in SetHandsInitialPosition |
| HandsCommon.OnePerSideStarts | Core/HVRHandsSimulator.cs:326-363 | with one tracked controller per side, a camera and two grabbers, Start gets past SetHandsInitialPosition off mobile, whatever the slots held before |
| HandsCommon.HandsDependencies.constructor | Core/HVRHandsSimulator.cs:84-91 | a fresh component has every dependency slot null and nothing disabled or cached |
| HandsCommon.HandsDependencies.ResolveDependencies | Core/HVRHandsSimulator.cs:335-393 | the result is HandsResolution's verdict and the fields end as Resolve says; the same body is Simulator/HVRHandsSimulator.cs:273-331 |
| HandsCommon.HandsDependencies.AssignControllerTargets | Core/HVRHandsSimulator.cs:357-363 | the loop leaves each target slot as Slot (the last controller of its side, or the old value) |
| HandsCommon.HandsDependencies.HandMotion | Core/HVRHandsSimulator.cs:131-135 | MoveHands runs when a hand is held and the hands are not rotating, RotateHands when they are; the frame's motion throws exactly as MotionThrows says; the same code is Simulator/HVRHandsSimulator.cs:104-108 |
| HandsCommon.HandsDependencies.MoveHands | Core/HVRHandsSimulator.cs:256-267 | throws iff a held hand's controller target is null or the camera is missing |
| HandsCommon.HandsDependencies.RotateHands | Core/HVRHandsSimulator.cs:269-280 | throws iff a held hand's controller target is null; the camera is not read |
| HandsCommon.HandsDependencies.AssignHandGrabbers | Core/HVRHandsSimulator.cs:381-387 | the loop leaves each grabber slot as Slot (the last grabber of its side, or the old value) |
| CoreHands.Cleared | Core/HVRHandsSimulator.cs:211-215 | both edge flags cleared, Active and Value kept; a record with clear flags is unchanged |
| CoreHands.ResetOnActivate | Core/HVRHandsSimulator.cs:217-224 | the flags end clear; a record whose flags were already clear is neither changed nor published; otherwise the cleared record is published once |
| CoreHands.PressOutcome | Core/HVRHandsSimulator.cs:163-175 | an input equal to the stored float changes and publishes nothing; otherwise the stored float and Value become the input as 1 or 0, the record moves by SetState and is published once; from clear flags no record ends with both flags; from a synced record with clear flags exactly this input's edge is flagged |
| CoreHands.ClickOutcome | Core/HVRHandsSimulator.cs:177-187 | the same as PressOutcome over the stored bool |
| CoreHands.HandGrabbing | Core/HVRHandsSimulator.cs:227-254 | ForceRelease is called iff the grip was just activated while grabbing something not releasable, and grabbing stays allowed exactly when it is not; CanRelease is cleared when the grip is active while grabbing; IsGrabbing is kept unless ForceRelease is called, and is then what the framework's release left |
| CoreHands.ResetAll | Core/HVRHandsSimulator.cs:117-129 | all five records of a controller end with clear flags, Active, Value and stored inputs kept; a controller with clear flags publishes nothing; at most five publications |
| CoreHands.SimulateAll | Core/HVRHandsSimulator.cs:137-159 | on records with clear flags no record ends with both flags; on a synced controller with clear flags every record stays synced and flags exactly its own input's edge |
| CoreHands.SimulateIfHeld | Core/HVRHandsSimulator.cs:137-159 | a hand not held keeps its controller and publishes nothing; a held hand publishes at most five records, and on a synced controller with clear flags every record stays synced and flags exactly its own input's edge |
| CoreHands.ControllerFrame | Core/HVRHandsSimulator.cs:115-160 | after one frame no record of either controller has both flags, whatever it held before; a hand not held ends with clear flags and its Active and stored values kept |
| CoreHands.HeldFrameTracksInput | Core/HVRHandsSimulator.cs:115-160 | one frame of a held hand leaves a synced controller synced, each record flagging exactly its own input's edge, even with stale flags from before |
| CoreHands.HeldPressRunTracksInput | Core/HVRHandsSimulator.cs:115-175 | over any non-empty run of held frames from a synced start, the Grip record stays synced, is active iff the last input was pressed, and flags exactly the last frame's edge |
| CoreHands.HandsSimulator.constructor | Core/HVRHandsSimulator.cs:84-91 | a fresh component is enabled with all dependency slots empty |
| CoreHands.HandsSimulator.Start | Core/HVRHandsSimulator.cs:93-104 | resolution always runs; the component is disabled iff resolution failed or the platform is mobile; otherwise Start stops on a null reference iff a controller target is null when SetHandsInitialPosition (Core/HVRHandsSimulator.cs:326-332) reads it |
| CoreHands.HandsSimulator.SetButtonState | Core/HVRHandsSimulator.cs:189-209 | the record moves as SetState says and is published under the hand side it was called with |
| CoreHands.HandsSimulator.ResetButtonSate | Core/HVRHandsSimulator.cs:211-215 | the record ends as Cleared |
| CoreHands.HandsSimulator.ResetButtonOnActivate | Core/HVRHandsSimulator.cs:217-224 | the record and the log end as ResetOnActivate says |
| CoreHands.HandsSimulator.SimulateButtonPress | Core/HVRHandsSimulator.cs:163-175 | the record, the stored float and the log end as PressOutcome says |
| CoreHands.HandsSimulator.SimulateButtonClick | Core/HVRHandsSimulator.cs:177-187 | the record, the stored bool and the log end as ClickOutcome says |
| CoreHands.HandsSimulator.HandleHandGrabbing | Core/HVRHandsSimulator.cs:227-254 | the grabber ends as HandGrabbing says, with one more ForceRelease exactly when it releases |
| CoreHands.HandsSimulator.HandleHandsInput | Core/HVRHandsSimulator.cs:115-160 | the outcome is FrameCheck's; all ten records are reset, left then right, before anything else; a throw in the hand motion then ends the frame with both grabbers untouched; otherwise a held hand's records are simulated and its grabber handled against the new grip record; a hand not held is only reset and its grabber untouched; the log holds the left resets, right resets, left and right simulations in that order; a held hand with a null grabber slot throws after its simulations, and a throw in the left block skips the right block |
| CoreHands.HandsSimulator.ResetHands | Core/HVRHandsSimulator.cs:117-129 | both controllers end as ResetAll says, the left controller's publications first |
| CoreHands.HandsSimulator.HeldHands | Core/HVRHandsSimulator.cs:137-159 | each held hand is simulated and then has its grab handled; a hand not held is untouched; the outcome names the first held hand, left before right, whose grabber slot is null, and the right hand is not simulated after the left one threw |
| CoreHands.HandsSimulator.ResetHand | Core/HVRHandsSimulator.cs:117-121 | one controller ends as ResetAll says, publications in button order |
| CoreHands.HandsSimulator.HeldHand | Core/HVRHandsSimulator.cs:137-146 | a held hand's controller ends as SimulateAll says and its grabber as HandGrabbing says on the simulated grip; a held hand with a null grabber is simulated and then throws; a hand not held changes nothing |
| CoreHands.HandsSimulator.SimulateHand | Core/HVRHandsSimulator.cs:139-144 | the controller and log end as SimulateAll says |
| CoreHands.HandsSimulator.SimulatePresses | Core/HVRHandsSimulator.cs:139-140 | Grip then Trigger move as PressOutcome says; the other fields are kept |
| CoreHands.HandsSimulator.SimulateClicks | Core/HVRHandsSimulator.cs:142-144 | Primary, Secondary and Joystick move as ClickOutcome says; the other fields are kept |
| SimulatorHands.Zeroed | Simulator/HVRHandsSimulator.cs:157-162 | both edge flags cleared and Value 0, Active kept |
| SimulatorHands.Simulated | Simulator/HVRHandsSimulator.cs:164-178 | whatever flags the record held, it ends flagging exactly the edge from its Active to the input (so never both flags), Value the input as 1 or 0, and synced with the stored value |
| SimulatorHands.SimulateAll | Simulator/HVRHandsSimulator.cs:114-119 | every record of a held hand flags exactly its own input's edge and ends synced, with no sync needed beforehand |
| SimulatorHands.SimulateIfHeld | Simulator/HVRHandsSimulator.cs:110-132 | a hand not held keeps every record, stale flags included, and publishes nothing; a held hand publishes five records |
| SimulatorHands.SimulateAllPublishesUnderLeft | Simulator/HVRHandsSimulator.cs:154 | a held hand publishes all five records every frame, changed or not, in button order, all under the left hand |
| SimulatorHands.Grabbing | Simulator/HVRHandsSimulator.cs:180-196 | while grabbing, ForceRelease is called and the grabber ends releasable exactly when the grip was just activated; a grabber not grabbing is unchanged; AllowGrabbing is never touched; IsGrabbing is kept unless ForceRelease is called, and is then what the framework's release left |
| SimulatorHands.HeldRunTracksInput | Simulator/HVRHandsSimulator.cs:110-132 | over any non-empty run of held frames, from any record, the record is active iff the last input was pressed and flags exactly the last frame's edge |
| SimulatorHands.HeldInputs | Simulator/HVRHandsSimulator.cs:110-132 | the inputs of the held frames: as many as the frames exactly when every frame is held, and then each frame's input in order; none exactly when no frame is held; each one the input of some held frame |
| SimulatorHands.HeldInputsAppend | Simulator/HVRHandsSimulator.cs:110-132 | the held inputs of two runs of frames are the first run's followed by the second's, so frame order is kept |
| SimulatorHands.UnheldFramesLeaveNoTrace | Simulator/HVRHandsSimulator.cs:110-132 | over any mix of frames with and without the select key, a record is what the held frames alone make of it: frames without the key leave no trace, so nothing in the simulator clears stale edge flags during them |
| SimulatorHands.ReleaseFollowsGripOneFrameLate | Simulator/HVRHandsSimulator.cs:110-119 | a grip pressed while grabbing forces no release in its own frame, and forces it in the next held frame |
| SimulatorHands.HandsSimulator.constructor | Simulator/HVRHandsSimulator.cs:72-80 | a fresh component is enabled with all dependency slots empty |
| SimulatorHands.HandsSimulator.Start | Simulator/HVRHandsSimulator.cs:82-91 | resolution always runs; the component is disabled iff resolution failed or the platform is mobile; otherwise Start stops on a null reference iff a controller target is null when SetHandsInitialPosition (Simulator/HVRHandsSimulator.cs:264-270) reads it |
| SimulatorHands.HandsSimulator.SetButtonState | Simulator/HVRHandsSimulator.cs:135-155 | the record moves as SetState says and is published under the left hand whatever controller it belongs to |
| SimulatorHands.HandsSimulator.ResetButton | Simulator/HVRHandsSimulator.cs:157-162 | the record ends as Zeroed |
| SimulatorHands.HandsSimulator.SimulatePressButton | Simulator/HVRHandsSimulator.cs:164-170 | the record ends as Simulated says, the stored float is the input as 1 or 0, and exactly one publication is appended, even for an unchanged input |
| SimulatorHands.HandsSimulator.SimulateTapButton | Simulator/HVRHandsSimulator.cs:172-178 | the same over the stored bool |
| SimulatorHands.HandsSimulator.HandleGrabbing | Simulator/HVRHandsSimulator.cs:180-196 | the grabber ends as Grabbing says, with one more ForceRelease exactly when it releases |
| SimulatorHands.HandsSimulator.ProcessHandsInput | Simulator/HVRHandsSimulator.cs:102-133 | the outcome is FrameCheck's; a throw in the hand motion comes first and changes nothing; otherwise a held hand has its grab handled against the grip record from before this frame, then all five records simulated; a hand not held keeps its records and grabber; the log holds the left simulations, then the right ones; a held hand with a null grabber slot throws before any of its simulations, and a throw in the left block skips the right block |
| SimulatorHands.HandsSimulator.HeldHands | Simulator/HVRHandsSimulator.cs:110-132 | each held hand has its grab handled and is then simulated; a hand not held is untouched; the outcome names the first held hand, left before right, whose grabber slot is null, and nothing of the right hand changes after the left one threw |
| SimulatorHands.HandsSimulator.HeldHand | Simulator/HVRHandsSimulator.cs:110-120 | a held hand's grabber ends as Grabbing says on the old grip record and its controller as SimulateAll says; a held hand with a null grabber throws before changing anything; a hand not held changes nothing |
| SimulatorHands.HandsSimulator.SimulateHand | Simulator/HVRHandsSimulator.cs:114-119 | the controller and log end as SimulateAll says |
| SimulatorHands.HandsSimulator.SimulatePresses | Simulator/HVRHandsSimulator.cs:114-115 | Grip then Trigger move as Simulated says and are published under the left hand; the other fields are kept |
| SimulatorHands.HandsSimulator.SimulateTaps | Simulator/HVRHandsSimulator.cs:117-119 | Primary, Secondary and Joystick move as Simulated says and are published under the left hand; the other fields are kept |
| SimulatorBody.Latch | Simulator/HVRBodySimulator.cs:48-53 | a release edge turns the latch off even with a press in the same frame; a press alone turns it on; no edge keeps it |
| SimulatorBody.TurningAfterAppend | Simulator/HVRBodySimulator.cs:48-56 | running two spans of frames one after the other is running their concatenation |
| SimulatorBody.TurningFollowsLastEdge | Simulator/HVRBodySimulator.cs:48-56 | after any run of frames the latch is the verdict of the latest frame with an edge, or its initial value when no frame had one |
| SimulatorBody.BodyResolution | Simulator/HVRBodySimulator.cs:76-96 | resolution succeeds iff auto-resolution is off or both components are found; a missing player controller is reported before the player inputs are looked at |
| SimulatorBody.BodySimulator.constructor | Simulator/HVRBodySimulator.cs:12-24 | a fresh component is enabled, not turning, with the cursor visible and no components cached |
| SimulatorBody.BodySimulator.Start | Simulator/HVRBodySimulator.cs:38-47 | the component is disabled iff resolution fails; otherwise UseWASD takes the canMove setting, except that a skipped resolution leaves the player inputs null and Start stops on a null reference; with auto-resolution on a successful start always reaches UseWASD; both slots end as ResolveDependencies leaves them on every outcome, and no player inputs object is written except the one that takes canMove on a successful start |
| SimulatorBody.BodySimulator.Update | Simulator/HVRBodySimulator.cs:48-56 | the latch moves as Latch says and the cursor is visible exactly when not turning |
| SimulatorBody.BodySimulator.FixedUpdate | Simulator/HVRBodySimulator.cs:58-64 | TurnRig runs exactly when the latch is set, turning the rig once unless the player controller is null, in which case it stops on a null reference |
| SimulatorBody.BodySimulator.TurnRig | Simulator/HVRBodySimulator.cs:66-73 | one rig turn is recorded, or a null player controller stops it on a null reference before anything turns |
| SimulatorBody.BodySimulator.ResolveDependencies | Simulator/HVRBodySimulator.cs:76-96 | the result is BodyResolution's verdict; with auto-resolution off nothing is assigned; otherwise the controller slot takes the lookup and the inputs slot is assigned only once a controller was found |

## Left out

- The transforms written by hand motion and rotation (`MoveHands`, `RotateHands`), `TurnRig`'s
  rotation, `SetHandsInitialPosition`, `_currentMovementSpeed`, and every other
  `Vector3`/`Quaternion` computation: these are float transform math. Only the fact that
  `TurnRig` turns the rig is kept, and the null references that `MoveHands`, `RotateHands`,
  `SetHandsInitialPosition` and `TurnRig` can throw.
- Engine input reads (`UsingLeftHand`, `GripPressed`, `HasTurningStarted`, `Application.isMobilePlatform`, …)
  are parameters of the per-frame methods.
- `Update` in both hands simulators is not modelled. Its enabling and disabling of the input
  manager's tracked controllers is a framework side effect. `UpdateFingerCurls` delegates to
  the framework's `FingerSettings.Evaluate`.
- While a hand is not held, `Update` re-enables the framework's controller for it, and that
  controller is `ControllerLeft` / `ControllerRight` itself. The framework may then rewrite the
  button records between frames. The model covers only the simulators' own writes, so
  `UnheldFramesLeaveNoTrace` and `HeldPressRunTracksInput` describe runs in which nothing else
  writes the records.
- `HVRController.SetButtonState` and `HVRHandGrabber.ForceRelease` belong to the closed
  framework. The sink keeps every publication, and ForceRelease is a counter.
- Rig lookups are parameters (`RigLookup`, `BodyLookup`). The camera is a found flag, and the
  tracked pose drivers are one flag, "disabled", set when the first controller has one.
  `Debug.Log` and `DependencyError` only log.
- Framework.Grabber.ForceRelease: what `IsGrabbing` reads after the call is left open, and the
  call is taken to leave `CanRelease` and `AllowGrabbing` alone. So `HandGrabbing` and `Grabbing`
  state `IsGrabbing` after a forced release only as that open value.
- Aliasing: both hands simulators require two distinct controllers. They also require two
  present grabbers to be distinct when both hands are held. A null grabber slot is modelled:
  it is the exception outcome above. The frame methods dereference both controllers
  (the later revision resets both; the earlier one reads both in `UpdateFingerCurls` the same
  frame).
- CoreHands.HandsSimulator.HandleHandsInput, SimulatorHands.HandsSimulator.ProcessHandsInput:
  both require `ControllerLeft` and `ControllerRight` to be set. Only a completed automatic
  resolution assigns them, from the input manager. With auto-resolution off nothing in these
  files assigns them, and if they are left unset every `Update` throws. The later revision
  throws at its first reset (Core/HVRHandsSimulator.cs:117). In the earlier revision the
  skipped resolution also leaves the controller targets null, so a frame with a hand held
  throws in `MoveHands` or `RotateHands` (Simulator/HVRHandsSimulator.cs:203-217, the
  `MotionNullReference` outcome), and a frame with no hand held throws in `UpdateFingerCurls`
  (Simulator/HVRHandsSimulator.cs:222). The throw on the unset controllers is not modelled.
- An unassigned `Rig`: every rig lookup is a parameter (`RigLookup`, `BodyLookup`), so the
  model assumes a rig is assigned. With auto-resolution on and no `Rig`, `ResolveDependencies`
  throws at its first lookup, inside `Start` and before any check
  (Core/HVRHandsSimulator.cs:340, Simulator/HVRHandsSimulator.cs:278,
  Simulator/HVRBodySimulator.cs:81).
- `Value`, `Grip` and `Trigger` are floats in the source but `real` here. The simulators
  themselves only write 0 and 1 to them, so no rounding is involved in the modelled writes.
- `Core/HVRBodySimulator.cs`: its turning flag only copies the current button state, and the
  rest is float rotation. `Simulator/HVRHexabodySimulator.cs` inherits the body latch and only
  changes float rotation targets and lookups. `Core/HVRSimulatorControlsGUI.cs` and
  `OnDrawGizmos` only draw.
- The Unity lifecycle (Start before Update, `enabled` stopping Update) is not modelled. Each
  method is verified on its own.
