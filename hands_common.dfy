/** What the two revisions of the hands simulator share: the per-frame input, the record
    update inside SetButtonState, and the dependency-resolution decisions. */
module HandsCommon {
  import opened Framework
  import opened Lifecycle

  /** The keyboard and mouse state one Update samples. Whether the hands are being rotated
      decides which of MoveHands and RotateHands runs; the mouse deltas and the slow-down key
      feed only the float hand motion, which is not modelled. */
  datatype HandsInput = HandsInput(
    usingLeftHand: bool, usingRightHand: bool, rotatingHands: bool,
    gripPressed: bool, triggerPressed: bool,
    primaryButtonStarted: bool, secondaryButtonStarted: bool, joystickButtonStarted: bool)

  /** No record of the view is both just activated and just deactivated. Edges implies it;
      it is stated on its own where an operation does not flag exactly one frame's edge. */
  predicate NoDoubleEdge(s: ButtonState)
  {
    !(s.justActivated && s.justDeactivated)
  }

  predicate ControllerNoDoubleEdge(c: ControllerView)
  {
    && NoDoubleEdge(c.gripState) && NoDoubleEdge(c.triggerState) && NoDoubleEdge(c.primaryState)
    && NoDoubleEdge(c.secondaryState) && NoDoubleEdge(c.joystickState)
  }

  /** The record update SetButtonState makes before publishing (identical in both revisions):
      Active follows the input, and an edge flag is raised only on the matching transition;
      a flag already raised stays raised. */
  function SetState(s: ButtonState, pressed: bool): (r: ButtonState)
    ensures r.active == pressed && r.value == s.value
    ensures r.justActivated <==> s.justActivated || (pressed && !s.active)
    ensures r.justDeactivated <==> s.justDeactivated || (!pressed && s.active)
    ensures s.active == pressed ==> r == s
  {
    if pressed then
      if !s.active then s.(justActivated := true, active := true) else s
    else
      if s.active then s.(active := false, justDeactivated := true) else s
  }

  /** The record moved from `before` by one input sample: Active is the input, and
      exactly the edge of this frame is flagged. */
  predicate Edges(before: ButtonState, after: ButtonState, pressed: bool)
  {
    && after.active == pressed
    && (after.justActivated <==> pressed && !before.active)
    && (after.justDeactivated <==> !pressed && before.active)
  }

  /** Every edge flag of the view is clear. */
  predicate Quiet(c: ControllerView)
  {
    && !c.gripState.justActivated && !c.gripState.justDeactivated
    && !c.triggerState.justActivated && !c.triggerState.justDeactivated
    && !c.primaryState.justActivated && !c.primaryState.justDeactivated
    && !c.secondaryState.justActivated && !c.secondaryState.justDeactivated
    && !c.joystickState.justActivated && !c.joystickState.justDeactivated
  }

  /** Each record of `after` is the record of `before` moved by its own input. */
  predicate ControllerEdges(before: ControllerView, after: ControllerView, input: HandsInput)
  {
    && Edges(before.gripState, after.gripState, input.gripPressed)
    && Edges(before.triggerState, after.triggerState, input.triggerPressed)
    && Edges(before.primaryState, after.primaryState, input.primaryButtonStarted)
    && Edges(before.secondaryState, after.secondaryState, input.secondaryButtonStarted)
    && Edges(before.joystickState, after.joystickState, input.joystickButtonStarted)
  }

  /** The stored float agrees with the record: it is Active as 1 or 0, and so is Value. */
  predicate PressSynced(s: ButtonState, stored: real)
  {
    stored == ToInt16(s.active) && s.value == stored
  }

  /** The stored bool agrees with the record: it is Active, and Value is it as 1 or 0. */
  predicate ClickSynced(s: ButtonState, stored: bool)
  {
    stored == s.active && s.value == ToInt16(stored)
  }

  /** The controller's stored input values agree with its records: each stored value is the
      record's Active (as 1 or 0 for the floats) and each record's Value is that number. */
  predicate Synced(c: ControllerView)
  {
    && PressSynced(c.gripState, c.grip) && PressSynced(c.triggerState, c.trigger)
    && ClickSynced(c.primaryState, c.primaryButton) && ClickSynced(c.secondaryState, c.secondaryButton)
    && ClickSynced(c.joystickState, c.joystickClicked)
  }

  /** A controller's records after some calls, with what those calls published, in order. */
  datatype ControllerStep = ControllerStep(view: ControllerView, published: seq<Publication>)

  /** The grabber fields after a grab-handling call, and whether it called ForceRelease. */
  datatype GrabStep = GrabStep(grabber: GrabberView, forceRelease: bool)

  /** How one frame's button and grab handling ends: completed, stopped by a
      NullReferenceException in MoveHands or RotateHands, or stopped by the one of a held hand
      whose grabber slot is null. */
  datatype FrameOutcome = Completed | MotionNullReference | GrabberMissing(side: HandSide)

  /** Both hands revisions handle the left hand's block before the right hand's, and a held
      hand whose grabber slot is null throws inside its block; the exception ends the frame,
      so the right hand's block does not run after the left one threw. */
  function GrabberCheck(input: HandsInput, leftFound: bool, rightFound: bool): (r: FrameOutcome)
    ensures r == GrabberMissing(Left) <==> input.usingLeftHand && !leftFound
    ensures r == GrabberMissing(Right) <==> (input.usingLeftHand ==> leftFound) && input.usingRightHand && !rightFound
    ensures r == Completed <==> (input.usingLeftHand ==> leftFound) && (input.usingRightHand ==> rightFound)
  {
    if input.usingLeftHand && !leftFound then GrabberMissing(Left)
    else if input.usingRightHand && !rightFound then GrabberMissing(Right)
    else Completed
  }

  /** The hands simulator's checks, in their order: two tracked controllers, a camera,
      two hand grabbers. The first one that fails decides the result. */
  function HandsResolution(autoResolve: bool, controllers: nat, cameraFound: bool, grabbers: nat): (r: Resolution)
    ensures r.Succeeded() <==> !autoResolve || (controllers == 2 && cameraFound && grabbers == 2)
    ensures r == AutoResolveOff <==> !autoResolve
    ensures autoResolve && controllers != 2 ==> r == Missing(TrackedControllers)
    ensures r == Missing(Camera) <==> autoResolve && controllers == 2 && !cameraFound
    ensures r == Missing(HandGrabbers) <==> autoResolve && controllers == 2 && cameraFound && grabbers != 2
  {
    if !autoResolve then AutoResolveOff
    else if controllers != 2 then Missing(TrackedControllers)
    else if !cameraFound then Missing(Camera)
    else if grabbers != 2 then Missing(HandGrabbers)
    else Resolved
  }

  /** The hand side of each item, in order. */
  function Sides<T>(items: seq<T>, sideOf: T -> HandSide): (r: seq<HandSide>)
    ensures |r| == |items| && forall i :: 0 <= i < |items| ==> r[i] == sideOf(items[i])
  {
    seq(|items|, i requires 0 <= i < |items| => sideOf(items[i]))
  }

  const TrackedSide: TrackedController -> HandSide := (c: TrackedController) => c.handSide
  const GrabberSide: Grabber -> HandSide := (g: Grabber) => g.handSide

  /** Whether a foreach over components puts an item of this side into the left slot:
      `Left` goes left, every other side goes right. */
  predicate GoesLeft(side: HandSide)
  {
    side == Left
  }

  /** The index of the item a slot-assigning foreach loop leaves in the left slot
      (toLeft) or in the right slot (!toLeft): the last item that goes there, or None
      when no item does and the slot keeps its earlier value. */
  function LastInSlot(sides: seq<HandSide>, toLeft: bool): (r: Option<nat>)
    ensures r.Some? ==> r.value < |sides| && GoesLeft(sides[r.value]) == toLeft
    ensures r.Some? ==> forall j :: r.value < j < |sides| ==> GoesLeft(sides[j]) != toLeft
    ensures r.None? <==> forall j :: 0 <= j < |sides| ==> GoesLeft(sides[j]) != toLeft
  {
    if |sides| == 0 then None
    else if GoesLeft(sides[|sides| - 1]) == toLeft then Some(|sides| - 1)
    else LastInSlot(sides[..|sides| - 1], toLeft)
  }

  /** The value a slot holds after the loop has visited the first n items: the last of them
      that goes to this slot, or the slot's value from before the loop. */
  function Slot<T>(items: seq<T>, sides: seq<HandSide>, n: nat, toLeft: bool, previous: T): T
    requires n <= |items| == |sides|
  {
    match LastInSlot(sides[..n], toLeft)
    case Some(k) => items[k]
    case None => previous
  }

  /** With exactly two items, one per side, each slot gets the item of its own side. */
  lemma OnePerSideFillsBothSlots(sides: seq<HandSide>)
    requires |sides| == 2 && sides[0] != sides[1]
    ensures LastInSlot(sides, true).Some? && LastInSlot(sides, false).Some?
    ensures sides[LastInSlot(sides, true).value] == Left && sides[LastInSlot(sides, false).value] == Right
    ensures LastInSlot(sides, true).value != LastInSlot(sides, false).value
  {
    if sides[1] == Left {
      assert !GoesLeft(sides[0]);
    } else {
      assert GoesLeft(sides[0]);
    }
  }

  /** With exactly two items of the same side, the count check still passes, but only one
      slot is assigned (to the second item) and the other keeps its earlier value. */
  lemma SameSideLeavesOtherSlot(sides: seq<HandSide>)
    requires |sides| == 2 && sides[0] == sides[1]
    ensures LastInSlot(sides, GoesLeft(sides[0])) == Some(1)
    ensures LastInSlot(sides, !GoesLeft(sides[0])) == None
  {
  }

  /** One item more: the slot takes that item when it goes there, and is otherwise as before. */
  lemma SlotStep<T>(items: seq<T>, sides: seq<HandSide>, n: nat, toLeft: bool, previous: T)
    requires n < |items| == |sides|
    ensures Slot(items, sides, n + 1, toLeft, previous)
            == if GoesLeft(sides[n]) == toLeft then items[n] else Slot(items, sides, n, toLeft, previous)
  {
    assert sides[..n + 1][..n] == sides[..n];
  }

  /** What GetComponentsInChildren and GetComponentInChildren find under the rig: the tracked
      controllers, whether the first of them carries a TrackedPoseDriver, whether an HVRCamera
      is present, and the hand grabbers. */
  datatype RigLookup = RigLookup(
    trackedControllers: seq<TrackedController>, poseDriverOnFirst: bool,
    cameraFound: bool, handGrabbers: seq<Grabber>)

  /** The dependency fields of a hands simulator, as one value. */
  datatype Dependencies = Dependencies(
    controllerTargetLeft: TrackedController?, controllerTargetRight: TrackedController?,
    poseDriversDisabled: bool, camera: bool,
    handGrabberLeft: Grabber?, handGrabberRight: Grabber?,
    controllerLeft: Controller?, controllerRight: Controller?)

  /** The dependency fields after ResolveDependencies. A check that fails stops the
      resolution, but what the earlier steps assigned stays assigned. */
  function Resolve(autoResolve: bool, rig: RigLookup, inputLeft: Controller, inputRight: Controller, d: Dependencies): (r: Dependencies)
    ensures !autoResolve || |rig.trackedControllers| != 2 ==> r == d
    ensures r.poseDriversDisabled <==> d.poseDriversDisabled || (autoResolve && |rig.trackedControllers| == 2 && rig.poseDriverOnFirst)
    ensures r.camera <==> d.camera || (autoResolve && |rig.trackedControllers| == 2 && rig.cameraFound)
    ensures HandsResolution(autoResolve, |rig.trackedControllers|, rig.cameraFound, |rig.handGrabbers|) == Resolved ==>
      r.controllerLeft == inputLeft && r.controllerRight == inputRight
    ensures HandsResolution(autoResolve, |rig.trackedControllers|, rig.cameraFound, |rig.handGrabbers|) != Resolved ==>
      && r.handGrabberLeft == d.handGrabberLeft && r.handGrabberRight == d.handGrabberRight
      && r.controllerLeft == d.controllerLeft && r.controllerRight == d.controllerRight
  {
    var controllers := rig.trackedControllers;
    var grabbers := rig.handGrabbers;
    if !autoResolve || |controllers| != 2 then d
    else
      var d1 := d.(
        poseDriversDisabled := d.poseDriversDisabled || rig.poseDriverOnFirst,
        controllerTargetLeft := Slot(controllers, Sides(controllers, TrackedSide), 2, true, d.controllerTargetLeft),
        controllerTargetRight := Slot(controllers, Sides(controllers, TrackedSide), 2, false, d.controllerTargetRight));
      if !rig.cameraFound then d1
      else if |grabbers| != 2 then d1.(camera := true)
      else d1.(
        camera := true,
        handGrabberLeft := Slot(grabbers, Sides(grabbers, GrabberSide), 2, true, d.handGrabberLeft),
        handGrabberRight := Slot(grabbers, Sides(grabbers, GrabberSide), 2, false, d.handGrabberRight),
        controllerLeft := inputLeft, controllerRight := inputRight)
  }

  /** On a rig with one tracked controller and one grabber per side, a successful resolution
      puts each side's controller and grabber into that side's slot. */
  lemma ResolveFillsEachSide(rig: RigLookup, inputLeft: Controller, inputRight: Controller, d: Dependencies)
    requires |rig.trackedControllers| == 2 && rig.cameraFound && |rig.handGrabbers| == 2
    requires rig.trackedControllers[0].handSide != rig.trackedControllers[1].handSide
    requires rig.handGrabbers[0].handSide != rig.handGrabbers[1].handSide
    ensures var r := Resolve(true, rig, inputLeft, inputRight, d);
      && r.controllerTargetLeft != null && r.controllerTargetLeft.handSide == Left
      && r.controllerTargetRight != null && r.controllerTargetRight.handSide == Right
      && r.handGrabberLeft != null && r.handGrabberLeft.handSide == Left
      && r.handGrabberRight != null && r.handGrabberRight.handSide == Right
  {
    OnePerSideFillsBothSlots(Sides(rig.trackedControllers, TrackedSide));
    OnePerSideFillsBothSlots(Sides(rig.handGrabbers, GrabberSide));
  }

  /** Two grabbers of the same side pass the count check, yet only that side's slot is
      assigned: the other grabber slot keeps whatever it held before, null on a fresh component. */
  lemma SameSideGrabbersLeaveSlot(rig: RigLookup, inputLeft: Controller, inputRight: Controller, d: Dependencies)
    requires |rig.trackedControllers| == 2 && rig.cameraFound && |rig.handGrabbers| == 2
    requires rig.handGrabbers[0].handSide == rig.handGrabbers[1].handSide == Left
    ensures var r := Resolve(true, rig, inputLeft, inputRight, d);
      && HandsResolution(true, 2, true, 2).Succeeded()
      && r.handGrabberLeft == rig.handGrabbers[1] && r.handGrabberRight == d.handGrabberRight
  {
    SameSideLeavesOtherSlot(Sides(rig.handGrabbers, GrabberSide));
  }

  /** The dependency fields of a component nothing has resolved yet: every slot null. */
  const NoDependencies := Dependencies(null, null, false, false, null, null, null, null)

  /** MoveHands and RotateHands, which both revisions run before the held-hand blocks, as far
      as they dereference the dependency slots: rotating, each held hand's controller target
      is rotated; otherwise, with a hand held, each held hand's target is moved along the
      camera's rotation. A null target of a held hand, or a missing camera while moving,
      throws. */
  predicate MotionThrows(input: HandsInput, d: Dependencies)
  {
    || (input.usingLeftHand && d.controllerTargetLeft == null)
    || (input.usingRightHand && d.controllerTargetRight == null)
    || (!input.rotatingHands && (input.usingLeftHand || input.usingRightHand) && !d.camera)
  }

  /** How a frame of either hands revision ends: the hand motion throws before any held-hand
      block runs; otherwise the held-hand blocks decide, as GrabberCheck says. */
  function FrameCheck(input: HandsInput, d: Dependencies): (r: FrameOutcome)
    ensures r == MotionNullReference <==> MotionThrows(input, d)
    ensures r == Completed <==>
      && !MotionThrows(input, d)
      && (input.usingLeftHand ==> d.handGrabberLeft != null)
      && (input.usingRightHand ==> d.handGrabberRight != null)
    ensures r == GrabberMissing(Left) <==> !MotionThrows(input, d) && input.usingLeftHand && d.handGrabberLeft == null
  {
    if MotionThrows(input, d) then MotionNullReference
    else GrabberCheck(input, d.handGrabberLeft != null, d.handGrabberRight != null)
  }

  /** With auto-resolution off a fresh component has no controller target, so every frame in
      which a hand is held throws in MoveHands or RotateHands. */
  lemma SkippedResolutionFramesThrow(rig: RigLookup, inputLeft: Controller, inputRight: Controller, input: HandsInput)
    requires input.usingLeftHand || input.usingRightHand
    ensures FrameCheck(input, Resolve(false, rig, inputLeft, inputRight, NoDependencies)) == MotionNullReference
  {
  }

  /** After a successful resolution on a rig with one tracked controller per side, the hand
      motion never throws, whatever the slots held before. */
  lemma ResolvedRigMovesHands(rig: RigLookup, inputLeft: Controller, inputRight: Controller, d: Dependencies, input: HandsInput)
    requires |rig.trackedControllers| == 2 && rig.cameraFound && |rig.handGrabbers| == 2
    requires rig.trackedControllers[0].handSide != rig.trackedControllers[1].handSide
    ensures !MotionThrows(input, Resolve(true, rig, inputLeft, inputRight, d))
  {
    OnePerSideFillsBothSlots(Sides(rig.trackedControllers, TrackedSide));
  }

  /** Start of either hands revision: disabled after a failed resolution or on a mobile
      platform; otherwise SetHandsInitialPosition reads both controller targets, and a null
      one throws. */
  function HandsStart(resolved: bool, isMobilePlatform: bool, d: Dependencies): (r: StartOutcome)
    ensures r == Disabled <==> !resolved || isMobilePlatform
    ensures r == NullReference <==>
      resolved && !isMobilePlatform && (d.controllerTargetLeft == null || d.controllerTargetRight == null)
  {
    if !resolved || isMobilePlatform then Disabled
    else if d.controllerTargetLeft == null || d.controllerTargetRight == null then NullReference
    else Started
  }

  /** With auto-resolution off nothing assigns the private controller targets, so a fresh
      component that is not on a mobile platform always stops on a null reference in Start. */
  lemma SkippedResolutionCannotStart(rig: RigLookup, inputLeft: Controller, inputRight: Controller)
    ensures var resolved := HandsResolution(false, |rig.trackedControllers|, rig.cameraFound, |rig.handGrabbers|).Succeeded();
            HandsStart(resolved, false, Resolve(false, rig, inputLeft, inputRight, NoDependencies)) == NullReference
  {
  }

  /** Two tracked controllers of the same side pass resolution, but one controller target of
      a fresh component stays null, so Start stops on a null reference. */
  lemma SameSideControllersCannotStart(rig: RigLookup, inputLeft: Controller, inputRight: Controller)
    requires |rig.trackedControllers| == 2 && rig.cameraFound && |rig.handGrabbers| == 2
    requires rig.trackedControllers[0].handSide == rig.trackedControllers[1].handSide
    ensures var resolved := HandsResolution(true, 2, true, 2).Succeeded();
            HandsStart(resolved, false, Resolve(true, rig, inputLeft, inputRight, NoDependencies)) == NullReference
  {
    SameSideLeavesOtherSlot(Sides(rig.trackedControllers, TrackedSide));
  }

  /** On a rig with one tracked controller per side, a camera and two grabbers, Start gets
      past SetHandsInitialPosition on any platform but a mobile one, whatever the slots held. */
  lemma OnePerSideStarts(rig: RigLookup, inputLeft: Controller, inputRight: Controller, d: Dependencies)
    requires |rig.trackedControllers| == 2 && rig.cameraFound && |rig.handGrabbers| == 2
    requires rig.trackedControllers[0].handSide != rig.trackedControllers[1].handSide
    ensures var resolved := HandsResolution(true, 2, true, 2).Succeeded();
            HandsStart(resolved, false, Resolve(true, rig, inputLeft, inputRight, d)) == Started
  {
    OnePerSideFillsBothSlots(Sides(rig.trackedControllers, TrackedSide));
  }

  /** The dependency fields both revisions of the hands simulator resolve, with the
      ResolveDependencies they share (the two revisions' bodies are identical). */
  class HandsDependencies {
    var controllerTargetLeft: TrackedController?
    var controllerTargetRight: TrackedController?
    var poseDriversDisabled: bool
    var camera: bool
    var handGrabberLeft: Grabber?
    var handGrabberRight: Grabber?
    var controllerLeft: Controller?
    var controllerRight: Controller?

    constructor ()
      ensures Snapshot() == NoDependencies
    {
      controllerTargetLeft, controllerTargetRight := null, null;
      poseDriversDisabled, camera := false, false;
      handGrabberLeft, handGrabberRight := null, null;
      controllerLeft, controllerRight := null, null;
    }

    function Snapshot(): Dependencies
      reads this
    {
      Dependencies(controllerTargetLeft, controllerTargetRight, poseDriversDisabled, camera,
                   handGrabberLeft, handGrabberRight, controllerLeft, controllerRight)
    }

    /** ResolveDependencies; the lookups under the rig and HVRInputManager's two controllers
        are parameters. Returns whether the simulator may run. */
    method ResolveDependencies(autoResolve: bool, rig: RigLookup, inputLeft: Controller, inputRight: Controller)
      returns (resolved: bool)
      modifies this
      ensures resolved == HandsResolution(autoResolve, |rig.trackedControllers|, rig.cameraFound, |rig.handGrabbers|).Succeeded()
      ensures Snapshot() == Resolve(autoResolve, rig, inputLeft, inputRight, old(Snapshot()))
    {
      if !autoResolve {
        return true;
      }
      var trackedControllers := rig.trackedControllers;
      if |trackedControllers| != 2 {
        return false;
      }
      if rig.poseDriverOnFirst {
        poseDriversDisabled := true;
      }
      AssignControllerTargets(trackedControllers);
      if rig.cameraFound {
        camera := true;
      } else {
        return false;
      }
      var handGrabbers := rig.handGrabbers;
      if |handGrabbers| != 2 {
        return false;
      }
      AssignHandGrabbers(handGrabbers);
      controllerLeft := inputLeft;
      controllerRight := inputRight;
      return true;
    }

    /** MoveHands then RotateHands, as HandleHandsInput and ProcessHandsInput call them: only
        one of the two runs in a frame. The float motion is not modelled; returns whether a
        null slot threw. */
    method HandMotion(input: HandsInput) returns (nullReference: bool)
      ensures nullReference <==> MotionThrows(input, Snapshot())
    {
      nullReference := false;
      if (input.usingLeftHand || input.usingRightHand) && !input.rotatingHands {
        nullReference := MoveHands(input);
        if nullReference {
          return;
        }
      }
      if input.rotatingHands {
        nullReference := RotateHands(input);
      }
    }

    /** MoveHands: each held hand's target is read, and moved along the camera's rotation. */
    method MoveHands(input: HandsInput) returns (nullReference: bool)
      ensures nullReference <==>
        || (input.usingLeftHand && (controllerTargetLeft == null || !camera))
        || (input.usingRightHand && (controllerTargetRight == null || !camera))
    {
      if input.usingLeftHand && (controllerTargetLeft == null || !camera) {
        return true;
      }
      if input.usingRightHand && (controllerTargetRight == null || !camera) {
        return true;
      }
      return false;
    }

    /** RotateHands: each held hand's target is rotated; the camera is not read. */
    method RotateHands(input: HandsInput) returns (nullReference: bool)
      ensures nullReference <==>
        || (input.usingLeftHand && controllerTargetLeft == null)
        || (input.usingRightHand && controllerTargetRight == null)
    {
      if input.usingLeftHand && controllerTargetLeft == null {
        return true;
      }
      if input.usingRightHand && controllerTargetRight == null {
        return true;
      }
      return false;
    }

    /** The first foreach of ResolveDependencies: a Left controller goes to the left target,
        any other to the right one; a later item overwrites an earlier one of its side. */
    method AssignControllerTargets(trackedControllers: seq<TrackedController>)
      modifies this`controllerTargetLeft, this`controllerTargetRight
      ensures var sides := Sides(trackedControllers, TrackedSide);
              && controllerTargetLeft == Slot(trackedControllers, sides, |trackedControllers|, true, old(controllerTargetLeft))
              && controllerTargetRight == Slot(trackedControllers, sides, |trackedControllers|, false, old(controllerTargetRight))
    {
      ghost var sides := Sides(trackedControllers, TrackedSide);
      var i := 0;
      while i < |trackedControllers|
        invariant 0 <= i <= |trackedControllers|
        invariant controllerTargetLeft == Slot(trackedControllers, sides, i, true, old(controllerTargetLeft))
        invariant controllerTargetRight == Slot(trackedControllers, sides, i, false, old(controllerTargetRight))
      {
        SlotStep(trackedControllers, sides, i, true, old(controllerTargetLeft));
        SlotStep(trackedControllers, sides, i, false, old(controllerTargetRight));
        if trackedControllers[i].handSide == Left {
          controllerTargetLeft := trackedControllers[i];
        } else {
          controllerTargetRight := trackedControllers[i];
        }
        i := i + 1;
      }
    }

    /** The second foreach of ResolveDependencies, over the hand grabbers. */
    method AssignHandGrabbers(handGrabbers: seq<Grabber>)
      modifies this`handGrabberLeft, this`handGrabberRight
      ensures var sides := Sides(handGrabbers, GrabberSide);
              && handGrabberLeft == Slot(handGrabbers, sides, |handGrabbers|, true, old(handGrabberLeft))
              && handGrabberRight == Slot(handGrabbers, sides, |handGrabbers|, false, old(handGrabberRight))
    {
      ghost var sides := Sides(handGrabbers, GrabberSide);
      var i := 0;
      while i < |handGrabbers|
        invariant 0 <= i <= |handGrabbers|
        invariant handGrabberLeft == Slot(handGrabbers, sides, i, true, old(handGrabberLeft))
        invariant handGrabberRight == Slot(handGrabbers, sides, i, false, old(handGrabberRight))
      {
        SlotStep(handGrabbers, sides, i, true, old(handGrabberLeft));
        SlotStep(handGrabbers, sides, i, false, old(handGrabberRight));
        if handGrabbers[i].handSide == Left {
          handGrabberLeft := handGrabbers[i];
        } else {
          handGrabberRight := handGrabbers[i];
        }
        i := i + 1;
      }
    }
  }
}
