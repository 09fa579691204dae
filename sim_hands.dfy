/** The earlier revision of the hands simulator (Simulator/HVRHandsSimulator.cs): nothing is
    cleared at the start of a frame; each hand whose select key is held first has its grab
    handled, against the grip flags left by the previous frame, and then all five of its
    buttons are re-simulated and published, whether or not the input changed. */
module SimulatorHands {
  import opened Framework
  import opened HandsCommon
  import opened Lifecycle

  /** ResetButton: both edge flags cleared and Value set to 0; Active kept. */
  function Zeroed(s: ButtonState): (r: ButtonState)
    ensures !r.justActivated && !r.justDeactivated && r.value == 0.0
    ensures r.active == s.active
  {
    s.(justDeactivated := false, justActivated := false, value := 0.0)
  }

  /** SimulatePressButton and SimulateTapButton on the record: reset, Value set to the input as
      1 or 0, then moved by SetButtonState. Whatever flags the record held, afterwards it
      flags exactly the edge from its own Active to this input, so never both edges. */
  function Simulated(s: ButtonState, pressed: bool): (r: ButtonState)
    ensures Edges(s, r, pressed)
    ensures r.value == ToInt16(pressed)
    ensures PressSynced(r, ToInt16(pressed)) && ClickSynced(r, pressed)
  {
    SetState(Zeroed(s).(value := ToInt16(pressed)), pressed)
  }

  /** The five simulate calls ProcessHandsInput makes for a held hand. Every record ends synced
      with its stored value and flags exactly this frame's edge, whatever the controller held
      before. */
  function SimulateAll(c: ControllerView, input: HandsInput): (r: ControllerStep)
    ensures ControllerEdges(c, r.view, input) && Synced(r.view)
  {
    var g := Simulated(c.gripState, input.gripPressed);
    var t := Simulated(c.triggerState, input.triggerPressed);
    var p := Simulated(c.primaryState, input.primaryButtonStarted);
    var s := Simulated(c.secondaryState, input.secondaryButtonStarted);
    var j := Simulated(c.joystickState, input.joystickButtonStarted);
    ControllerStep(
      ControllerView(g, ToInt16(input.gripPressed), t, ToInt16(input.triggerPressed),
                     p, input.primaryButtonStarted, s, input.secondaryButtonStarted,
                     j, input.joystickButtonStarted),
      [Publication(Left, Grip, g)] + [Publication(Left, Trigger, t)] + [Publication(Left, Primary, p)]
      + [Publication(Left, Secondary, s)] + [Publication(Left, JoystickButton, j)])
  }

  /** The simulate half of ProcessHandsInput for one hand: nothing unless the hand is held,
      so a hand not held keeps its records, edge flags included, and publishes nothing. */
  function SimulateIfHeld(c: ControllerView, held: bool, input: HandsInput): (r: ControllerStep)
    ensures !held ==> r.view == c && r.published == []
    ensures held ==> ControllerEdges(c, r.view, input) && Synced(r.view) && |r.published| == 5
  {
    if held then SimulateAll(c, input) else ControllerStep(c, [])
  }

  /** A held hand publishes all five records every frame, changed or not, in button order and
      all under the left hand: the right controller's buttons are announced as the left's. */
  lemma SimulateAllPublishesUnderLeft(c: ControllerView, input: HandsInput)
    ensures var r := SimulateAll(c, input);
            r.published == [
              Publication(Left, Grip, r.view.gripState), Publication(Left, Trigger, r.view.triggerState),
              Publication(Left, Primary, r.view.primaryState), Publication(Left, Secondary, r.view.secondaryState),
              Publication(Left, JoystickButton, r.view.joystickState)]
  {
  }

  /** HandleGrabbing: a grabber that is grabbing ends releasable exactly when the grip was just
      activated, and that is also exactly when ForceRelease is called; a grabber that is not
      grabbing is left alone. AllowGrabbing is never touched. `grabbingAfterRelease` is what
      IsGrabbing reads after the framework's ForceRelease. */
  function Grabbing(g: GrabberView, grip: ButtonState, grabbingAfterRelease: bool): (r: GrabStep)
    ensures r.forceRelease <==> grip.justActivated && g.isGrabbing
    ensures g.isGrabbing ==> (r.grabber.canRelease <==> grip.justActivated)
    ensures !g.isGrabbing ==> r.grabber == g
    ensures !r.forceRelease ==> r.grabber.isGrabbing == g.isGrabbing
    ensures r.forceRelease ==> r.grabber.isGrabbing == grabbingAfterRelease
    ensures r.grabber.allowGrabbing == g.allowGrabbing
  {
    var holding := if g.isGrabbing && g.canRelease then g.(canRelease := false) else g;
    if grip.justActivated && holding.isGrabbing && !holding.canRelease
    then GrabStep(holding.(canRelease := true, isGrabbing := grabbingAfterRelease), true)
    else GrabStep(holding, false)
  }

  /** The record of one button after frames in which its hand is held and the input takes
      the given values, one per frame. */
  function HeldRun(s: ButtonState, presses: seq<bool>): ButtonState
  {
    if presses == [] then s
    else Simulated(HeldRun(s, presses[..|presses| - 1]), presses[|presses| - 1])
  }

  /** After any non-empty run of held frames the record is active exactly when the last input
      was pressed and flags exactly the last frame's edge, from any starting record: unlike
      the later revision, no agreement between record and stored value is needed. */
  lemma HeldRunTracksInput(s: ButtonState, presses: seq<bool>)
    requires |presses| > 0
    ensures var before := if |presses| == 1 then s.active else presses[|presses| - 2];
            Edges(ButtonState(before, false, false, 0.0), HeldRun(s, presses), presses[|presses| - 1])
  {
  }

  /** The record of one button over frames in which its hand may or may not be held: `None`
      for a frame without the select key, `Some(pressed)` for a held frame and its input. */
  function ButtonRun(s: ButtonState, frames: seq<Option<bool>>): ButtonState
  {
    if frames == [] then s
    else
      var last := frames[|frames| - 1];
      var before := ButtonRun(s, frames[..|frames| - 1]);
      if last.Some? then Simulated(before, last.value) else before
  }

  /** The inputs of the held frames, in order: one for each held frame and nothing for the
      others, each the input of some held frame, and all of them in frame order when every
      frame is held. */
  function HeldInputs(frames: seq<Option<bool>>): (r: seq<bool>)
    ensures |r| <= |frames|
    ensures |r| == |frames| <==> forall i | 0 <= i < |frames| :: frames[i].Some?
    ensures r == [] <==> forall i | 0 <= i < |frames| :: frames[i].None?
    ensures |r| == |frames| ==> forall i | 0 <= i < |frames| :: frames[i] == Some(r[i])
    ensures forall k | 0 <= k < |r| :: Some(r[k]) in frames
  {
    if frames == [] then []
    else
      var last := frames[|frames| - 1];
      HeldInputs(frames[..|frames| - 1]) + (if last.Some? then [last.value] else [])
  }

  /** The held inputs of two runs of frames are the first run's followed by the second's. */
  lemma {:induction false} HeldInputsAppend(a: seq<Option<bool>>, b: seq<Option<bool>>)
    ensures HeldInputs(a + b) == HeldInputs(a) + HeldInputs(b)
  {
    if b == [] {
      assert a + b == a;
    } else {
      assert (a + b)[..|a + b| - 1] == a + b[..|b| - 1];
      HeldInputsAppend(a, b[..|b| - 1]);
    }
  }

  /** As far as the simulator's own writes go, frames in which the hand is not held leave no
      trace: the record is what the held frames alone would make of it, so nothing in the
      simulator clears a stale JustActivated or JustDeactivated during frames without the
      select key (the later revision clears it in the next frame). Whatever the framework's
      own controller writes into the record in those frames is outside this model. */
  lemma {:induction false} UnheldFramesLeaveNoTrace(s: ButtonState, frames: seq<Option<bool>>)
    ensures ButtonRun(s, frames) == HeldRun(s, HeldInputs(frames))
  {
    if frames != [] {
      var prefix := frames[..|frames| - 1];
      var last := frames[|frames| - 1];
      UnheldFramesLeaveNoTrace(s, prefix);
      var held := HeldInputs(prefix);
      if last.Some? {
        assert (held + [last.value])[..|held|] == held;
      } else {
        assert held + [] == held;
      }
    }
  }

  /** HandleGrabbing runs before the grip is simulated, so a grip pressed in one frame forces
      the release only in the next frame in which the hand is still held and still grabbing. */
  lemma ReleaseFollowsGripOneFrameLate(g: GrabberView, c: ControllerView, first: HandsInput, grabbingAfterRelease: bool)
    requires g.isGrabbing && !c.gripState.justActivated && !c.gripState.active && first.gripPressed
    ensures var step1 := Grabbing(g, c.gripState, grabbingAfterRelease);
            var c1 := SimulateAll(c, first).view;
            var step2 := Grabbing(step1.grabber, c1.gripState, grabbingAfterRelease);
            !step1.forceRelease && step2.forceRelease && step2.grabber.canRelease
  {
  }

  /** The earlier hands simulator: the dependency slots ResolveDependencies fills and the
      per-frame button and grab handling. HVRController.SetButtonState is the sink. */
  class HandsSimulator {
    var autoResolveDependencies: bool
    var enabled: bool
    const sink: ButtonSink
    const deps: HandsDependencies

    constructor (autoResolve: bool, sink: ButtonSink)
      ensures autoResolveDependencies == autoResolve && enabled && this.sink == sink
      ensures fresh(deps) && deps.Snapshot() == NoDependencies
    {
      autoResolveDependencies := autoResolve;
      enabled := true;
      this.sink := sink;
      deps := new HandsDependencies();
    }

    /** Start: a failed resolution, or a mobile platform, disables the component (the
        resolution runs first either way). SetHandsInitialPosition then reads both controller
        targets: its float positions are not modelled, but a null target throws. */
    method Start(rig: RigLookup, inputLeft: Controller, inputRight: Controller, isMobilePlatform: bool)
      returns (outcome: StartOutcome)
      modifies this, deps
      ensures deps.Snapshot() == Resolve(old(autoResolveDependencies), rig, inputLeft, inputRight, old(deps.Snapshot()))
      ensures var resolved := HandsResolution(old(autoResolveDependencies), |rig.trackedControllers|, rig.cameraFound, |rig.handGrabbers|).Succeeded();
              outcome == HandsStart(resolved, isMobilePlatform, deps.Snapshot())
      ensures enabled == (old(enabled) && outcome != Disabled)
      ensures autoResolveDependencies == old(autoResolveDependencies)
    {
      var resolved := deps.ResolveDependencies(autoResolveDependencies, rig, inputLeft, inputRight);
      if !resolved || isMobilePlatform {
        enabled := false;
        return Disabled;
      }
      if deps.controllerTargetLeft == null || deps.controllerTargetRight == null {
        return NullReference;
      }
      return Started;
    }

    /** SetButtonState: moves the record by the input and publishes it, always under the
        left hand, whichever controller the record belongs to. */
    method SetButtonState(button: Button, buttonState: ButtonState, pressed: bool) returns (newState: ButtonState)
      modifies sink
      ensures newState == SetState(buttonState, pressed)
      ensures sink.published == old(sink.published) + [Publication(Left, button, newState)]
    {
      newState := buttonState;
      if pressed {
        if !newState.active {
          newState := newState.(justActivated := true);
          newState := newState.(active := true);
        }
      } else {
        if newState.active {
          newState := newState.(active := false);
          newState := newState.(justDeactivated := true);
        }
      }
      sink.SetButtonState(Left, button, newState);
    }

    method ResetButton(buttonState: ButtonState) returns (newState: ButtonState)
      ensures newState == Zeroed(buttonState)
    {
      newState := buttonState.(justDeactivated := false);
      newState := newState.(justActivated := false);
      newState := newState.(value := 0.0);
    }

    /** SimulatePressButton (Grip, Trigger). The controller's float is passed by reference but
        only written, so its new value is returned; the record's old value comes in. */
    method SimulatePressButton(button: Button, buttonState: ButtonState, pressed: bool)
      returns (newState: ButtonState, value: real)
      modifies sink
      ensures newState == Simulated(buttonState, pressed) && value == ToInt16(pressed)
      ensures sink.published == old(sink.published) + [Publication(Left, button, newState)]
    {
      value := ToInt16(pressed);
      newState := ResetButton(buttonState);
      newState := newState.(value := value);
      newState := SetButtonState(button, newState, pressed);
    }

    /** SimulateTapButton (Primary, Secondary, Joystick): the same over the controller's bool. */
    method SimulateTapButton(button: Button, buttonState: ButtonState, pressed: bool)
      returns (newState: ButtonState, value: bool)
      modifies sink
      ensures newState == Simulated(buttonState, pressed) && value == pressed
      ensures sink.published == old(sink.published) + [Publication(Left, button, newState)]
    {
      value := pressed;
      newState := ResetButton(buttonState);
      newState := newState.(value := ToInt16(value));
      newState := SetButtonState(button, newState, pressed);
    }

    /** HandleGrabbing; what IsGrabbing reads after a forced release is the framework's. */
    method HandleGrabbing(handGrabber: Grabber, controller: Controller)
      modifies handGrabber
      ensures var step := Grabbing(old(handGrabber.View()), controller.gripButtonState, handGrabber.isGrabbing);
              && handGrabber.View() == step.grabber
              && handGrabber.forceReleases == old(handGrabber.forceReleases) + (if step.forceRelease then 1 else 0)
    {
      if handGrabber.isGrabbing && handGrabber.canRelease {
        handGrabber.canRelease := false;
      }
      if controller.gripButtonState.justActivated {
        if handGrabber.isGrabbing && !handGrabber.canRelease {
          handGrabber.canRelease := true;
          handGrabber.ForceRelease();
          return;
        }
      }
    }

    /** The button and grab part of ProcessHandsInput; the hand motion is kept only as far as
        it dereferences the dependency slots. Both controllers must be present and distinct:
        Update reads both of them every frame, in UpdateFingerCurls, whichever hand is held.
        Two present grabbers must differ when both hands are held. MoveHands or RotateHands
        runs first and throws on a held hand's null controller target (or a missing camera
        while moving), before anything changes. A held hand whose grabber slot is null throws in
        HandleGrabbing before any of its buttons is simulated. An exception ends the frame:
        after a throw in the left hand's block the right hand's block does not run. A hand not
        held is left exactly as it was, edge flags included. */
    method ProcessHandsInput(input: HandsInput) returns (outcome: FrameOutcome)
      requires deps.controllerLeft != null && deps.controllerRight != null && deps.controllerLeft != deps.controllerRight
      requires input.usingLeftHand && input.usingRightHand && deps.handGrabberLeft != null ==> deps.handGrabberLeft != deps.handGrabberRight
      modifies deps.controllerLeft, deps.controllerRight, sink, deps.handGrabberLeft, deps.handGrabberRight
      ensures outcome == FrameCheck(input, deps.Snapshot())
      ensures var moved := outcome != MotionNullReference;
              var simLeft := SimulateIfHeld(old(deps.controllerLeft.View()), input.usingLeftHand && moved && deps.handGrabberLeft != null, input);
              var simRight := SimulateIfHeld(old(deps.controllerRight.View()),
                                input.usingRightHand && moved && deps.handGrabberRight != null && outcome != GrabberMissing(Left), input);
              && deps.controllerLeft.View() == simLeft.view
              && deps.controllerRight.View() == simRight.view
              && sink.published == old(sink.published) + simLeft.published + simRight.published
      ensures input.usingLeftHand && deps.handGrabberLeft != null && outcome != MotionNullReference ==>
        var step := Grabbing(old(deps.handGrabberLeft.View()), old(deps.controllerLeft.gripButtonState), deps.handGrabberLeft.isGrabbing);
        && deps.handGrabberLeft.View() == step.grabber
        && deps.handGrabberLeft.forceReleases == old(deps.handGrabberLeft.forceReleases) + (if step.forceRelease then 1 else 0)
      ensures input.usingRightHand && deps.handGrabberRight != null && outcome != MotionNullReference && outcome != GrabberMissing(Left) ==>
        var step := Grabbing(old(deps.handGrabberRight.View()), old(deps.controllerRight.gripButtonState), deps.handGrabberRight.isGrabbing);
        && deps.handGrabberRight.View() == step.grabber
        && deps.handGrabberRight.forceReleases == old(deps.handGrabberRight.forceReleases) + (if step.forceRelease then 1 else 0)
      ensures outcome == MotionNullReference && deps.handGrabberLeft != null ==> unchanged(deps.handGrabberLeft)
      ensures outcome == MotionNullReference && deps.handGrabberRight != null ==> unchanged(deps.handGrabberRight)
      ensures !input.usingLeftHand && deps.handGrabberLeft != null && (input.usingRightHand ==> deps.handGrabberLeft != deps.handGrabberRight) ==>
        unchanged(deps.handGrabberLeft)
      ensures (!input.usingRightHand || outcome == GrabberMissing(Left)) && deps.handGrabberRight != null
              && (input.usingLeftHand ==> deps.handGrabberLeft != deps.handGrabberRight) ==>
        unchanged(deps.handGrabberRight)
    {
      var motionThrew := deps.HandMotion(input);
      if motionThrew {
        return MotionNullReference;
      }
      outcome := HeldHands(input);
    }

    /** The two `if (UsingLeftHand)` / `if (UsingRightHand)` blocks of ProcessHandsInput. */
    method HeldHands(input: HandsInput) returns (outcome: FrameOutcome)
      requires deps.controllerLeft != null && deps.controllerRight != null && deps.controllerLeft != deps.controllerRight
      requires input.usingLeftHand && input.usingRightHand && deps.handGrabberLeft != null ==> deps.handGrabberLeft != deps.handGrabberRight
      modifies deps.controllerLeft, deps.controllerRight, sink, deps.handGrabberLeft, deps.handGrabberRight
      ensures outcome == GrabberCheck(input, deps.handGrabberLeft != null, deps.handGrabberRight != null)
      ensures var simLeft := SimulateIfHeld(old(deps.controllerLeft.View()), input.usingLeftHand && deps.handGrabberLeft != null, input);
              var simRight := SimulateIfHeld(old(deps.controllerRight.View()),
                                input.usingRightHand && deps.handGrabberRight != null && outcome != GrabberMissing(Left), input);
              && deps.controllerLeft.View() == simLeft.view
              && deps.controllerRight.View() == simRight.view
              && sink.published == old(sink.published) + simLeft.published + simRight.published
      ensures input.usingLeftHand && deps.handGrabberLeft != null ==>
        var step := Grabbing(old(deps.handGrabberLeft.View()), old(deps.controllerLeft.gripButtonState), deps.handGrabberLeft.isGrabbing);
        && deps.handGrabberLeft.View() == step.grabber
        && deps.handGrabberLeft.forceReleases == old(deps.handGrabberLeft.forceReleases) + (if step.forceRelease then 1 else 0)
      ensures input.usingRightHand && deps.handGrabberRight != null && outcome != GrabberMissing(Left) ==>
        var step := Grabbing(old(deps.handGrabberRight.View()), old(deps.controllerRight.gripButtonState), deps.handGrabberRight.isGrabbing);
        && deps.handGrabberRight.View() == step.grabber
        && deps.handGrabberRight.forceReleases == old(deps.handGrabberRight.forceReleases) + (if step.forceRelease then 1 else 0)
      ensures !input.usingLeftHand && deps.handGrabberLeft != null && (input.usingRightHand ==> deps.handGrabberLeft != deps.handGrabberRight) ==>
        unchanged(deps.handGrabberLeft)
      ensures (!input.usingRightHand || outcome == GrabberMissing(Left)) && deps.handGrabberRight != null
              && (input.usingLeftHand ==> deps.handGrabberLeft != deps.handGrabberRight) ==>
        unchanged(deps.handGrabberRight)
    {
      var leftMissing := HeldHand(deps.controllerLeft, deps.handGrabberLeft, input.usingLeftHand, input);
      if leftMissing {
        return GrabberMissing(Left);
      }
      var rightMissing := HeldHand(deps.controllerRight, deps.handGrabberRight, input.usingRightHand, input);
      if rightMissing {
        return GrabberMissing(Right);
      }
      return Completed;
    }

    /** The `if (UsingLeftHand)` / `if (UsingRightHand)` block of ProcessHandsInput for one hand:
        the grab is handled against the grip record as the previous frame left it, and a null
        grabber throws before any button is simulated. Returns whether it threw. */
    method HeldHand(controller: Controller, grabber: Grabber?, held: bool, input: HandsInput)
      returns (grabberMissing: bool)
      modifies controller, grabber, sink
      ensures grabberMissing <==> held && grabber == null
      ensures var step := SimulateIfHeld(old(controller.View()), held && grabber != null, input);
              controller.View() == step.view && sink.published == old(sink.published) + step.published
      ensures held && grabber != null ==>
        var step := Grabbing(old(grabber.View()), old(controller.gripButtonState), grabber.isGrabbing);
        && grabber.View() == step.grabber
        && grabber.forceReleases == old(grabber.forceReleases) + (if step.forceRelease then 1 else 0)
      ensures !held && grabber != null ==> unchanged(grabber)
    {
      if held {
        if grabber == null {
          return true;
        }
        HandleGrabbing(grabber, controller);
        SimulateHand(controller, input);
      }
      return false;
    }

    /** The five simulate calls of a held hand. */
    method SimulateHand(controller: Controller, input: HandsInput)
      modifies controller, sink
      ensures var step := SimulateAll(old(controller.View()), input);
              controller.View() == step.view && sink.published == old(sink.published) + step.published
    {
      ghost var log := sink.published;
      ghost var c := controller.View();
      ghost var step := SimulateAll(c, input);
      SimulatePresses(controller, input);
      SimulateTaps(controller, input);
      assert step.published == [step.published[0]] + [step.published[1]] + [step.published[2]] + [step.published[3]] + [step.published[4]];
    }

    method SimulatePresses(controller: Controller, input: HandsInput)
      modifies controller, sink
      ensures var c := old(controller.View());
              var g := Simulated(c.gripState, input.gripPressed);
              var t := Simulated(c.triggerState, input.triggerPressed);
              && controller.View() == c.(gripState := g, grip := ToInt16(input.gripPressed),
                                         triggerState := t, trigger := ToInt16(input.triggerPressed))
              && sink.published == old(sink.published) + [Publication(Left, Grip, g)] + [Publication(Left, Trigger, t)]
    {
      controller.gripButtonState, controller.grip :=
        SimulatePressButton(Grip, controller.gripButtonState, input.gripPressed);
      controller.triggerButtonState, controller.trigger :=
        SimulatePressButton(Trigger, controller.triggerButtonState, input.triggerPressed);
    }

    method SimulateTaps(controller: Controller, input: HandsInput)
      modifies controller, sink
      ensures var c := old(controller.View());
              var p := Simulated(c.primaryState, input.primaryButtonStarted);
              var s := Simulated(c.secondaryState, input.secondaryButtonStarted);
              var j := Simulated(c.joystickState, input.joystickButtonStarted);
              && controller.View() == c.(primaryState := p, primaryButton := input.primaryButtonStarted,
                                         secondaryState := s, secondaryButton := input.secondaryButtonStarted,
                                         joystickState := j, joystickClicked := input.joystickButtonStarted)
              && sink.published == old(sink.published)
                   + [Publication(Left, Primary, p)] + [Publication(Left, Secondary, s)] + [Publication(Left, JoystickButton, j)]
    {
      controller.primaryButtonState, controller.primaryButton :=
        SimulateTapButton(Primary, controller.primaryButtonState, input.primaryButtonStarted);
      controller.secondaryButtonState, controller.secondaryButton :=
        SimulateTapButton(Secondary, controller.secondaryButtonState, input.secondaryButtonStarted);
      controller.joystickButtonState, controller.joystickClicked :=
        SimulateTapButton(JoystickButton, controller.joystickButtonState, input.joystickButtonStarted);
    }
  }
}
