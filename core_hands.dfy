/** The later revision of the hands simulator (Core/HVRHandsSimulator.cs): every Update first
    clears the edge flags of all ten button records, then simulates the buttons of each hand
    whose select key is held, publishing a record only when it changed. */
module CoreHands {
  import opened Framework
  import opened HandsCommon
  import opened Lifecycle

  /** ResetButtonSate: both edge flags cleared, Active and Value kept. */
  function Cleared(s: ButtonState): (r: ButtonState)
    ensures !r.justActivated && !r.justDeactivated
    ensures r.active == s.active && r.value == s.value
    ensures !s.justActivated && !s.justDeactivated ==> r == s
  {
    s.(justActivated := false, justDeactivated := false)
  }

  /** A record after one call, with what the call published, in order. */
  datatype ButtonStep = ButtonStep(state: ButtonState, published: seq<Publication>)

  /** ResetButtonOnActivate: clears the edge flags and publishes the cleared record, unless
      both flags were already clear, in which case nothing changes and nothing is published. */
  function ResetOnActivate(side: HandSide, button: Button, s: ButtonState): (r: ButtonStep)
    ensures r.state == Cleared(s)
    ensures !s.justActivated && !s.justDeactivated ==> r.state == s && r.published == []
    ensures s.justActivated || s.justDeactivated ==> r.published == [Publication(side, button, r.state)]
  {
    if !s.justActivated && !s.justDeactivated then ButtonStep(s, [])
    else
      var c := Cleared(s);
      ButtonStep(c, [Publication(side, button, c)])
  }

  /** The record and the controller's float input after SimulateButtonPress. */
  datatype PressStep = PressStep(state: ButtonState, stored: real, published: seq<Publication>)

  /** SimulateButtonPress (Grip, Trigger): an input equal to the stored float is ignored;
      otherwise the stored float and the record's Value become 1 or 0 and the record is
      moved by SetButtonState and published. Run on a record with clear flags, at most one
      flag is raised, and on a synced record exactly this input's edge. */
  function PressOutcome(side: HandSide, button: Button, s: ButtonState, stored: real, isPressed: bool): (r: PressStep)
    ensures r.stored == ToInt16(isPressed)
    ensures stored == ToInt16(isPressed) ==> r.state == s && r.published == []
    ensures stored != ToInt16(isPressed) ==>
      && r.state.active == isPressed && r.state.value == ToInt16(isPressed)
      && (r.state.justActivated <==> s.justActivated || (isPressed && !s.active))
      && (r.state.justDeactivated <==> s.justDeactivated || (!isPressed && s.active))
      && r.published == [Publication(side, button, r.state)]
    ensures !s.justActivated && !s.justDeactivated ==> NoDoubleEdge(r.state)
    ensures !s.justActivated && !s.justDeactivated && PressSynced(s, stored) ==>
      PressSynced(r.state, r.stored) && Edges(s, r.state, isPressed)
  {
    var value := ToInt16(isPressed);
    if value == stored then PressStep(s, stored, [])
    else
      var t := SetState(s.(value := value), isPressed);
      PressStep(t, value, [Publication(side, button, t)])
  }

  /** The record and the controller's bool input after SimulateButtonClick. */
  datatype ClickStep = ClickStep(state: ButtonState, stored: bool, published: seq<Publication>)

  /** SimulateButtonClick (Primary, Secondary, Joystick): the same as a press, over the
      controller's stored bool. */
  function ClickOutcome(side: HandSide, button: Button, s: ButtonState, stored: bool, isPressed: bool): (r: ClickStep)
    ensures r.stored == isPressed
    ensures stored == isPressed ==> r.state == s && r.published == []
    ensures stored != isPressed ==>
      && r.state.active == isPressed && r.state.value == ToInt16(isPressed)
      && (r.state.justActivated <==> s.justActivated || (isPressed && !s.active))
      && (r.state.justDeactivated <==> s.justDeactivated || (!isPressed && s.active))
      && r.published == [Publication(side, button, r.state)]
    ensures !s.justActivated && !s.justDeactivated ==> NoDoubleEdge(r.state)
    ensures !s.justActivated && !s.justDeactivated && ClickSynced(s, stored) ==>
      ClickSynced(r.state, r.stored) && Edges(s, r.state, isPressed)
  {
    if stored == isPressed then ClickStep(s, stored, [])
    else
      var t := SetState(s.(value := ToInt16(isPressed)), isPressed);
      ClickStep(t, isPressed, [Publication(side, button, t)])
  }

  /** HandleHandGrabbing: grabbing is allowed again; a grip that was just activated while
      holding something that may not be released forces a release and blocks grabbing until
      the next frame; a grip held while holding something releasable makes it unreleasable.
      `grabbingAfterRelease` is what IsGrabbing reads after the framework's ForceRelease. */
  function HandGrabbing(g: GrabberView, grip: ButtonState, grabbingAfterRelease: bool): (r: GrabStep)
    ensures r.forceRelease <==> grip.justActivated && g.isGrabbing && !g.canRelease
    ensures r.grabber.allowGrabbing <==> !r.forceRelease
    ensures r.grabber.canRelease <==> g.canRelease && !(grip.active && g.isGrabbing)
    ensures !r.forceRelease ==> r.grabber.isGrabbing == g.isGrabbing
    ensures r.forceRelease ==> r.grabber.isGrabbing == grabbingAfterRelease
  {
    var allowed := g.(allowGrabbing := true);
    var released := grip.justActivated && allowed.isGrabbing && !allowed.canRelease;
    var afterRelease :=
      if released then allowed.(isGrabbing := grabbingAfterRelease, allowGrabbing := false) else allowed;
    var afterHold :=
      if grip.active && afterRelease.isGrabbing && afterRelease.canRelease
      then afterRelease.(canRelease := false) else afterRelease;
    GrabStep(afterHold, released)
  }

  /** The five ResetButtonOnActivate calls HandleHandsInput makes on one controller. */
  function ResetAll(side: HandSide, c: ControllerView): (r: ControllerStep)
    ensures Quiet(r.view)
    ensures r.view.gripState == Cleared(c.gripState) && r.view.triggerState == Cleared(c.triggerState)
    ensures r.view.primaryState == Cleared(c.primaryState) && r.view.secondaryState == Cleared(c.secondaryState)
    ensures r.view.joystickState == Cleared(c.joystickState)
    ensures r.view.grip == c.grip && r.view.trigger == c.trigger && r.view.primaryButton == c.primaryButton
    ensures r.view.secondaryButton == c.secondaryButton && r.view.joystickClicked == c.joystickClicked
    ensures Quiet(c) ==> r.view == c && r.published == []
    ensures |r.published| <= 5
  {
    var g := ResetOnActivate(side, Grip, c.gripState);
    var t := ResetOnActivate(side, Trigger, c.triggerState);
    var p := ResetOnActivate(side, Primary, c.primaryState);
    var s := ResetOnActivate(side, Secondary, c.secondaryState);
    var j := ResetOnActivate(side, JoystickButton, c.joystickState);
    ControllerStep(
      c.(gripState := g.state, triggerState := t.state, primaryState := p.state,
         secondaryState := s.state, joystickState := j.state),
      g.published + t.published + p.published + s.published + j.published)
  }

  /** The five simulate calls HandleHandsInput makes for a held hand. Run on records whose
      flags were just cleared, no record ends both just activated and just deactivated; on a
      synced controller, each record then carries exactly this frame's edge. */
  function SimulateAll(side: HandSide, c: ControllerView, input: HandsInput): (r: ControllerStep)
    ensures Quiet(c) ==> ControllerNoDoubleEdge(r.view)
    ensures Quiet(c) && Synced(c) ==> Synced(r.view) && ControllerEdges(c, r.view, input)
    ensures |r.published| <= 5
  {
    var g := PressOutcome(side, Grip, c.gripState, c.grip, input.gripPressed);
    var t := PressOutcome(side, Trigger, c.triggerState, c.trigger, input.triggerPressed);
    var p := ClickOutcome(side, Primary, c.primaryState, c.primaryButton, input.primaryButtonStarted);
    var s := ClickOutcome(side, Secondary, c.secondaryState, c.secondaryButton, input.secondaryButtonStarted);
    var j := ClickOutcome(side, JoystickButton, c.joystickState, c.joystickClicked, input.joystickButtonStarted);
    ControllerStep(
      ControllerView(g.state, g.stored, t.state, t.stored, p.state, p.stored,
                     s.state, s.stored, j.state, j.stored),
      g.published + t.published + p.published + s.published + j.published)
  }

  /** The simulate half of HandleHandsInput for one hand: nothing unless the hand is held;
      a held hand publishes at most its five records, and on records just cleared and synced
      each flags exactly its own input's edge. */
  function SimulateIfHeld(side: HandSide, c: ControllerView, held: bool, input: HandsInput): (r: ControllerStep)
    ensures !held ==> r.view == c && r.published == []
    ensures |r.published| <= 5
    ensures held && Quiet(c) ==> ControllerNoDoubleEdge(r.view)
    ensures held && Quiet(c) && Synced(c) ==> Synced(r.view) && ControllerEdges(c, r.view, input)
  {
    if held then SimulateAll(side, c, input) else ControllerStep(c, [])
  }

  /** One HandleHandsInput as seen by one controller: reset, then simulate if the hand is
      held. Whatever the records held before, afterwards none is both just activated and just
      deactivated; a hand not held keeps its Active and stored values, with its flags clear. */
  function ControllerFrame(side: HandSide, c: ControllerView, held: bool, input: HandsInput): (r: ControllerView)
    ensures ControllerNoDoubleEdge(r)
    ensures !held ==> Quiet(r) && r == ResetAll(side, c).view
  {
    SimulateIfHeld(side, ResetAll(side, c).view, held, input).view
  }

  /** On a synced controller whose hand is held, one HandleHandsInput leaves it synced with
      each record flagging exactly the edge of its own input, whatever flags it held before. */
  lemma HeldFrameTracksInput(side: HandSide, c: ControllerView, input: HandsInput)
    requires Synced(c)
    ensures var r := ControllerFrame(side, c, true, input);
            Synced(r) && ControllerEdges(c, r, input)
  {
    var reset := ResetAll(side, c).view;
    assert Synced(reset) && Quiet(reset);
    assert ControllerEdges(reset, SimulateAll(side, reset, input).view, input);
  }

  /** A Grip or Trigger record and its stored float after frames in which the hand is held
      and the input takes the given values, one per frame. */
  function HeldPressRun(s: ButtonState, stored: real, presses: seq<bool>): (ButtonState, real)
  {
    if presses == [] then (s, stored)
    else
      var (t, v) := HeldPressRun(s, stored, presses[..|presses| - 1]);
      var step := PressOutcome(Left, Grip, ResetOnActivate(Left, Grip, t).state, v, presses[|presses| - 1]);
      (step.state, step.stored)
  }

  /** From a synced start, after any non-empty run of held frames the record is still synced,
      is active exactly when the last input was pressed, and flags exactly the last frame's
      edge: just activated iff the input rose, just deactivated iff it fell. */
  lemma {:induction false} HeldPressRunTracksInput(s: ButtonState, stored: real, presses: seq<bool>)
    requires PressSynced(s, stored)
    requires |presses| > 0
    ensures var (t, v) := HeldPressRun(s, stored, presses);
            var before := if |presses| == 1 then s.active else presses[|presses| - 2];
            && PressSynced(t, v)
            && Edges(ButtonState(before, false, false, 0.0), t, presses[|presses| - 1])
  {
    var prefix := presses[..|presses| - 1];
    if |presses| > 1 {
      HeldPressRunTracksInput(s, stored, prefix);
      assert prefix[|prefix| - 1] == presses[|presses| - 2];
    }
  }

  /** A proof step, not a property of the simulator: five publication runs appended one
      after another to a log are the log followed by the five runs together. */
  lemma RegroupFive<T>(log: seq<T>, a: seq<T>, b: seq<T>, c: seq<T>, d: seq<T>, e: seq<T>)
    ensures log + a + b + c + d + e == log + (a + b + c + d + e)
  {
  }

  /** The Core hands simulator: the dependency slots ResolveDependencies fills and the
      per-frame button and grab handling. HVRController.SetButtonState is the sink. */
  class HandsSimulator {
    var autoResolveDependencies: bool
    var enabled: bool
    const sink: ButtonSink
    const deps: HandsDependencies

    constructor (autoResolve: bool, sink: ButtonSink)
      ensures autoResolveDependencies == autoResolve && enabled && this.sink == sink
      ensures fresh(deps) && deps.Snapshot() == NoDependencies
    {
      autoResolveDependencies := autoResolve;
      enabled := true;
      this.sink := sink;
      deps := new HandsDependencies();
    }

    /** Start: a failed resolution, or a mobile platform, disables the component (the
        resolution runs first either way). SetHandsInitialPosition then reads both controller
        targets: its float positions are not modelled, but a null target throws. */
    method Start(rig: RigLookup, inputLeft: Controller, inputRight: Controller, isMobilePlatform: bool)
      returns (outcome: StartOutcome)
      modifies this, deps
      ensures deps.Snapshot() == Resolve(old(autoResolveDependencies), rig, inputLeft, inputRight, old(deps.Snapshot()))
      ensures var resolved := HandsResolution(old(autoResolveDependencies), |rig.trackedControllers|, rig.cameraFound, |rig.handGrabbers|).Succeeded();
              outcome == HandsStart(resolved, isMobilePlatform, deps.Snapshot())
      ensures enabled == (old(enabled) && outcome != Disabled)
      ensures autoResolveDependencies == old(autoResolveDependencies)
    {
      var resolved := deps.ResolveDependencies(autoResolveDependencies, rig, inputLeft, inputRight);
      if !resolved || isMobilePlatform {
        enabled := false;
        return Disabled;
      }
      if deps.controllerTargetLeft == null || deps.controllerTargetRight == null {
        return NullReference;
      }
      return Started;
    }

    /** SetButtonState: moves the record by the input and publishes the new record. */
    method SetButtonState(handSide: HandSide, button: Button, buttonState: ButtonState, pressed: bool)
      returns (newState: ButtonState)
      modifies sink
      ensures newState == SetState(buttonState, pressed)
      ensures sink.published == old(sink.published) + [Publication(handSide, button, newState)]
    {
      newState := buttonState;
      if pressed {
        if !newState.active {
          newState := newState.(justActivated := true);
          newState := newState.(active := true);
        }
      } else {
        if newState.active {
          newState := newState.(active := false);
          newState := newState.(justDeactivated := true);
        }
      }
      sink.SetButtonState(handSide, button, newState);
    }

    method ResetButtonSate(buttonState: ButtonState) returns (newState: ButtonState)
      ensures newState == Cleared(buttonState)
    {
      newState := buttonState.(justDeactivated := false);
      newState := newState.(justActivated := false);
    }

    method ResetButtonOnActivate(handSide: HandSide, button: Button, buttonState: ButtonState)
      returns (newState: ButtonState)
      modifies sink
      ensures var step := ResetOnActivate(handSide, button, buttonState);
              newState == step.state && sink.published == old(sink.published) + step.published
    {
      if !buttonState.justActivated && !buttonState.justDeactivated {
        return buttonState;
      }
      newState := ResetButtonSate(buttonState);
      sink.SetButtonState(handSide, button, newState);
    }

    /** SimulateButtonPress; the record and the controller's float are both passed by
        reference: their old values come in and their new values are returned. */
    method SimulateButtonPress(handSide: HandSide, button: Button, buttonState: ButtonState, buttonValue: real, isPressed: bool)
      returns (newState: ButtonState, newValue: real)
      modifies sink
      ensures var step := PressOutcome(handSide, button, buttonState, buttonValue, isPressed);
              && newState == step.state && newValue == step.stored
              && sink.published == old(sink.published) + step.published
    {
      var value := ToInt16(isPressed);
      if value == buttonValue {
        return buttonState, buttonValue;
      }
      newValue := value;
      newState := buttonState.(value := newValue);
      newState := SetButtonState(handSide, button, newState, isPressed);
    }

    /** SimulateButtonClick; the controller's bool is passed by reference. */
    method SimulateButtonClick(handSide: HandSide, button: Button, buttonState: ButtonState, buttonValue: bool, isPressed: bool)
      returns (newState: ButtonState, newValue: bool)
      modifies sink
      ensures var step := ClickOutcome(handSide, button, buttonState, buttonValue, isPressed);
              && newState == step.state && newValue == step.stored
              && sink.published == old(sink.published) + step.published
    {
      if buttonValue == isPressed {
        return buttonState, buttonValue;
      }
      newValue := isPressed;
      newState := buttonState.(value := ToInt16(newValue));
      newState := SetButtonState(handSide, button, newState, isPressed);
    }

    /** HandleHandGrabbing; what IsGrabbing reads after a forced release is the framework's. */
    method HandleHandGrabbing(handGrabber: Grabber, controller: Controller)
      modifies handGrabber
      ensures var step := HandGrabbing(old(handGrabber.View()), controller.gripButtonState, handGrabber.isGrabbing);
              && handGrabber.View() == step.grabber
              && handGrabber.forceReleases == old(handGrabber.forceReleases) + (if step.forceRelease then 1 else 0)
    {
      if !handGrabber.allowGrabbing {
        handGrabber.allowGrabbing := true;
      }
      if controller.gripButtonState.justActivated {
        if handGrabber.isGrabbing && !handGrabber.canRelease {
          handGrabber.ForceRelease();
          handGrabber.allowGrabbing := false;
        }
      }
      if controller.gripButtonState.active {
        if handGrabber.isGrabbing && handGrabber.canRelease {
          handGrabber.canRelease := false;
        }
      }
    }

    /** The button and grab part of HandleHandsInput; the hand motion is kept only as far as
        it dereferences the dependency slots. Both controllers must be present and distinct,
        and two present grabbers must differ when both hands are held. After the ten resets,
        MoveHands or RotateHands throws on a held hand's null controller target (or a missing
        camera while moving), before any simulation. A held hand whose grabber slot is null has
        its buttons simulated and then throws in HandleHandGrabbing. An exception ends the
        frame: after a throw in the left hand's block the right hand's block does not run. The
        sink receives, in order, the left resets, the right resets, the left simulations and the
        right simulations. */
    method HandleHandsInput(input: HandsInput) returns (outcome: FrameOutcome)
      requires deps.controllerLeft != null && deps.controllerRight != null && deps.controllerLeft != deps.controllerRight
      requires input.usingLeftHand && input.usingRightHand && deps.handGrabberLeft != null ==> deps.handGrabberLeft != deps.handGrabberRight
      modifies deps.controllerLeft, deps.controllerRight, sink, deps.handGrabberLeft, deps.handGrabberRight
      ensures outcome == FrameCheck(input, deps.Snapshot())
      ensures var moved := outcome != MotionNullReference;
              var resetLeft := ResetAll(Left, old(deps.controllerLeft.View()));
              var resetRight := ResetAll(Right, old(deps.controllerRight.View()));
              var simLeft := SimulateIfHeld(Left, resetLeft.view, input.usingLeftHand && moved, input);
              var simRight := SimulateIfHeld(Right, resetRight.view, input.usingRightHand && moved && outcome != GrabberMissing(Left), input);
              && deps.controllerLeft.View() == simLeft.view
              && deps.controllerRight.View() == simRight.view
              && sink.published == old(sink.published) + resetLeft.published + resetRight.published
                                   + simLeft.published + simRight.published
      ensures input.usingLeftHand && deps.handGrabberLeft != null && outcome != MotionNullReference ==>
        var step := HandGrabbing(old(deps.handGrabberLeft.View()), deps.controllerLeft.gripButtonState, deps.handGrabberLeft.isGrabbing);
        && deps.handGrabberLeft.View() == step.grabber
        && deps.handGrabberLeft.forceReleases == old(deps.handGrabberLeft.forceReleases) + (if step.forceRelease then 1 else 0)
      ensures input.usingRightHand && deps.handGrabberRight != null && outcome != MotionNullReference && outcome != GrabberMissing(Left) ==>
        var step := HandGrabbing(old(deps.handGrabberRight.View()), deps.controllerRight.gripButtonState, deps.handGrabberRight.isGrabbing);
        && deps.handGrabberRight.View() == step.grabber
        && deps.handGrabberRight.forceReleases == old(deps.handGrabberRight.forceReleases) + (if step.forceRelease then 1 else 0)
      ensures outcome == MotionNullReference && deps.handGrabberLeft != null ==> unchanged(deps.handGrabberLeft)
      ensures outcome == MotionNullReference && deps.handGrabberRight != null ==> unchanged(deps.handGrabberRight)
      ensures !input.usingLeftHand && deps.handGrabberLeft != null && (input.usingRightHand ==> deps.handGrabberLeft != deps.handGrabberRight) ==>
        unchanged(deps.handGrabberLeft)
      ensures (!input.usingRightHand || outcome == GrabberMissing(Left)) && deps.handGrabberRight != null
              && (input.usingLeftHand ==> deps.handGrabberLeft != deps.handGrabberRight) ==>
        unchanged(deps.handGrabberRight)
    {
      ResetHands();
      var motionThrew := deps.HandMotion(input);
      if motionThrew {
        return MotionNullReference;
      }
      outcome := HeldHands(input);
    }

    /** The ten ResetButtonOnActivate calls at the head of HandleHandsInput. */
    method ResetHands()
      requires deps.controllerLeft != null && deps.controllerRight != null && deps.controllerLeft != deps.controllerRight
      modifies deps.controllerLeft, deps.controllerRight, sink
      ensures var resetLeft := ResetAll(Left, old(deps.controllerLeft.View()));
              var resetRight := ResetAll(Right, old(deps.controllerRight.View()));
              && deps.controllerLeft.View() == resetLeft.view
              && deps.controllerRight.View() == resetRight.view
              && sink.published == old(sink.published) + resetLeft.published + resetRight.published
    {
      ResetHand(Left, deps.controllerLeft);
      ResetHand(Right, deps.controllerRight);
    }

    /** The two `if (UsingLeftHand)` / `if (UsingRightHand)` blocks of HandleHandsInput. */
    method HeldHands(input: HandsInput) returns (outcome: FrameOutcome)
      requires deps.controllerLeft != null && deps.controllerRight != null && deps.controllerLeft != deps.controllerRight
      requires input.usingLeftHand && input.usingRightHand && deps.handGrabberLeft != null ==> deps.handGrabberLeft != deps.handGrabberRight
      modifies deps.controllerLeft, deps.controllerRight, sink, deps.handGrabberLeft, deps.handGrabberRight
      ensures outcome == GrabberCheck(input, deps.handGrabberLeft != null, deps.handGrabberRight != null)
      ensures var simLeft := SimulateIfHeld(Left, old(deps.controllerLeft.View()), input.usingLeftHand, input);
              var simRight := SimulateIfHeld(Right, old(deps.controllerRight.View()), input.usingRightHand && outcome != GrabberMissing(Left), input);
              && deps.controllerLeft.View() == simLeft.view
              && deps.controllerRight.View() == simRight.view
              && sink.published == old(sink.published) + simLeft.published + simRight.published
      ensures input.usingLeftHand && deps.handGrabberLeft != null ==>
        var step := HandGrabbing(old(deps.handGrabberLeft.View()), deps.controllerLeft.gripButtonState, deps.handGrabberLeft.isGrabbing);
        && deps.handGrabberLeft.View() == step.grabber
        && deps.handGrabberLeft.forceReleases == old(deps.handGrabberLeft.forceReleases) + (if step.forceRelease then 1 else 0)
      ensures input.usingRightHand && deps.handGrabberRight != null && outcome != GrabberMissing(Left) ==>
        var step := HandGrabbing(old(deps.handGrabberRight.View()), deps.controllerRight.gripButtonState, deps.handGrabberRight.isGrabbing);
        && deps.handGrabberRight.View() == step.grabber
        && deps.handGrabberRight.forceReleases == old(deps.handGrabberRight.forceReleases) + (if step.forceRelease then 1 else 0)
      ensures !input.usingLeftHand && deps.handGrabberLeft != null && (input.usingRightHand ==> deps.handGrabberLeft != deps.handGrabberRight) ==>
        unchanged(deps.handGrabberLeft)
      ensures (!input.usingRightHand || outcome == GrabberMissing(Left)) && deps.handGrabberRight != null
              && (input.usingLeftHand ==> deps.handGrabberLeft != deps.handGrabberRight) ==>
        unchanged(deps.handGrabberRight)
    {
      var leftMissing := HeldHand(Left, deps.controllerLeft, deps.handGrabberLeft, input.usingLeftHand, input);
      if leftMissing {
        return GrabberMissing(Left);
      }
      var rightMissing := HeldHand(Right, deps.controllerRight, deps.handGrabberRight, input.usingRightHand, input);
      if rightMissing {
        return GrabberMissing(Right);
      }
      return Completed;
    }

    /** The five ResetButtonOnActivate calls HandleHandsInput makes on one controller. */
    method ResetHand(side: HandSide, controller: Controller)
      modifies controller, sink
      ensures var step := ResetAll(side, old(controller.View()));
              controller.View() == step.view && sink.published == old(sink.published) + step.published
    {
      ghost var log := sink.published;
      ghost var c := controller.View();
      ghost var g := ResetOnActivate(side, Grip, c.gripState);
      ghost var t := ResetOnActivate(side, Trigger, c.triggerState);
      ghost var p := ResetOnActivate(side, Primary, c.primaryState);
      ghost var s := ResetOnActivate(side, Secondary, c.secondaryState);
      ghost var j := ResetOnActivate(side, JoystickButton, c.joystickState);
      controller.gripButtonState := ResetButtonOnActivate(side, Grip, controller.gripButtonState);
      controller.triggerButtonState := ResetButtonOnActivate(side, Trigger, controller.triggerButtonState);
      controller.primaryButtonState := ResetButtonOnActivate(side, Primary, controller.primaryButtonState);
      controller.secondaryButtonState := ResetButtonOnActivate(side, Secondary, controller.secondaryButtonState);
      controller.joystickButtonState := ResetButtonOnActivate(side, JoystickButton, controller.joystickButtonState);
      RegroupFive(log, g.published, t.published, p.published, s.published, j.published);
    }

    /** The `if (UsingLeftHand)` / `if (UsingRightHand)` block of HandleHandsInput for one hand:
        the buttons are simulated first, so a null grabber throws only after their publications.
        Returns whether it threw. */
    method HeldHand(side: HandSide, controller: Controller, grabber: Grabber?, held: bool, input: HandsInput)
      returns (grabberMissing: bool)
      modifies controller, sink, grabber
      ensures grabberMissing <==> held && grabber == null
      ensures var step := SimulateIfHeld(side, old(controller.View()), held, input);
              controller.View() == step.view && sink.published == old(sink.published) + step.published
      ensures held && grabber != null ==>
        var step := HandGrabbing(old(grabber.View()), controller.gripButtonState, grabber.isGrabbing);
        && grabber.View() == step.grabber
        && grabber.forceReleases == old(grabber.forceReleases) + (if step.forceRelease then 1 else 0)
      ensures !held && grabber != null ==> unchanged(grabber)
    {
      if held {
        SimulateHand(side, controller, input);
        if grabber == null {
          return true;
        }
        HandleHandGrabbing(grabber, controller);
      }
      return false;
    }

    /** The five simulate calls of a held hand. */
    method SimulateHand(side: HandSide, controller: Controller, input: HandsInput)
      modifies controller, sink
      ensures var step := SimulateAll(side, old(controller.View()), input);
              controller.View() == step.view && sink.published == old(sink.published) + step.published
    {
      ghost var log := sink.published;
      ghost var c := controller.View();
      ghost var g := PressOutcome(side, Grip, c.gripState, c.grip, input.gripPressed);
      ghost var t := PressOutcome(side, Trigger, c.triggerState, c.trigger, input.triggerPressed);
      SimulatePresses(side, controller, input);
      ghost var c2 := controller.View();
      ghost var p := ClickOutcome(side, Primary, c2.primaryState, c2.primaryButton, input.primaryButtonStarted);
      ghost var s := ClickOutcome(side, Secondary, c2.secondaryState, c2.secondaryButton, input.secondaryButtonStarted);
      ghost var j := ClickOutcome(side, JoystickButton, c2.joystickState, c2.joystickClicked, input.joystickButtonStarted);
      SimulateClicks(side, controller, input);
      RegroupFive(log, g.published, t.published, p.published, s.published, j.published);
    }

    method SimulatePresses(side: HandSide, controller: Controller, input: HandsInput)
      modifies controller, sink
      ensures var c := old(controller.View());
              var g := PressOutcome(side, Grip, c.gripState, c.grip, input.gripPressed);
              var t := PressOutcome(side, Trigger, c.triggerState, c.trigger, input.triggerPressed);
              && controller.View() == c.(gripState := g.state, grip := g.stored, triggerState := t.state, trigger := t.stored)
              && sink.published == old(sink.published) + g.published + t.published
    {
      controller.gripButtonState, controller.grip :=
        SimulateButtonPress(side, Grip, controller.gripButtonState, controller.grip, input.gripPressed);
      controller.triggerButtonState, controller.trigger :=
        SimulateButtonPress(side, Trigger, controller.triggerButtonState, controller.trigger, input.triggerPressed);
    }

    method SimulateClicks(side: HandSide, controller: Controller, input: HandsInput)
      modifies controller, sink
      ensures var c := old(controller.View());
              var p := ClickOutcome(side, Primary, c.primaryState, c.primaryButton, input.primaryButtonStarted);
              var s := ClickOutcome(side, Secondary, c.secondaryState, c.secondaryButton, input.secondaryButtonStarted);
              var j := ClickOutcome(side, JoystickButton, c.joystickState, c.joystickClicked, input.joystickButtonStarted);
              && controller.View() == c.(primaryState := p.state, primaryButton := p.stored,
                                         secondaryState := s.state, secondaryButton := s.stored,
                                         joystickState := j.state, joystickClicked := j.stored)
              && sink.published == old(sink.published) + p.published + s.published + j.published
    {
      controller.primaryButtonState, controller.primaryButton :=
        SimulateButtonClick(side, Primary, controller.primaryButtonState, controller.primaryButton, input.primaryButtonStarted);
      controller.secondaryButtonState, controller.secondaryButton :=
        SimulateButtonClick(side, Secondary, controller.secondaryButtonState, controller.secondaryButton, input.secondaryButtonStarted);
      controller.joystickButtonState, controller.joystickClicked :=
        SimulateButtonClick(side, JoystickButton, controller.joystickButtonState, controller.joystickClicked, input.joystickButtonStarted);
    }
  }
}
