/** The parts of the closed HurricaneVR framework that the simulators read and write.
    The framework itself is not modelled: its objects appear here only as the fields the
    simulators touch, and its static entry points as recorders of what was passed to them. */
module Framework {

  datatype HandSide = Left | Right

  datatype Button = Grip | Trigger | Primary | Secondary | JoystickButton

  /** The HVRButtonState record. The source passes it by `ref` and mutates it through
      that reference, so it is a value type: the model holds it as a value in the controller's
      fields, and a `ref` parameter becomes the old value in and the new value out. */
  datatype ButtonState = ButtonState(active: bool, justActivated: bool, justDeactivated: bool, value: real)

  /** One call of the static HVRController.SetButtonState. */
  datatype Publication = Publication(side: HandSide, button: Button, state: ButtonState)

  /** Convert.ToInt16(bool) stored into a float field: 1 for true, 0 for false. */
  function ToInt16(b: bool): real
  {
    if b then 1.0 else 0.0
  }

  /** The static HVRController.SetButtonState: the model keeps every publication, in order. */
  class ButtonSink {
    var published: seq<Publication>

    constructor ()
      ensures published == []
    {
      published := [];
    }

    method SetButtonState(side: HandSide, button: Button, state: ButtonState)
      modifies this
      ensures published == old(published) + [Publication(side, button, state)]
    {
      published := published + [Publication(side, button, state)];
    }
  }

  /** The grabber fields the simulators decide on. */
  datatype GrabberView = GrabberView(isGrabbing: bool, canRelease: bool, allowGrabbing: bool)

  /** HVRHandGrabber. ForceRelease belongs to the framework: the model counts its calls and
      leaves open what IsGrabbing reads afterwards. */
  class Grabber {
    const handSide: HandSide
    var isGrabbing: bool
    var canRelease: bool
    var allowGrabbing: bool
    var forceReleases: nat

    constructor (side: HandSide, v: GrabberView)
      ensures handSide == side && View() == v && forceReleases == 0
    {
      handSide := side;
      isGrabbing, canRelease, allowGrabbing := v.isGrabbing, v.canRelease, v.allowGrabbing;
      forceReleases := 0;
    }

    function View(): GrabberView
      reads this
    {
      GrabberView(isGrabbing, canRelease, allowGrabbing)
    }

    /** The release itself is the framework's: the call is counted, and IsGrabbing may read
        anything afterwards (the frame allows it to change and nothing is promised about it).
        CanRelease and AllowGrabbing are taken to be left alone. */
    method ForceRelease()
      modifies this`forceReleases, this`isGrabbing
      ensures forceReleases == old(forceReleases) + 1
    {
      forceReleases := forceReleases + 1;
    }
  }

  /** HVRTrackedController: only its hand side matters to dependency resolution. */
  class TrackedController {
    const handSide: HandSide

    constructor (side: HandSide)
      ensures handSide == side
    {
      handSide := side;
    }
  }

  /** The per-button fields of an HVRController as one value: each record and the
      stored value the simulator compares against (Grip and Trigger are floats, the
      three buttons are bools). */
  datatype ControllerView = ControllerView(
    gripState: ButtonState, grip: real,
    triggerState: ButtonState, trigger: real,
    primaryState: ButtonState, primaryButton: bool,
    secondaryState: ButtonState, secondaryButton: bool,
    joystickState: ButtonState, joystickClicked: bool)

  /** HVRController: five button records and the five stored input values. */
  class Controller {
    var gripButtonState: ButtonState
    var triggerButtonState: ButtonState
    var primaryButtonState: ButtonState
    var secondaryButtonState: ButtonState
    var joystickButtonState: ButtonState
    var grip: real
    var trigger: real
    var primaryButton: bool
    var secondaryButton: bool
    var joystickClicked: bool

    constructor (v: ControllerView)
      ensures View() == v
    {
      gripButtonState, triggerButtonState, primaryButtonState := v.gripState, v.triggerState, v.primaryState;
      secondaryButtonState, joystickButtonState := v.secondaryState, v.joystickState;
      grip, trigger := v.grip, v.trigger;
      primaryButton, secondaryButton, joystickClicked := v.primaryButton, v.secondaryButton, v.joystickClicked;
    }

    function View(): ControllerView
      reads this
    {
      ControllerView(
        gripButtonState, grip, triggerButtonState, trigger, primaryButtonState, primaryButton,
        secondaryButtonState, secondaryButton, joystickButtonState, joystickClicked)
    }
  }
}
