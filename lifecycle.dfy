/** The outcomes of the Unity lifecycle calls that the hands and body simulators share:
    what a ResolveDependencies call decided and how a Start ends. */
module Lifecycle {
  datatype Option<T> = None | Some(value: T)

  /** The components a ResolveDependencies call looks up under the rig. */
  datatype Component =
    | TrackedControllers | Camera | HandGrabbers
    | PlayerControllerComponent | PlayerInputsComponent

  /** What a ResolveDependencies call decided: skipped (returns true), resolved, or the
      first missing component it logged before returning false. */
  datatype Resolution = AutoResolveOff | Resolved | Missing(component: Component)
  {
    predicate Succeeded()
    {
      !Missing?
    }
  }

  /** How a Start ends: disabled, started, or stopped by a NullReferenceException. */
  datatype StartOutcome = Disabled | Started | NullReference
}
