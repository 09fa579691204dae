/** The body simulator of the earlier revision (Simulator/HVRBodySimulator.cs): the right mouse
    button latches turning on and off, the cursor is hidden while turning, every physics step
    turns the rig while the latch is set, and Start resolves the player components. */
module SimulatorBody {
  import opened Lifecycle

  /** HVRPlayerController: only whether it was found matters here. */
  class PlayerController {
    constructor ()
    {
    }
  }

  /** HVRPlayerInputs: the one field Start writes. */
  class PlayerInputs {
    var useWASD: bool

    constructor (useWASD: bool)
      ensures this.useWASD == useWASD
    {
      this.useWASD := useWASD;
    }
  }

  /** What GetComponentInChildren finds under the rig (null when nothing is found). */
  datatype BodyLookup = BodyLookup(playerController: PlayerController?, playerInputs: PlayerInputs?)

  /** One Update of the latch: a press this frame sets it, a release this frame clears it,
      and the release is tested second, so it wins when both happen in one frame. */
  function Latch(turning: bool, started: bool, ended: bool): (r: bool)
    ensures ended ==> !r
    ensures started && !ended ==> r
    ensures !started && !ended ==> r == turning
  {
    var afterStart := if started then true else turning;
    if ended then false else afterStart
  }

  /** One frame's mouse edges. */
  datatype TurnEdges = TurnEdges(started: bool, ended: bool)

  /** The latch after Updates with the given edges, one frame at a time. */
  function TurningAfter(turning: bool, frames: seq<TurnEdges>): bool
  {
    if frames == [] then turning
    else
      var last := frames[|frames| - 1];
      Latch(TurningAfter(turning, frames[..|frames| - 1]), last.started, last.ended)
  }

  /** What one frame says about the latch on its own: a release means off, a press alone on. */
  function EdgeOf(f: TurnEdges): Option<bool>
  {
    if f.ended then Some(false) else if f.started then Some(true) else None
  }

  /** The verdict of the latest frame that had an edge, scanning from the first frame. */
  function LastEdge(frames: seq<TurnEdges>): Option<bool>
  {
    if frames == [] then None
    else
      var rest := LastEdge(frames[1..]);
      if rest.Some? then rest else EdgeOf(frames[0])
  }

  /** Feeding two runs of frames one after the other is feeding their concatenation. */
  lemma {:induction false} TurningAfterAppend(turning: bool, a: seq<TurnEdges>, b: seq<TurnEdges>)
    ensures TurningAfter(turning, a + b) == TurningAfter(TurningAfter(turning, a), b)
  {
    if b != [] {
      assert (a + b)[..|a + b| - 1] == a + b[..|b| - 1];
      TurningAfterAppend(turning, a, b[..|b| - 1]);
    } else {
      assert a + b == a;
    }
  }

  /** The latch depends only on the latest frame with an edge: it is that frame's verdict,
      or the initial value when no frame had an edge. */
  lemma {:induction false} TurningFollowsLastEdge(turning: bool, frames: seq<TurnEdges>)
    ensures TurningAfter(turning, frames) == (if LastEdge(frames).Some? then LastEdge(frames).value else turning)
    decreases |frames|
  {
    if frames != [] {
      var first := frames[0];
      var firstAfter := TurningAfter(turning, [first]);
      assert frames == [first] + frames[1..];
      TurningAfterAppend(turning, [first], frames[1..]);
      TurningFollowsLastEdge(firstAfter, frames[1..]);
      assert [first][..0] == [];
    }
  }

  /** ResolveDependencies: skipped entirely when auto-resolution is off; otherwise the player
      controller is looked up and must be found before the player inputs are looked up. */
  function BodyResolution(autoResolve: bool, controllerFound: bool, inputsFound: bool): (r: Resolution)
    ensures r.Succeeded() <==> !autoResolve || (controllerFound && inputsFound)
    ensures r == AutoResolveOff <==> !autoResolve
    ensures r == Missing(PlayerControllerComponent) <==> autoResolve && !controllerFound
    ensures r == Missing(PlayerInputsComponent) <==> autoResolve && controllerFound && !inputsFound
  {
    if !autoResolve then AutoResolveOff
    else if !controllerFound then Missing(PlayerControllerComponent)
    else if !inputsFound then Missing(PlayerInputsComponent)
    else Resolved
  }

  /** HVRBodySimulator. Cursor.visible is a static of the engine; the model keeps it here.
      TurnRig is float rotation math, so the model only counts its calls. */
  class BodySimulator {
    var autoResolveDependencies: bool
    var enabled: bool
    var canMove: bool
    var playerController: PlayerController?
    var playerInputs: PlayerInputs?
    var isTurning: bool
    var cursorVisible: bool
    var turnRigCalls: nat

    constructor (autoResolve: bool, canMove: bool)
      ensures autoResolveDependencies == autoResolve && this.canMove == canMove && enabled
      ensures playerController == null && playerInputs == null
      ensures !isTurning && cursorVisible && turnRigCalls == 0
    {
      autoResolveDependencies := autoResolve;
      this.canMove := canMove;
      enabled := true;
      playerController, playerInputs := null, null;
      isTurning := false;
      cursorVisible := true;
      turnRigCalls := 0;
    }

    /** Start: a failed resolution disables the component; otherwise the player inputs take
        the canMove setting. With auto-resolution on, a successful resolution always leaves
        the player inputs assigned, so only the skipped resolution can hit a null reference.
        The two slots end as ResolveDependencies left them, and no player inputs object other
        than the one that takes canMove is written, on any outcome. */
    method Start(rig: BodyLookup) returns (outcome: StartOutcome)
      modifies this, rig.playerInputs, playerInputs
      ensures var resolution := BodyResolution(old(autoResolveDependencies), rig.playerController != null, rig.playerInputs != null);
              && (outcome == Disabled <==> !resolution.Succeeded())
              && (outcome == NullReference <==> resolution == AutoResolveOff && old(playerInputs) == null)
      ensures enabled == (old(enabled) && outcome != Disabled)
      ensures outcome == Started ==> playerInputs != null && playerInputs.useWASD == canMove
      ensures old(autoResolveDependencies) && outcome != Disabled ==> outcome == Started && playerInputs == rig.playerInputs
      ensures playerController == (if old(autoResolveDependencies) then rig.playerController else old(playerController))
      ensures playerInputs == (if old(autoResolveDependencies) && rig.playerController != null then rig.playerInputs else old(playerInputs))
      ensures var written: PlayerInputs? := if outcome == Started then playerInputs else null;
              && (rig.playerInputs != null && rig.playerInputs != written ==> unchanged(rig.playerInputs))
              && (old(playerInputs) != null && old(playerInputs) != written ==> unchanged(old(playerInputs)))
      ensures canMove == old(canMove) && autoResolveDependencies == old(autoResolveDependencies)
      ensures isTurning == old(isTurning) && cursorVisible == old(cursorVisible) && turnRigCalls == old(turnRigCalls)
    {
      var resolved := ResolveDependencies(rig);
      if !resolved {
        enabled := false;
        return Disabled;
      }
      if playerInputs == null {
        return NullReference;
      }
      playerInputs.useWASD := canMove;
      return Started;
    }

    /** Update: the latch moves by this frame's edges and the cursor shows exactly when not turning. */
    method Update(hasTurningStarted: bool, hasTurningEnded: bool)
      modifies this`isTurning, this`cursorVisible
      ensures isTurning == Latch(old(isTurning), hasTurningStarted, hasTurningEnded)
      ensures cursorVisible == !isTurning
    {
      if hasTurningStarted {
        isTurning := true;
      }
      if hasTurningEnded {
        isTurning := false;
      }
      cursorVisible := !isTurning;
    }

    /** FixedUpdate: TurnRig runs once per physics step exactly while the latch is set.
        Returns whether TurnRig hit a null player controller. */
    method FixedUpdate() returns (nullReference: bool)
      modifies this`turnRigCalls
      ensures nullReference <==> isTurning && playerController == null
      ensures turnRigCalls == old(turnRigCalls) + (if isTurning && !nullReference then 1 else 0)
    {
      nullReference := false;
      if isTurning {
        nullReference := TurnRig();
      }
    }

    /** TurnRig: the rotation is float math, so only a completed turn is counted; it
        dereferences the player controller first, which throws when the slot is null
        (always the case when auto-resolution is off, since nothing else assigns it). */
    method TurnRig() returns (nullReference: bool)
      modifies this`turnRigCalls
      ensures nullReference <==> playerController == null
      ensures turnRigCalls == old(turnRigCalls) + (if nullReference then 0 else 1)
    {
      if playerController == null {
        return true;
      }
      turnRigCalls := turnRigCalls + 1;
      return false;
    }

    /** ResolveDependencies: the player controller slot is assigned before it is checked, and
        the player inputs are looked up only once the controller was found. */
    method ResolveDependencies(rig: BodyLookup) returns (resolved: bool)
      modifies this`playerController, this`playerInputs
      ensures resolved == BodyResolution(autoResolveDependencies, rig.playerController != null, rig.playerInputs != null).Succeeded()
      ensures !autoResolveDependencies ==> playerController == old(playerController) && playerInputs == old(playerInputs)
      ensures autoResolveDependencies ==> playerController == rig.playerController
      ensures autoResolveDependencies && rig.playerController != null ==> playerInputs == rig.playerInputs
      ensures autoResolveDependencies && rig.playerController == null ==> playerInputs == old(playerInputs)
    {
      if !autoResolveDependencies {
        return true;
      }
      playerController := rig.playerController;
      if playerController == null {
        return false;
      }
      playerInputs := rig.playerInputs;
      if playerInputs == null {
        return false;
      }
      return true;
    }
  }
}
