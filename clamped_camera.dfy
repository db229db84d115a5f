/**
 * The free camera of the newest editor (Mapping/MapEditor/MapEditing/MapEditorCamera.cs).
 * Key handlers accumulate a camera-relative translation, a rotation and a
 * speed modifier during a tick; OnTick applies them to the host camera,
 * keeping the pitch within [-85, 85] degrees, and then resets them.
 */
module ClampedCamera {
  import opened Wrappers
  import opened Geometry
  import opened MathUtility
  import opened HostCalls
  import opened CameraMotion

  const MinCameraPitch: real := -85.0
  const MaxCameraPitch: real := 85.0

  /**
   * The rotation after applying the rotation input `delta` of one tick: pitch
   * turned and clamped to [-85, 85], roll kept (its input is dropped), yaw
   * turned without limit.
   */
  function Rotated(rotation: Vector3, delta: Vector3): (r: Vector3)
    ensures MinCameraPitch <= r.x <= MaxCameraPitch
    ensures MinCameraPitch <= rotation.x + delta.x * CameraRotationSpeed <= MaxCameraPitch ==>
      r.x == rotation.x + delta.x * CameraRotationSpeed
    ensures rotation.x + delta.x * CameraRotationSpeed < MinCameraPitch ==> r.x == MinCameraPitch
    ensures rotation.x + delta.x * CameraRotationSpeed > MaxCameraPitch ==> r.x == MaxCameraPitch
    ensures r.y == rotation.y
    ensures r.z == rotation.z + delta.z * CameraRotationSpeed
  {
    var localSpaceRelativeDeltaRotation := Vector3(delta.x, 0.0, delta.z);
    Vector3(
      ClampReal(rotation.x + localSpaceRelativeDeltaRotation.x * CameraRotationSpeed, MinCameraPitch, MaxCameraPitch),
      rotation.y + localSpaceRelativeDeltaRotation.y * CameraRotationSpeed,
      rotation.z + localSpaceRelativeDeltaRotation.z * CameraRotationSpeed)
  }

  /** Without rotation input a camera whose pitch is within the limits keeps its rotation. */
  lemma RotatedWithoutInput(rotation: Vector3)
    requires MinCameraPitch <= rotation.x <= MaxCameraPitch
    ensures Rotated(rotation, Zero) == rotation
  {
  }

  class MapEditorCamera {
    /** The host camera; None until the first Enter. */
    var camera: Option<HostCamera>
    var deltaRelativeTranslationThisTick: Vector3
    var deltaRelativeRotationThisTick: Vector3
    var speedModifierThisTick: real
    /** Scripted-camera switches issued to the host, in order. */
    ghost var hostCalls: seq<HostCall>

    /** No camera, no input, and a speed modifier of 0 (the field's default) until the first reset. */
    constructor ()
      ensures camera == None && hostCalls == []
      ensures deltaRelativeTranslationThisTick == Zero && deltaRelativeRotationThisTick == Zero
      ensures speedModifierThisTick == 0.0
    {
      camera := None;
      deltaRelativeTranslationThisTick := Zero;
      deltaRelativeRotationThisTick := Zero;
      speedModifierThisTick := 0.0;
      hostCalls := [];
    }

    /** The camera position, or the zero vector when there is no camera. */
    function Position(): (position: Vector3)
      reads this
      ensures camera.None? ==> position == Zero
      ensures camera.Some? ==> position == camera.value.position
    {
      PositionOf(camera)
    }

    /** The camera rotation, or the zero vector when there is no camera. */
    function Rotation(): (rotation: Vector3)
      reads this
      ensures camera.None? ==> rotation == Zero
      ensures camera.Some? ==> rotation == camera.value.rotation
    {
      RotationOf(camera)
    }

    /** Applies this tick's input, then clears it. */
    method OnTick(trig: Trig)
      modifies this`camera, this`deltaRelativeTranslationThisTick, this`deltaRelativeRotationThisTick, this`speedModifierThisTick
      ensures camera.None? <==> old(camera).None?
      ensures camera.Some? ==>
        var was := old(camera).value;
        camera.value == was.(
          position := Translated(was.position, was.rotation, old(deltaRelativeTranslationThisTick), old(speedModifierThisTick), trig),
          rotation := Rotated(was.rotation, old(deltaRelativeRotationThisTick)))
      ensures deltaRelativeTranslationThisTick == Zero && deltaRelativeRotationThisTick == Zero
      ensures speedModifierThisTick == 1.0
    {
      ApplyTranslation(trig);
      ApplyRotation();
      ResetInputs();
    }

    /** Creates an active camera at the player's pose and switches rendering to it. */
    method Enter(playerPosition: Vector3, playerRotation: Vector3)
      modifies this`camera, this`hostCalls
      ensures camera == Some(HostCamera(playerPosition, playerRotation, EditorCameraFieldOfView, true, false))
      ensures hostCalls == old(hostCalls) + [EnterScriptedCamera]
    {
      camera := Some(HostCamera(playerPosition, playerRotation, EditorCameraFieldOfView, false, false));
      camera := Some(camera.value.(isActive := true));
      hostCalls := hostCalls + [EnterScriptedCamera];
    }

    /**
     * Deactivates and deletes the camera and switches rendering back. The
     * reference is kept, so the pose stays readable. The source dereferences
     * the camera, so there must be one.
     */
    method Exit()
      requires camera.Some?
      modifies this`camera, this`hostCalls
      ensures camera == Some(old(camera).value.(isActive := false, isDeleted := true))
      ensures hostCalls == old(hostCalls) + [ExitScriptedCamera]
    {
      camera := Some(camera.value.(isActive := false));
      camera := Some(camera.value.(isDeleted := true));
      hostCalls := hostCalls + [ExitScriptedCamera];
    }

    /** Adds to this tick's translation input: several calls in one tick sum. */
    method Translate(amount: Vector3)
      modifies this`deltaRelativeTranslationThisTick
      ensures deltaRelativeTranslationThisTick == Add(old(deltaRelativeTranslationThisTick), amount)
    {
      deltaRelativeTranslationThisTick := Add(deltaRelativeTranslationThisTick, amount);
    }

    /** Adds to this tick's rotation input: several calls in one tick sum. */
    method Rotate(amount: Vector3)
      modifies this`deltaRelativeRotationThisTick
      ensures deltaRelativeRotationThisTick == Add(old(deltaRelativeRotationThisTick), amount)
    {
      deltaRelativeRotationThisTick := Add(deltaRelativeRotationThisTick, amount);
    }

    /** Overwrites this tick's speed modifier: the last call in a tick wins. */
    method SetSpeedModifierThisTick(speedModifier: real)
      modifies this`speedModifierThisTick
      ensures speedModifierThisTick == speedModifier
    {
      speedModifierThisTick := speedModifier;
    }

    method ApplyTranslation(trig: Trig)
      modifies this`camera
      ensures camera.None? <==> old(camera).None?
      ensures camera.Some? ==>
        camera.value == old(camera).value.(position := Translated(old(camera).value.position, old(camera).value.rotation,
                                                                  deltaRelativeTranslationThisTick, speedModifierThisTick, trig))
    {
      if camera.None? {
        return;
      }
      var cameraRotation := camera.value.rotation;
      var localSpaceRelativeDeltaTranslation := RotateByYaw(deltaRelativeTranslationThisTick, cameraRotation.z, trig);
      camera := Some(camera.value.(position := Add(camera.value.position,
        Scale(Scale(localSpaceRelativeDeltaTranslation, CameraMovementSpeed), speedModifierThisTick))));
    }

    method ApplyRotation()
      modifies this`camera
      ensures camera.None? <==> old(camera).None?
      ensures camera.Some? ==> camera.value == old(camera).value.(rotation := Rotated(old(camera).value.rotation, deltaRelativeRotationThisTick))
    {
      if camera.None? {
        return;
      }
      camera := Some(camera.value.(rotation := Rotated(camera.value.rotation, deltaRelativeRotationThisTick)));
    }

    method ResetInputs()
      modifies this`deltaRelativeTranslationThisTick, this`deltaRelativeRotationThisTick, this`speedModifierThisTick
      ensures deltaRelativeTranslationThisTick == Zero && deltaRelativeRotationThisTick == Zero
      ensures speedModifierThisTick == 1.0
    {
      deltaRelativeTranslationThisTick := Zero;
      deltaRelativeRotationThisTick := Zero;
      speedModifierThisTick := 1.0;
    }
  }
}
