/**
 * The free-camera motion both editor cameras (and the oldest editor's
 * MoveCamera) share: a camera-relative translation is turned by the camera's
 * yaw, scaled by the movement speed and a speed modifier, and added to the
 * position; a rotation input is scaled by the rotation speed.
 */
module CameraMotion {
  import opened Geometry

  /** World units per tick per unit of translation input. */
  const CameraMovementSpeed: real := 0.1

  /** Degrees per unit of rotation input. */
  const CameraRotationSpeed: real := 360.0

  /**
   * The position after applying the translation input `delta` of one tick:
   * `position + RotateByYaw(delta, yaw) * CameraMovementSpeed * speedModifier`.
   * The vertical part of the input is not turned by the yaw.
   */
  function Translated(position: Vector3, rotation: Vector3, delta: Vector3, speedModifier: real, trig: Trig): (r: Vector3)
    ensures r.z == position.z + delta.z * CameraMovementSpeed * speedModifier
    ensures delta == Zero ==> r == position
    ensures speedModifier == 0.0 ==> r == position
  {
    var worldDelta := RotateByYaw(delta, rotation.z, trig);
    var step := Scale(Scale(worldDelta, CameraMovementSpeed), speedModifier);
    ScaledStepVanishes(worldDelta, CameraMovementSpeed, speedModifier);
    Add(position, step)
  }

  lemma ScaledStepVanishes(v: Vector3, k: real, m: real)
    ensures (v == Zero || m == 0.0) ==> Scale(Scale(v, k), m) == Zero
  {
    if m == 0.0 {
      assert v.x * k * m == 0.0 && v.y * k * m == 0.0 && v.z * k * m == 0.0;
    }
  }
}
