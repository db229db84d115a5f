/**
 * Vectors of the host's math library (RDR2.Math.Vector2 / Vector3), with the
 * host's single-precision floats modelled as reals.
 */
module Geometry {

  datatype Vector2 = Vector2(x: real, y: real)

  datatype Vector3 = Vector3(x: real, y: real, z: real)

  /** `new Vector3()` */
  const Zero: Vector3 := Vector3(0.0, 0.0, 0.0)

  /** The host library's unit vectors in camera-relative space. */
  const RelativeRight: Vector3 := Vector3(1.0, 0.0, 0.0)
  const RelativeLeft: Vector3 := Vector3(-1.0, 0.0, 0.0)
  const RelativeFront: Vector3 := Vector3(0.0, 1.0, 0.0)
  const RelativeBack: Vector3 := Vector3(0.0, -1.0, 0.0)
  const RelativeTop: Vector3 := Vector3(0.0, 0.0, 1.0)
  const RelativeBottom: Vector3 := Vector3(0.0, 0.0, -1.0)

  /** `a + b` */
  function Add(a: Vector3, b: Vector3): Vector3 {
    Vector3(a.x + b.x, a.y + b.y, a.z + b.z)
  }

  /** `v * k` */
  function Scale(v: Vector3, k: real): Vector3 {
    Vector3(v.x * k, v.y * k, v.z * k)
  }

  /**
   * Cosine and sine as the host computes them, taking an angle in degrees
   * (the source multiplies by DegreesToRadians and calls Math.Cos / Math.Sin).
   * Left uninterpreted: the model proves nothing that depends on their values.
   */
  datatype Trig = Trig(cos: real -> real, sin: real -> real)

  /**
   * Turns a camera-relative translation into world space using only the yaw
   * (rotation about the vertical axis): X follows the yaw direction, Y the
   * direction 90 degrees further, and the vertical component is kept as is.
   */
  function RotateByYaw(relative: Vector3, yawDegrees: real, trig: Trig): (r: Vector3)
    ensures r.z == relative.z
    ensures relative == Zero ==> r == Zero
  {
    Vector3(
      relative.x * trig.cos(yawDegrees) + relative.y * trig.cos(yawDegrees + 90.0),
      relative.x * trig.sin(yawDegrees) + relative.y * trig.sin(yawDegrees + 90.0),
      relative.z
    )
  }
}
