/**
 * Vectors of the viewer over the reals, the symbolic view matrix, and the
 * floating-point primitives the model leaves uninterpreted.
 */
module Geometry {
  /** A glm::vec3; rounding is not modelled. */
  datatype Vec3 = Vec3(x: real, y: real, z: real)

  function Add(a: Vec3, b: Vec3): Vec3 { Vec3(a.x + b.x, a.y + b.y, a.z + b.z) }

  function Sub(a: Vec3, b: Vec3): Vec3 { Vec3(a.x - b.x, a.y - b.y, a.z - b.z) }

  function Scale(a: Vec3, s: real): Vec3 { Vec3(a.x * s, a.y * s, a.z * s) }

  function Cross(a: Vec3, b: Vec3): Vec3 {
    Vec3(a.y * b.z - a.z * b.y, a.z * b.x - a.x * b.z, a.x * b.y - a.y * b.x)
  }

  /** The fixed world up direction (0, 1, 0). */
  const WorldUp: Vec3 := Vec3(0.0, 1.0, 0.0)

  /** The matrix glm::lookAt(eye, center, up) builds, kept as its three arguments. */
  datatype View = LookAt(eye: Vec3, center: Vec3, up: Vec3)

  /**
   * glm::normalize; the spherical-to-Cartesian triple
   * (cos yaw * cos pitch, sin pitch, sin yaw * cos pitch) for angles in degrees;
   * and the (yaw, pitch) a new camera takes for a viewing direction.
   * Square roots, trigonometry and the camera constructor's angle bookkeeping are not interpreted.
   */
  datatype Numerics = Numerics(normalize: Vec3 -> Vec3, direction: (real, real) -> Vec3, angles: Vec3 -> (real, real))

  /** Vertical look angle limit, in degrees. */
  const PitchLimit: real := 89.0

  /** The pitch clamp: first against the upper limit, then against the lower one. */
  function ClampPitch(p: real): (r: real)
    ensures -PitchLimit <= r <= PitchLimit
    ensures -PitchLimit <= p <= PitchLimit ==> r == p
    ensures p > PitchLimit ==> r == PitchLimit
    ensures p < -PitchLimit ==> r == -PitchLimit
  {
    var upper := if p > PitchLimit then PitchLimit else p;
    if upper < -PitchLimit then -PitchLimit else upper
  }
}
