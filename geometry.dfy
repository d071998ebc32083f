/**
 * The engine's vector, quaternion and transform values, over the reals.
 * Single-precision rounding is not modelled.
 */
module Geometry {

  datatype Vec3 = Vec3(x: real, y: real, z: real)

  /** `Vector3.Zero` */
  const Zero := Vec3(0.0, 0.0, 0.0)

  /** `Vector3.Down`, the unit vector along negative Y */
  const Down := Vec3(0.0, -1.0, 0.0)

  function Add(a: Vec3, b: Vec3): Vec3 {
    Vec3(a.x + b.x, a.y + b.y, a.z + b.z)
  }

  /** `v * k` for a scalar `k` */
  function Scale(k: real, v: Vec3): Vec3 {
    Vec3(k * v.x, k * v.y, k * v.z)
  }

  function AbsReal(r: real): real {
    if r < 0.0 then -r else r
  }

  /** `Vector3.Abs`: the component-wise absolute value */
  function Abs(v: Vec3): Vec3 {
    Vec3(AbsReal(v.x), AbsReal(v.y), AbsReal(v.z))
  }

  /** `Vector3.MaxValue`: the largest of the three components */
  function MaxValue(v: Vec3): (m: real)
    ensures v.x <= m && v.y <= m && v.z <= m
    ensures m == v.x || m == v.y || m == v.z
  {
    var xy := if v.x < v.y then v.y else v.x;
    if xy < v.z then v.z else xy
  }

  /** A rotation quaternion, components in the engine's X, Y, Z, W order */
  datatype Quat = Quat(x: real, y: real, z: real, w: real)

  /** `Quaternion.Identity` */
  const Identity := Quat(0.0, 0.0, 0.0, 1.0)

  /** An actor's transform: position, orientation and scale */
  datatype Transform = Transform(translation: Vec3, orientation: Quat, scale: Vec3)
}
