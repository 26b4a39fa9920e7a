/**
 * Three-component vectors over `real`, the subset of three.js `Vector3`
 * that the movement core uses. Floating-point rounding is not modelled.
 */
module Vectors {

  datatype Vec3 = Vec3(x: real, y: real, z: real)

  const Zero: Vec3 := Vec3(0.0, 0.0, 0.0)

  function Add(a: Vec3, b: Vec3): Vec3 {
    Vec3(a.x + b.x, a.y + b.y, a.z + b.z)
  }

  function Sub(a: Vec3, b: Vec3): Vec3 {
    Vec3(a.x - b.x, a.y - b.y, a.z - b.z)
  }

  /** `multiplyScalar` */
  function Scale(v: Vec3, k: real): Vec3 {
    Vec3(v.x * k, v.y * k, v.z * k)
  }

  /** `Math.abs` */
  function Abs(r: real): (a: real)
    ensures a >= 0.0 && (a == r || a == -r)
  {
    if r < 0.0 then -r else r
  }

  /** `Math.min` */
  function Min(a: real, b: real): (m: real)
    ensures m <= a && m <= b && (m == a || m == b)
  {
    if a <= b then a else b
  }

  /** `Math.max` */
  function Max(a: real, b: real): (m: real)
    ensures m >= a && m >= b && (m == a || m == b)
  {
    if a >= b then a else b
  }

  /**
   * `normalize()`: divide by the length, or by 1 when the length is 0.
   * The length itself (a square root) is supplied by the caller as `norm`.
   */
  function Normalize(v: Vec3, norm: Vec3 -> real): Vec3 {
    var len := norm(v);
    if len == 0.0 then v else Scale(v, 1.0 / len)
  }

  /** The zero vector is left as it is; any other vector is its normalisation times its length. */
  lemma NormalizeInverse(v: Vec3, norm: Vec3 -> real)
    ensures norm(v) == 0.0 ==> Normalize(v, norm) == v
    ensures norm(v) != 0.0 ==> Scale(Normalize(v, norm), norm(v)) == v
  {
  }
}
