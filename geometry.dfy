/** Points and axis-aligned boxes with the semantics of three.js `Vector3` and `Box3`,
    over exact reals. */
module Geometry {

  datatype Vec3 = Vec3(x: real, y: real, z: real)

  const Origin: Vec3 := Vec3(0.0, 0.0, 0.0)

  function Add(a: Vec3, b: Vec3): Vec3 {
    Vec3(a.x + b.x, a.y + b.y, a.z + b.z)
  }

  function Max(a: real, b: real): real { if a >= b then a else b }

  function Min(a: real, b: real): real { if a <= b then a else b }

  function Abs(a: real): real { if a < 0.0 then -a else a }

  /** `THREE.MathUtils.lerp(x, y, t)`, which three.js computes as `(1 - t) * x + t * y`. */
  function Lerp(x: real, y: real, t: real): (r: real)
    ensures t == 0.0 ==> r == x
    ensures t == 1.0 ==> r == y
  {
    (1.0 - t) * x + t * y
  }

  /** `Vector3.lerp(v, alpha)` in place: each coordinate moves the fraction `alpha`
      of the remaining distance toward `v`. */
  function Approach(a: Vec3, b: Vec3, alpha: real): (r: Vec3)
    ensures alpha == 0.0 ==> r == a
    ensures alpha == 1.0 ==> r == b
    ensures a == b ==> r == b
  {
    Vec3(a.x + (b.x - a.x) * alpha, a.y + (b.y - a.y) * alpha, a.z + (b.z - a.z) * alpha)
  }

  /** One smoothing step scales the remaining gap to the target by `1 - alpha`
      on every axis: the camera approaches its target exponentially, never by a jump
      (for 0 < alpha < 1). */
  lemma ApproachGap(a: Vec3, b: Vec3, alpha: real)
    ensures b.x - Approach(a, b, alpha).x == (1.0 - alpha) * (b.x - a.x)
    ensures b.y - Approach(a, b, alpha).y == (1.0 - alpha) * (b.y - a.y)
    ensures b.z - Approach(a, b, alpha).z == (1.0 - alpha) * (b.z - a.z)
  {
  }

  /** Rotation about the vertical axis, as `applyAxisAngle((0, 1, 0), θ)` does it,
      given `sin θ` and `cos θ`. */
  function RotateY(v: Vec3, sinY: real, cosY: real): (r: Vec3)
    ensures r.y == v.y
    ensures sinY == 0.0 && cosY == 1.0 ==> r == v
    ensures sinY == 1.0 && cosY == 0.0 ==> r == Vec3(v.z, v.y, -v.x)
  {
    Vec3(v.x * cosY + v.z * sinY, v.y, v.z * cosY - v.x * sinY)
  }

  /** A rotation about the vertical axis keeps the height and, for a genuine angle,
      the horizontal length. */
  lemma RotateYKeepsLength(v: Vec3, sinY: real, cosY: real)
    requires sinY * sinY + cosY * cosY == 1.0
    ensures RotateY(v, sinY, cosY).y == v.y
    ensures var r := RotateY(v, sinY, cosY); r.x * r.x + r.z * r.z == v.x * v.x + v.z * v.z
  {
  }

  /** An axis-aligned box `Box3(min, max)`. */
  datatype Box = Box(min: Vec3, max: Vec3)

  /** `Box3.setFromCenterAndSize(center, size)`: half the size on each side of the centre. */
  function FromCenterAndSize(center: Vec3, size: Vec3): (b: Box)
    ensures b.max.x - b.min.x == size.x && b.max.y - b.min.y == size.y && b.max.z - b.min.z == size.z
    ensures (b.min.x + b.max.x) / 2.0 == center.x
    ensures (b.min.y + b.max.y) / 2.0 == center.y
    ensures (b.min.z + b.max.z) / 2.0 == center.z
  {
    var half := Vec3(size.x * 0.5, size.y * 0.5, size.z * 0.5);
    Box(Vec3(center.x - half.x, center.y - half.y, center.z - half.z),
        Vec3(center.x + half.x, center.y + half.y, center.z + half.z))
  }

  /** `Box3.intersectsBox`: the closed boxes overlap on all three axes (touching counts). */
  predicate Intersects(a: Box, b: Box): (r: bool)
    ensures r <==> !(a.max.x < b.min.x || b.max.x < a.min.x ||
                     a.max.y < b.min.y || b.max.y < a.min.y ||
                     a.max.z < b.min.z || b.max.z < a.min.z)
  {
    b.max.x >= a.min.x && b.min.x <= a.max.x &&
    b.max.y >= a.min.y && b.min.y <= a.max.y &&
    b.max.z >= a.min.z && b.min.z <= a.max.z
  }

  /** `Box3.containsBox`: `inner` lies within `outer`, boundaries included. */
  predicate ContainsBox(outer: Box, inner: Box): (r: bool)
    ensures r && inner.min.x <= inner.max.x && inner.min.y <= inner.max.y && inner.min.z <= inner.max.z
      ==> Intersects(outer, inner)
    ensures outer == inner ==> r
  {
    outer.min.x <= inner.min.x && inner.max.x <= outer.max.x &&
    outer.min.y <= inner.min.y && inner.max.y <= outer.max.y &&
    outer.min.z <= inner.min.z && inner.max.z <= outer.max.z
  }
}
