/**
 The value types the solvers work on, and the geometry kernel they call.

 Vectors are exact: subtraction, addition and division by a scalar are the
 only vector arithmetic the solvers perform themselves.  Everything else the
 kernel provides (normalisation, angles, centres, projections, plane fitting,
 quaternion constructors) is foreign floating-point code; it is kept
 uninterpreted by passing it in as a record of functions, so every property
 proved here holds for every possible kernel.
 */
module Geometry {

  /** A landmark or direction; `Vector3` of the kernel, with exact coordinates. */
  datatype Vec3 = Vec3(x: real, y: real, z: real)
  {
    function Plus(o: Vec3): Vec3 { Vec3(x + o.x, y + o.y, z + o.z) }

    function Minus(o: Vec3): Vec3 { Vec3(x - o.x, y - o.y, z - o.z) }

    /** `v / 2.0`, the only division by a scalar the solvers perform. */
    function Halved(): Vec3 { Vec3(x / 2.0, y / 2.0, z / 2.0) }
  }

  /** `Vector3::ZERO`. */
  const Zero: Vec3 := Vec3(0.0, 0.0, 0.0)

  function SqLen(v: Vec3): real { v.x * v.x + v.y * v.y + v.z * v.z }

  function SqDist(a: Vec3, b: Vec3): real { SqLen(a.Minus(b)) }

  /** The cross product; used only to state which axis remaps keep handedness. */
  function Cross(a: Vec3, b: Vec3): Vec3
  {
    Vec3(a.y * b.z - a.z * b.y, a.z * b.x - a.x * b.z, a.x * b.y - a.y * b.x)
  }

  /** A 32-bit float as stored in an angle table: `f32::NAN` or a number. */
  datatype Float = NaN | Num(v: real)

  /** `f *= -1.0`: NaN stays NaN, a number changes sign. */
  function Negate(f: Float): (r: Float)
    ensures r.NaN? <==> f.NaN?
    ensures f.Num? ==> r.v == -f.v
  {
    match f
    case NaN => NaN
    case Num(v) => Num(-v)
  }

  /** `Face::from_vecs(a, b, c, [0, 1, 2])`: the plane fitted through three points. */
  datatype Plane = Plane(a: Vec3, b: Vec3, c: Vec3)

  /**
   The geometry kernel, with the quaternion type `Q` left abstract.
   `nanVec`, `nanQ` and `identity` are `Vector3::NAN`, `Quaternion::NAN` and
   `Quaternion::IDENTITY`; `track(v, a, b)` is `from_vec_to_track_quat`,
   `fromAxes` is `from_rotation_axes`, `sub` is quaternion subtraction.
   */
  datatype Kernel<!Q> = Kernel(
    nanVec: Vec3,
    normalize: Vec3 -> Vec3,
    neg: Vec3 -> Vec3,
    center: (Vec3, Vec3) -> Vec3,
    angle: (Vec3, Vec3) -> Float,
    project: (Vec3, Vec3) -> Vec3,
    normal: Plane -> Vec3,
    projectOnPlane: (Plane, Vec3) -> Vec3,
    nanQ: Q,
    identity: Q,
    fromAxes: (Vec3, Vec3, Vec3) -> Q,
    track: (Vec3, int, int) -> Q,
    rotX: Float -> Q,
    rotZ: Float -> Q,
    sub: (Q, Q) -> Q)

  /** A kernel whose plane normal depends only on the shape of the plane's triangle, not on where it sits. */
  ghost predicate NormalIgnoresPosition<Q>(k: Kernel<Q>)
  {
    forall a: Vec3, b: Vec3, c: Vec3, t: Vec3 {:trigger k.normal(Plane(a.Minus(t), b.Minus(t), c.Minus(t)))} :: k.normal(Plane(a.Minus(t), b.Minus(t), c.Minus(t))) == k.normal(Plane(a, b, c))
  }

  /** Translating both points by the same vector keeps their squared distance. */
  lemma TranslationKeepsDistance(a: Vec3, b: Vec3, t: Vec3)
    ensures SqDist(a.Minus(t), b.Minus(t)) == SqDist(a, b)
  {
    assert a.Minus(t).Minus(b.Minus(t)) == a.Minus(b);
  }
}
