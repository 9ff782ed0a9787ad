/**
 The face driver (src/face.rs): the first 468 mesh points are copied into a
 buffer, re-centred on a pivot between the cheeks and re-oriented, and four
 rotations are derived from it: the head basis, the chin tilt and the two
 mouth-corner angles.
 */
module Face {
  import opened Geometry
  import Hand

  /** Points of the canonical face mesh the driver reads. */
  const MeshSize := 468

  /** The face axis remap: (x, y, z) becomes (-x, z, -y). */
  function Remap(v: Vec3): Vec3 { Vec3(-v.x, v.z, -v.y) }

  /** The inverse of the face remap. */
  function Unmap(v: Vec3): Vec3 { Vec3(-v.x, -v.z, v.y) }

  /** The point the face is re-centred on: the centre of two cheek centres. */
  function Pivot<Q>(k: Kernel<Q>, d: seq<Vec3>): Vec3
    requires |d| == MeshSize
  {
    k.center(k.center(d[447], d[366]), k.center(d[137], d[227]))
  }

  /** What `set_face_origin` makes of the buffer: every point moved by the pivot, then remapped. */
  function Reoriented<Q>(k: Kernel<Q>, d: seq<Vec3>): seq<Vec3>
    requires |d| == MeshSize
  {
    var c := Pivot(k, d);
    seq(MeshSize, i requires 0 <= i < MeshSize => Remap(d[i].Minus(c)))
  }

  /** `Unmap` undoes `Remap`, in both orders. */
  lemma RemapInverse(v: Vec3)
    ensures Unmap(Remap(v)) == v && Remap(Unmap(v)) == v
  {
  }

  /** Re-orientation loses nothing: unmapping a point and adding the pivot back gives the input point. */
  lemma ReorientRoundTrip<Q>(k: Kernel<Q>, d: seq<Vec3>)
    requires |d| == MeshSize
    ensures forall i :: 0 <= i < MeshSize ==> Unmap(Reoriented(k, d)[i]).Plus(Pivot(k, d)) == d[i]
  {
    forall i | 0 <= i < MeshSize
      ensures Unmap(Reoriented(k, d)[i]).Plus(Pivot(k, d)) == d[i]
    {
      RemapInverse(d[i].Minus(Pivot(k, d)));
    }
  }

  /** Re-orientation is rigid: distances between mesh points are unchanged. */
  lemma ReorientIsRigid<Q>(k: Kernel<Q>, d: seq<Vec3>, i: int, j: int)
    requires |d| == MeshSize && 0 <= i < MeshSize && 0 <= j < MeshSize
    ensures SqDist(Reoriented(k, d)[i], Reoriented(k, d)[j]) == SqDist(d[i], d[j])
  {
    var c := Pivot(k, d);
    assert Remap(d[i].Minus(c)).Minus(Remap(d[j].Minus(c))) == Remap(d[i].Minus(c).Minus(d[j].Minus(c)));
    TranslationKeepsDistance(d[i], d[j], c);
  }

  /**
   Unlike the hand remap, the face remap is a reflection: it turns cross
   products around, so a right-handed frame comes out left-handed.
   */
  lemma RemapMirrors(a: Vec3, b: Vec3)
    ensures Cross(Remap(a), Remap(b)) == Zero.Minus(Remap(Cross(a, b)))
  {
  }

  /** The hand and face remaps agree in x and y and differ exactly in the sign of the new z. */
  lemma RemapsDifferInZ(v: Vec3)
    ensures Remap(v).x == Hand.Remap(v).x && Remap(v).y == Hand.Remap(v).y
    ensures Remap(v).z == -Hand.Remap(v).z
    ensures Remap(v) == Hand.Remap(v) <==> v.y == 0.0
  {
  }

  // ---------------------------------------------------------------------
  // The three rotation writers, as pure functions of the re-oriented buffer

  /** `face_rotation`: axes from the cheek centre, the nose centre and the chin point, in that order. */
  function FaceBasis<Q>(k: Kernel<Q>, d: seq<Vec3>): Q
    requires |d| == MeshSize
  {
    var normal := k.center(d[1], d[4]);
    var tangent := k.center(d[447], d[366]);
    var binormal := d[152];
    k.fromAxes(tangent, normal, binormal)
  }

  /** The chin calibration `(angle - 0.314159) * 1.15`; a NaN angle stays NaN. */
  function ChinTilt(angle: Float): Float
  {
    match angle
    case NaN => NaN
    case Num(v) => Num((v - 0.314159) * 1.15)
  }

  /** A vector with its x component set to zero. */
  function DropX(v: Vec3): Vec3 { v.(x := 0.0) }

  /** `chin_rotation`: the tilt between nose and chin directions from landmark 168, seen in the y-z plane. */
  function ChinRotation<Q>(k: Kernel<Q>, d: seq<Vec3>): Q
    requires |d| == MeshSize
  {
    var noseDir := DropX(d[2].Minus(d[168]));
    var chinDir := DropX(d[200].Minus(d[168]));
    k.rotX(ChinTilt(k.angle(noseDir, chinDir)))
  }

  /** The two mouth-corner angles: `left` is measured at landmark 291, `right` at landmark 61. */
  datatype Corners = Corners(left: Float, right: Float)

  /**
   The corner centre moved by the projection of (corner centre - landmark 0)
   onto the lip axis from landmark 0 to landmark 17.  This is not a point on
   the lip axis: the projection is added to the corner centre, not to landmark 0.
   */
  function ProjectedCentre<Q>(k: Kernel<Q>, d: seq<Vec3>): Vec3
    requires |d| == MeshSize
  {
    var cornerCentre := k.center(d[61], d[291]);
    cornerCentre.Plus(k.project(cornerCentre.Minus(d[0]), d[17].Minus(d[0])))
  }

  /** The foot of the corner centre on the lip axis, as the comment beside `projected_center` describes it. */
  function LipAxisPoint<Q>(k: Kernel<Q>, d: seq<Vec3>): Vec3
    requires |d| == MeshSize
  {
    var cornerCentre := k.center(d[61], d[291]);
    d[0].Plus(k.project(cornerCentre.Minus(d[0]), d[17].Minus(d[0])))
  }

  /**
   The point the code uses is off the lip-axis point by exactly the offset of
   the corner centre from landmark 0; the two agree only when that offset is zero.
   */
  lemma ProjectedCentreOffAxis<Q>(k: Kernel<Q>, d: seq<Vec3>)
    requires |d| == MeshSize
    ensures ProjectedCentre(k, d) == LipAxisPoint(k, d).Plus(k.center(d[61], d[291]).Minus(d[0]))
    ensures ProjectedCentre(k, d) == LipAxisPoint(k, d) <==> k.center(d[61], d[291]) == d[0]
  {
    var c := k.center(d[61], d[291]);
    var p := k.project(c.Minus(d[0]), d[17].Minus(d[0]));
    if ProjectedCentre(k, d) == LipAxisPoint(k, d) {
      assert c.Plus(p).x == d[0].Plus(p).x && c.Plus(p).y == d[0].Plus(p).y && c.Plus(p).z == d[0].Plus(p).z;
    }
  }

  /** The centre between the upper and the lower lip. */
  function HeightCentre<Q>(k: Kernel<Q>, d: seq<Vec3>): Vec3
    requires |d| == MeshSize
  {
    k.center(d[0], d[17])
  }

  /** The corner angles before the sign correction. */
  function RawCorners<Q>(k: Kernel<Q>, d: seq<Vec3>): Corners
    requires |d| == MeshSize
  {
    var pc := ProjectedCentre(k, d);
    var hc := HeightCentre(k, d);
    Corners(k.angle(d[291].Minus(pc), d[291].Minus(hc)), k.angle(d[61].Minus(pc), d[61].Minus(hc)))
  }

  /** Whether the mouth-height centre lies below the projected centre in z, which flips both signs. */
  predicate CornersFlipped<Q>(k: Kernel<Q>, d: seq<Vec3>)
    requires |d| == MeshSize
  {
    HeightCentre(k, d).z < ProjectedCentre(k, d).z
  }

  /** `mouth_corner_angles` up to the two quaternion constructors. */
  function MouthCorners<Q>(k: Kernel<Q>, d: seq<Vec3>): Corners
    requires |d| == MeshSize
  {
    var raw := RawCorners(k, d);
    if CornersFlipped(k, d) then Corners(Negate(raw.left), Negate(raw.right)) else raw
  }

  /** The four rotations `main` returns: basis, chin, left corner, right corner. */
  function FaceRotations<Q>(k: Kernel<Q>, d: seq<Vec3>): seq<Q>
    requires |d| == MeshSize
  {
    var corners := MouthCorners(k, d);
    [FaceBasis(k, d), ChinRotation(k, d), k.rotZ(corners.left), k.rotZ(corners.right)]
  }

  // ---------------------------------------------------------------------
  // Properties of the writers

  /** The head basis reads only landmarks 1, 4, 152, 366 and 447. */
  lemma FaceBasisLandmarks<Q>(k: Kernel<Q>, d: seq<Vec3>, e: seq<Vec3>)
    requires |d| == MeshSize && |e| == MeshSize
    requires d[1] == e[1] && d[4] == e[4] && d[152] == e[152] && d[366] == e[366] && d[447] == e[447]
    ensures FaceBasis(k, d) == FaceBasis(k, e)
  {
  }

  /** The chin calibration maps the rest angle 0.314159 to zero, keeps NaN, and is strictly increasing. */
  lemma ChinTiltCalibrated(a: Float, b: Float)
    ensures ChinTilt(Num(0.314159)) == Num(0.0)
    ensures ChinTilt(a).NaN? <==> a.NaN?
    ensures a.Num? && b.Num? ==> (a.v < b.v <==> ChinTilt(a).v < ChinTilt(b).v)
  {
  }

  /**
   The chin tilt ignores the x coordinates of landmarks 2, 168 and 200, and
   every other landmark.
   */
  lemma ChinIgnoresX<Q>(k: Kernel<Q>, d: seq<Vec3>, e: seq<Vec3>)
    requires |d| == MeshSize && |e| == MeshSize
    requires forall i :: i in {2, 168, 200} ==> d[i].y == e[i].y && d[i].z == e[i].z
    ensures ChinRotation(k, d) == ChinRotation(k, e)
  {
    assert DropX(d[2].Minus(d[168])) == DropX(e[2].Minus(e[168]));
    assert DropX(d[200].Minus(d[168])) == DropX(e[200].Minus(e[168]));
  }

  /**
   The two corner angles are flipped together or not at all: both are negated
   exactly when the height centre is below the projected centre in z.
   */
  lemma CornersFlipTogether<Q>(k: Kernel<Q>, d: seq<Vec3>)
    requires |d| == MeshSize
    ensures var c, raw := MouthCorners(k, d), RawCorners(k, d);
      (c.left == Negate(raw.left) && c.right == Negate(raw.right)) || (c.left == raw.left && c.right == raw.right)
    ensures var c, raw := MouthCorners(k, d), RawCorners(k, d);
      raw.left.Num? && raw.left.v != 0.0 ==> (c.left != raw.left <==> CornersFlipped(k, d))
    ensures var c, raw := MouthCorners(k, d), RawCorners(k, d);
      raw.right.Num? && raw.right.v != 0.0 ==> (c.right != raw.right <==> CornersFlipped(k, d))
    ensures var c := MouthCorners(k, d);
      c.left.Num? && c.right.Num? ==> c.left.v * c.right.v == RawCorners(k, d).left.v * RawCorners(k, d).right.v
  {
  }

  /**
   For a kernel whose `center` is symmetric, mirroring the mouth corners
   (swapping landmarks 61 and 291) swaps the left and right corner angles.
   */
  lemma MirroredMouthSwapsCorners<Q>(k: Kernel<Q>, d: seq<Vec3>)
    requires |d| == MeshSize
    requires k.center(d[61], d[291]) == k.center(d[291], d[61])
    ensures var e := d[61 := d[291]][291 := d[61]];
      MouthCorners(k, e) == Corners(MouthCorners(k, d).right, MouthCorners(k, d).left)
  {
    var e := d[61 := d[291]][291 := d[61]];
    assert ProjectedCentre(k, e) == ProjectedCentre(k, d);
    assert HeightCentre(k, e) == HeightCentre(k, d);
  }

  /** The corner angles read only landmarks 0, 17, 61 and 291. */
  lemma CornersLandmarks<Q>(k: Kernel<Q>, d: seq<Vec3>, e: seq<Vec3>)
    requires |d| == MeshSize && |e| == MeshSize
    requires d[0] == e[0] && d[17] == e[17] && d[61] == e[61] && d[291] == e[291]
    ensures MouthCorners(k, d) == MouthCorners(k, e)
  {
    assert ProjectedCentre(k, d) == ProjectedCentre(k, e);
  }

  // ---------------------------------------------------------------------
  // The driver, as the source runs it

  /** `main`: copy, re-centre and re-orient, then write slot 0, slots 2 and 3, and slot 1. */
  method Solve<Q>(k: Kernel<Q>, face: seq<Vec3>) returns (rot: array<Q>)
    requires |face| >= MeshSize
    ensures rot.Length == 4 && rot[..] == FaceRotations(k, Reoriented(k, face[..MeshSize]))
  {
    var data := ToVectors(k, face);
    SetFaceOrigin(k, data);
    rot := new Q[4](_ => k.nanQ);
    rot[0] := FaceBasis(k, data[..]);
    var corners := MouthCorners(k, data[..]);
    rot[2] := k.rotZ(corners.left);
    rot[3] := k.rotZ(corners.right);
    rot[1] := ChinRotation(k, data[..]);
  }

  /** `to_vectors`: a buffer of `Vector3::NAN` overwritten with the first 468 input points, in order. */
  method ToVectors<Q>(k: Kernel<Q>, face: seq<Vec3>) returns (data: array<Vec3>)
    requires |face| >= MeshSize
    ensures fresh(data) && data[..] == face[..MeshSize]
  {
    data := new Vec3[MeshSize](_ => k.nanVec);
    for i := 0 to MeshSize
      invariant data[..] == face[..i] + seq(MeshSize - i, _ => k.nanVec)
    {
      data[i] := face[i];
    }
  }

  /**
   `set_face_origin`: the pivot is taken once, before the loop; then every
   point is moved by it and remapped component by component.
   */
  method SetFaceOrigin<Q>(k: Kernel<Q>, data: array<Vec3>)
    requires data.Length == MeshSize
    modifies data
    ensures data[..] == Reoriented(k, old(data[..]))
  {
    var a := k.center(data[447], data[366]);
    var b := k.center(data[137], data[227]);
    var center := k.center(a, b);
    assert center == Pivot(k, data[..]);
    for i := 0 to MeshSize
      invariant forall j :: 0 <= j < i ==> data[j] == Remap(old(data[j]).Minus(center))
      invariant forall j :: i <= j < MeshSize ==> data[j] == old(data[j])
    {
      data[i] := data[i].Minus(center);
      var tmp := data[i];
      data[i] := data[i].(x := -tmp.x);
      data[i] := data[i].(y := tmp.z);
      data[i] := data[i].(z := -tmp.y);
    }
  }
}
