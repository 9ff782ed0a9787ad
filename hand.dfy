/**
 The hand driver (src/hand.rs): 21 landmarks are copied into a 22-slot
 buffer, optionally re-centred on the wrist and re-oriented, and the flexion
 (x-angle) of the three interior joints of every finger is written into a
 22 x 2 angle table that starts all NaN.
 */
module Hand {
  import opened Geometry

  /** Landmark indices of the five fingers, base to tip (`FINGERS`). */
  const Fingers: seq<seq<int>> := [[1, 2, 3, 4], [5, 6, 7, 8], [9, 10, 11, 12], [13, 14, 15, 16], [17, 18, 19, 20]]

  /** Positions in a five-point finger buffer that form each interior joint (`JOINTS`). */
  const Joints: seq<seq<int>> := [[0, 1, 2], [1, 2, 3], [2, 3, 4]]

  /** One row `[f32; 2]` of the angle table: column 0 holds the flexion (x-angle), column 1 is never written. */
  datatype AngleRow = AngleRow(x: Float, z: Float)

  /** Buffer slot that receives the wrist offset. */
  const OffsetSlot := 21

  /** `FINGERS` is five consecutive runs of four: finger f, joint i is landmark 4f + i + 1. */
  lemma FingerEntry(f: int, i: int)
    requires 0 <= f < 5 && 0 <= i < 4
    ensures |Fingers| == 5 && |Fingers[f]| == 4
    ensures Fingers[f][i] == 4 * f + i + 1
  {
    if f == 0 {
    } else if f == 1 {
    } else if f == 2 {
    } else if f == 3 {
    } else {
    }
  }

  /** Every landmark 1..20 appears in `FINGERS` exactly at one place. */
  lemma FingersCoverOnce(j: int)
    requires 1 <= j <= 20
    ensures Fingers[(j - 1) / 4][(j - 1) % 4] == j
    ensures forall f, i :: 0 <= f < 5 && 0 <= i < 4 && Fingers[f][i] == j ==> f == (j - 1) / 4 && i == (j - 1) % 4
  {
    FingerEntry((j - 1) / 4, (j - 1) % 4);
    forall f, i | 0 <= f < 5 && 0 <= i < 4 && Fingers[f][i] == j
      ensures f == (j - 1) / 4 && i == (j - 1) % 4
    {
      FingerEntry(f, i);
    }
  }

  /** `JOINTS` row i is the consecutive triple i, i + 1, i + 2. */
  lemma JointEntry(i: int)
    requires 0 <= i < 3
    ensures |Joints| == 3 && Joints[i] == [i, i + 1, i + 2]
  {
    if i == 0 {
    } else if i == 1 {
    } else {
    }
  }

  // ---------------------------------------------------------------------
  // Re-orientation

  /** The hand axis remap: (x, y, z) becomes (-x, z, y). */
  function Remap(v: Vec3): Vec3 { Vec3(-v.x, v.z, v.y) }

  /** The remap is its own inverse. */
  lemma RemapInvolution(v: Vec3)
    ensures Remap(Remap(v)) == v
  {
  }

  /** The remap only moves and negates components, so it keeps squared lengths and distances. */
  lemma RemapKeepsDistance(a: Vec3, b: Vec3)
    ensures SqLen(Remap(a)) == SqLen(a)
    ensures SqDist(Remap(a), Remap(b)) == SqDist(a, b)
  {
    assert Remap(a).Minus(Remap(b)) == Remap(a.Minus(b));
  }

  /** The remap is a proper rotation: it carries cross products along, so a right-handed frame stays right-handed. */
  lemma RemapKeepsHandedness(a: Vec3, b: Vec3)
    ensures Cross(Remap(a), Remap(b)) == Remap(Cross(a, b))
  {
  }

  /** What `set_hand_origin` makes of the buffer: slots 0..20 re-oriented about the wrist, slot 21 the old wrist. */
  function WristOrigin(s: seq<Vec3>): seq<Vec3>
    requires |s| == 22
  {
    seq(22, i requires 0 <= i < 22 => if i == OffsetSlot then s[0] else Remap(s[i].Minus(s[0])))
  }

  /** The wrist lands on the origin and the old wrist is kept in slot 21. */
  lemma WristOriginPivot(s: seq<Vec3>)
    requires |s| == 22
    ensures WristOrigin(s)[0] == Zero && WristOrigin(s)[OffsetSlot] == s[0]
  {
  }

  /** The stored wrist undoes the re-orientation: each slot below 21 is recovered. */
  lemma WristOriginRoundTrip(s: seq<Vec3>)
    requires |s| == 22
    ensures forall i :: 0 <= i < OffsetSlot ==> Remap(WristOrigin(s)[i]).Plus(WristOrigin(s)[OffsetSlot]) == s[i]
  {
    forall i | 0 <= i < OffsetSlot
      ensures Remap(WristOrigin(s)[i]).Plus(WristOrigin(s)[OffsetSlot]) == s[i]
    {
      RemapInvolution(s[i].Minus(s[0]));
    }
  }

  /** The re-orientation is rigid: distances between slots below 21 are unchanged. */
  lemma WristOriginIsRigid(s: seq<Vec3>, i: int, j: int)
    requires |s| == 22 && 0 <= i < OffsetSlot && 0 <= j < OffsetSlot
    ensures SqDist(WristOrigin(s)[i], WristOrigin(s)[j]) == SqDist(s[i], s[j])
  {
    RemapKeepsDistance(s[i].Minus(s[0]), s[j].Minus(s[0]));
    TranslationKeepsDistance(s[i], s[j], s[0]);
  }

  /** The buffer `main` computes angles from. */
  function HandPositions(hand: seq<Vec3>, setOrigin: bool): seq<Vec3>
    requires |hand| == 21
  {
    if setOrigin then WristOrigin(hand + [Zero]) else hand + [Zero]
  }

  // ---------------------------------------------------------------------
  // Flexion angles

  /** The five-point buffer of finger f: the wrist, then the finger's four landmarks. */
  function Chain(d: seq<Vec3>, f: int): seq<Vec3>
    requires |d| == 22 && 0 <= f < 5
  {
    FingerEntry(f, 0); FingerEntry(f, 1); FingerEntry(f, 2); FingerEntry(f, 3);
    [d[0], d[Fingers[f][0]], d[Fingers[f][1]], d[Fingers[f][2]], d[Fingers[f][3]]]
  }

  /** All five points projected onto the plane through the first, second and last of them. */
  function Straightened<Q>(k: Kernel<Q>, c: seq<Vec3>): seq<Vec3>
    requires |c| == 5
  {
    var plane := Plane(c[0], c[1], c[4]);
    seq(5, i requires 0 <= i < 5 => k.projectOnPlane(plane, c[i]))
  }

  /** Flexion at the three interior joints of finger f: the angle between incoming and outgoing bone. */
  function FingerAngles<Q>(k: Kernel<Q>, d: seq<Vec3>, f: int): seq<Float>
    requires |d| == 22 && 0 <= f < 5
  {
    var q := Straightened(k, Chain(d, f));
    seq(3, i requires 0 <= i < 3 => k.angle(q[i + 1].Minus(q[i]), q[i + 2].Minus(q[i + 1])))
  }

  /** Rows of the angle table whose column 0 `x_angles` writes: every finger landmark except the tips. */
  predicate FlexedRow(j: int) { 1 <= j <= 20 && j % 4 != 0 }

  /** Joint i of finger f sits in a flexed row, and that row leads back to f and i. */
  lemma RowOfJoint(f: int, i: int)
    requires 0 <= f < 5 && 0 <= i < 3
    ensures FlexedRow(4 * f + i + 1) && (4 * f + i) / 4 == f && (4 * f + i) % 4 == i
    ensures !FlexedRow(4 * f + 4)
  {
  }

  /** Column 0 of the table `calculate_rotations` returns; column 1 stays NaN throughout. */
  function FlexionColumn<Q>(k: Kernel<Q>, d: seq<Vec3>): seq<Float>
    requires |d| == 22
  {
    seq(22, j requires 0 <= j < 22 => if FlexedRow(j) then FingerAngles(k, d, (j - 1) / 4)[(j - 1) % 4] else NaN)
  }

  /** The rows left NaN are the wrist, the four finger tips of fingers 1..5 and the offset row. */
  lemma UnflexedRows(j: int)
    requires 0 <= j < 22
    ensures !FlexedRow(j) <==> j in {0, 4, 8, 12, 16, 20, 21}
  {
  }

  /** A finger's angles depend only on the wrist and that finger's four landmarks. */
  lemma FingerAnglesLocal<Q>(k: Kernel<Q>, d: seq<Vec3>, e: seq<Vec3>, f: int)
    requires |d| == 22 && |e| == 22 && 0 <= f < 5
    requires d[0] == e[0]
    requires forall i :: 0 <= i < 4 ==> 0 <= Fingers[f][i] < 22 && d[Fingers[f][i]] == e[Fingers[f][i]]
    ensures FingerAngles(k, d, f) == FingerAngles(k, e, f)
  {
    assert Chain(d, f) == Chain(e, f);
  }

  // ---------------------------------------------------------------------
  // The driver, as the source runs it

  /** `main`, returning the buffer and the angle table that the source prints. */
  method Solve<Q>(k: Kernel<Q>, hand: seq<Vec3>, setOrigin: bool) returns (data: array<Vec3>, angles: array<AngleRow>)
    requires |hand| == 21
    ensures data.Length == 22 && data[..] == HandPositions(hand, setOrigin)
    ensures angles.Length == 22
    ensures forall j :: 0 <= j < 22 ==> angles[j] == AngleRow(FlexionColumn(k, HandPositions(hand, setOrigin))[j], NaN)
  {
    data := CopyLandmarks(hand);
    if setOrigin {
      SetHandOrigin(data);
    }
    angles := CalculateRotations(k, data[..]);
  }

  /** The copy loop of `main`: slots 0..20 take the landmarks, slot 21 stays `Vector3::ZERO`. */
  method CopyLandmarks(hand: seq<Vec3>) returns (data: array<Vec3>)
    requires |hand| == 21
    ensures fresh(data) && data[..] == hand + [Zero]
  {
    data := new Vec3[22](_ => Zero);
    for i := 0 to 21
      invariant data[..] == hand[..i] + seq(22 - i, _ => Zero)
    {
      data[i] := hand[i];
    }
  }

  /** `set_hand_origin`: subtract the wrist everywhere, remap every slot, then store the wrist in slot 21. */
  method SetHandOrigin(data: array<Vec3>)
    requires data.Length == 22
    modifies data
    ensures data[..] == WristOrigin(old(data[..]))
  {
    var offset := data[0];
    for i := 0 to 22
      invariant forall j :: 0 <= j < i ==> data[j] == old(data[j]).Minus(offset)
      invariant forall j :: i <= j < 22 ==> data[j] == old(data[j])
    {
      data[i] := data[i].Minus(offset);
    }
    for i := 0 to 22
      invariant forall j :: 0 <= j < i ==> data[j] == Remap(old(data[j]).Minus(offset))
      invariant forall j :: i <= j < 22 ==> data[j] == old(data[j]).Minus(offset)
    {
      var tmp := data[i];
      data[i] := data[i].(x := -tmp.x);
      data[i] := data[i].(y := tmp.z);
      data[i] := data[i].(z := tmp.y);
    }
    data[OffsetSlot] := offset;
  }

  /** `calculate_rotations`: a table of 22 all-NaN rows, filled in by `x_angles`. */
  method CalculateRotations<Q>(k: Kernel<Q>, d: seq<Vec3>) returns (angles: array<AngleRow>)
    requires |d| == 22
    ensures angles.Length == 22
    ensures forall j :: 0 <= j < 22 ==> angles[j] == AngleRow(FlexionColumn(k, d)[j], NaN)
  {
    angles := new AngleRow[22](_ => AngleRow(NaN, NaN));
    XAngles(k, d, angles);
    forall j | 0 <= j < 22
      ensures angles[j] == AngleRow(FlexionColumn(k, d)[j], NaN)
    {
      if FlexedRow(j) {
        FingersCoverOnce(j);
        assert angles[4 * ((j - 1) / 4) + (j - 1) % 4 + 1].x == FingerAngles(k, d, (j - 1) / 4)[(j - 1) % 4];
      }
    }
  }

  /**
   `x_angles`: for each finger, straighten its five-point buffer and write
   one angle per interior joint into column 0 of that joint's row; nothing
   else in the table changes.
   */
  method XAngles<Q>(k: Kernel<Q>, d: seq<Vec3>, angles: array<AngleRow>)
    requires |d| == 22 && angles.Length == 22
    modifies angles
    ensures forall f, i :: 0 <= f < 5 && 0 <= i < 3 ==> angles[4 * f + i + 1] == old(angles[4 * f + i + 1]).(x := FingerAngles(k, d, f)[i])
    ensures forall j :: 0 <= j < 22 && !FlexedRow(j) ==> angles[j] == old(angles[j])
  {
    for idx := 0 to 5
      invariant forall f, i :: 0 <= f < idx && 0 <= i < 3 ==> angles[4 * f + i + 1] == old(angles[4 * f + i + 1]).(x := FingerAngles(k, d, f)[i])
      invariant forall j :: 0 <= j < 22 && !(FlexedRow(j) && j <= 4 * idx) ==> angles[j] == old(angles[j])
    {
      var finger := StraightenFinger(k, d, idx);
      ghost var before := angles[..];
      FingerXAngles(k, d, idx, finger, angles);
      RowOfJoint(idx, 0);
      forall f, i | 0 <= f <= idx && 0 <= i < 3
        ensures angles[4 * f + i + 1] == old(angles[4 * f + i + 1]).(x := FingerAngles(k, d, f)[i])
      {
        if f < idx {
          assert angles[4 * f + i + 1] == before[4 * f + i + 1];
        }
      }
    }
  }

  /** The reference-finger buffer of `x_angles` after it has been projected in place onto its plane. */
  method StraightenFinger<Q>(k: Kernel<Q>, d: seq<Vec3>, idx: int) returns (finger: array<Vec3>)
    requires |d| == 22 && 0 <= idx < 5
    ensures fresh(finger) && finger[..] == Straightened(k, Chain(d, idx))
  {
    finger := new Vec3[5](_ => Zero);
    finger[0] := d[0];
    for i := 0 to 4
      invariant finger[0] == d[0]
      invariant forall m :: 0 <= m < i ==> finger[m + 1] == d[Fingers[idx][m]]
    {
      FingerEntry(idx, i);
      finger[i + 1] := d[Fingers[idx][i]];
    }
    ghost var chain := finger[..];
    assert chain == Chain(d, idx);
    var plane := Plane(finger[0], finger[1], finger[4]);
    for i := 0 to 5
      invariant forall m :: 0 <= m < i ==> finger[m] == k.projectOnPlane(plane, chain[m])
      invariant forall m :: i <= m < 5 ==> finger[m] == chain[m]
    {
      finger[i] := k.projectOnPlane(plane, finger[i]);
    }
  }

  /** The angle loop of `x_angles` for finger `idx`: rows 4 idx + 1 .. 4 idx + 3 get their flexion, no other row changes. */
  method FingerXAngles<Q>(k: Kernel<Q>, d: seq<Vec3>, idx: int, finger: array<Vec3>, angles: array<AngleRow>)
    requires |d| == 22 && 0 <= idx < 5 && angles.Length == 22
    requires finger[..] == Straightened(k, Chain(d, idx))
    modifies angles
    ensures forall m :: 0 <= m < 3 ==> angles[4 * idx + m + 1] == old(angles[4 * idx + m + 1]).(x := FingerAngles(k, d, idx)[m])
    ensures forall j :: 0 <= j < 22 && !(4 * idx < j < 4 * idx + 4) ==> angles[j] == old(angles[j])
  {
    ghost var q := finger[..];
    ghost var flex := FingerAngles(k, d, idx);
    for i := 0 to 3
      invariant forall m :: 0 <= m < i ==> angles[4 * idx + m + 1] == old(angles[4 * idx + m + 1]).(x := flex[m])
      invariant forall j :: 0 <= j < 22 && !(4 * idx < j <= 4 * idx + i) ==> angles[j] == old(angles[j])
    {
      JointEntry(i);
      FingerEntry(idx, i);
      var joint := Joints[i];
      var a := finger[joint[1]].Minus(finger[joint[0]]);
      var b := finger[joint[2]].Minus(finger[joint[1]]);
      assert k.angle(a, b) == flex[i] by {
        assert a == q[i + 1].Minus(q[i]) && b == q[i + 2].Minus(q[i + 1]);
      }
      assert angles[4 * idx + i + 1] == old(angles[4 * idx + i + 1]);
      angles[Fingers[idx][i]] := angles[Fingers[idx][i]].(x := k.angle(a, b));
    }
  }
}
