/**
 The body-pose driver (src/pose.rs): 33 landmarks are copied into a 36-slot
 position buffer together with two synthesised centres and an offset slot,
 optionally re-centred on the hip centre, and turned into a 36-slot rotation
 buffer of which only eleven slots are ever written.
 */
module Pose {
  import opened Geometry

  /** Synthesised slots of the position buffer. */
  const HipCentre := 33
  const ShoulderCentre := 34
  const OffsetSlot := 35

  /** The rotation slots some writer assigns; every other slot keeps `nanQ`. */
  const RotatedSlots: set<int> := {11, 13, 15, 23, 24, 25, 26, 27, 28, 33, 34}

  /** `(a + b) / 2.0` on vectors. */
  function Mid(a: Vec3, b: Vec3): Vec3 { a.Plus(b).Halved() }

  // ---------------------------------------------------------------------
  // Position buffer

  /** The buffer `main` assembles from the input, before any origin shift. */
  function RawPositions(pose: seq<Vec3>): seq<Vec3>
    requires |pose| == 33
  {
    pose + [Mid(pose[23], pose[24]), Mid(pose[11], pose[12]), Zero]
  }

  /** Writing the two centres into the copied input, shoulder first, gives the raw buffer. */
  lemma RawPositionsFromParts(pose: seq<Vec3>)
    requires |pose| == 33
    ensures (pose + [Zero, Zero, Zero])[ShoulderCentre := Mid(pose[11], pose[12])][HipCentre := Mid(pose[23], pose[24])]
         == RawPositions(pose)
  {
  }

  /** What `set_pose_origin` makes of a buffer: every slot minus the old hip centre, which lands in slot 35. */
  function ShiftedToHip(s: seq<Vec3>): seq<Vec3>
    requires |s| == 36
  {
    seq(36, i requires 0 <= i < 36 => if i == OffsetSlot then s[HipCentre] else s[i].Minus(s[HipCentre]))
  }

  /** The position buffer `main` returns. */
  function Positions(pose: seq<Vec3>, setOrigin: bool): seq<Vec3>
    requires |pose| == 33
  {
    if setOrigin then ShiftedToHip(RawPositions(pose)) else RawPositions(pose)
  }

  /** The two centres are taken from the raw input; without the origin shift the input is kept and slot 35 stays zero. */
  lemma PositionsLayout(pose: seq<Vec3>, setOrigin: bool)
    requires |pose| == 33
    ensures |Positions(pose, setOrigin)| == 36
    ensures !setOrigin ==> Positions(pose, false)[..33] == pose && Positions(pose, false)[OffsetSlot] == Zero
    ensures !setOrigin ==> Positions(pose, false)[HipCentre] == Mid(pose[23], pose[24])
    ensures !setOrigin ==> Positions(pose, false)[ShoulderCentre] == Mid(pose[11], pose[12])
    ensures setOrigin ==> Positions(pose, true)[OffsetSlot] == Mid(pose[23], pose[24])
    ensures setOrigin ==> Positions(pose, true)[HipCentre] == Zero
    ensures setOrigin ==> forall i :: 0 <= i < 33 ==>
      Positions(pose, true)[i] == pose[i].Minus(Mid(pose[23], pose[24]))
    ensures setOrigin ==> Positions(pose, true)[ShoulderCentre] == Mid(pose[11], pose[12]).Minus(Mid(pose[23], pose[24]))
  {
  }

  /** The shift keeps both centres the midpoints of their landmark pairs, and moves the hip centre to the origin. */
  lemma ShiftKeepsCentres(s: seq<Vec3>)
    requires |s| == 36
    requires s[HipCentre] == Mid(s[23], s[24]) && s[ShoulderCentre] == Mid(s[11], s[12])
    ensures var r := ShiftedToHip(s);
      r[HipCentre] == Zero && r[HipCentre] == Mid(r[23], r[24]) && r[ShoulderCentre] == Mid(r[11], r[12])
  {
  }

  /** The stored offset undoes the shift: every slot below 35 is recovered by adding slot 35 back. */
  lemma ShiftRoundTrip(s: seq<Vec3>)
    requires |s| == 36
    ensures forall i :: 0 <= i < OffsetSlot ==> ShiftedToHip(s)[i].Plus(ShiftedToHip(s)[OffsetSlot]) == s[i]
  {
  }

  /** The shift is a translation: distances between the slots below 35 are unchanged. */
  lemma ShiftIsRigid(s: seq<Vec3>, i: int, j: int)
    requires |s| == 36 && 0 <= i < OffsetSlot && 0 <= j < OffsetSlot
    ensures SqDist(ShiftedToHip(s)[i], ShiftedToHip(s)[j]) == SqDist(s[i], s[j])
  {
    TranslationKeepsDistance(s[i], s[j], s[HipCentre]);
  }

  // ---------------------------------------------------------------------
  // Rotation values

  /** One element of a limb chain: the track rotation towards `from - to`, normalised and negated. */
  function Bone<Q>(k: Kernel<Q>, from: Vec3, to: Vec3): Q
  {
    k.track(k.neg(k.normalize(from.Minus(to))), 4, 2)
  }

  /** Torso basis from hips 23, 24 and the shoulder centre; slot 33. */
  function TorsoBasis<Q>(k: Kernel<Q>, d: seq<Vec3>): Q
    requires |d| == 36
  {
    var normal := k.normal(Plane(d[23], d[24], d[ShoulderCentre]));
    var tangent := d[24].Minus(d[HipCentre]);
    var binormal := d[ShoulderCentre].Minus(d[HipCentre]);
    k.fromAxes(k.normalize(tangent), k.normalize(normal), k.normalize(binormal))
  }

  /** Shoulder track rotation minus hip track rotation, by literal quaternion subtraction; slot 34. */
  function ShoulderRelative<Q>(k: Kernel<Q>, d: seq<Vec3>): Q
    requires |d| == 36
  {
    var shoulderRot := k.track(k.neg(k.normalize(d[12].Minus(d[ShoulderCentre]))), 2, 1);
    var hipRot := k.track(k.neg(k.normalize(d[24].Minus(d[HipCentre]))), 2, 1);
    k.sub(shoulderRot, hipRot)
  }

  /** Foot basis from the triangle knee, ankle, foot index; slots 27 and 28. */
  function FootBasis<Q>(k: Kernel<Q>, knee: Vec3, ankle: Vec3, toe: Vec3): Q
  {
    var tangent := k.normal(Plane(knee, ankle, toe));
    var binormal := knee.Minus(toe);
    var normal := ankle.Minus(toe);
    k.fromAxes(k.normalize(tangent), k.normalize(normal), k.normalize(binormal))
  }

  /**
   The rotation buffer as a table, slot by slot, after all writers have run:
   the right-arm chain is what slots 11, 13 and 15 hold, the legs keep two of
   their three chain values, and every other slot is `nanQ`.
   */
  function PoseRotations<Q>(k: Kernel<Q>, d: seq<Vec3>): seq<Q>
    requires |d| == 36
  {
    seq(36, i requires 0 <= i < 36 =>
      if i == 11 then Bone(k, d[12], d[14])
      else if i == 13 then Bone(k, d[14], d[16])
      else if i == 15 then Bone(k, d[16], d[20])
      else if i == 23 then Bone(k, d[23], d[25])
      else if i == 25 then Bone(k, d[25], d[27])
      else if i == 24 then Bone(k, d[24], d[26])
      else if i == 26 then Bone(k, d[26], d[28])
      else if i == 27 then FootBasis(k, d[25], d[27], d[31])
      else if i == 28 then FootBasis(k, d[26], d[28], d[32])
      else if i == HipCentre then TorsoBasis(k, d)
      else if i == ShoulderCentre then ShoulderRelative(k, d)
      else k.nanQ)
  }

  /** Every slot outside the eleven written ones is `nanQ`; in particular 12, 14 and 16. */
  lemma UnwrittenSlotsStayNaN<Q>(k: Kernel<Q>, d: seq<Vec3>)
    requires |d| == 36
    ensures |PoseRotations(k, d)| == 36
    ensures forall i :: 0 <= i < 36 && i !in RotatedSlots ==> PoseRotations(k, d)[i] == k.nanQ
    ensures PoseRotations(k, d)[12] == k.nanQ && PoseRotations(k, d)[14] == k.nanQ && PoseRotations(k, d)[16] == k.nanQ
  {
  }

  /**
   Buffer slots 11, 13, 15 and 19 are read by no writer. Landmark 11 still
   matters to `main`, but only through the shoulder centre in slot 34.
   */
  lemma LeftArmIgnored<Q>(k: Kernel<Q>, d: seq<Vec3>, e: seq<Vec3>)
    requires |d| == 36 && |e| == 36
    requires forall i :: 0 <= i < 36 && i != 11 && i != 13 && i != 15 && i != 19 ==> d[i] == e[i]
    ensures PoseRotations(k, d) == PoseRotations(k, e)
  {
    assert TorsoBasis(k, d) == TorsoBasis(k, e);
    assert ShoulderRelative(k, d) == ShoulderRelative(k, e);
  }

  /** Hence the left-arm landmarks 13, 15 and 19 of the input have no influence on any rotation `main` returns. */
  lemma LeftArmInputIgnored<Q>(k: Kernel<Q>, pose: seq<Vec3>, other: seq<Vec3>, setOrigin: bool)
    requires |pose| == 33 && |other| == 33
    requires forall i :: 0 <= i < 33 && i != 13 && i != 15 && i != 19 ==> pose[i] == other[i]
    ensures PoseRotations(k, Positions(pose, setOrigin)) == PoseRotations(k, Positions(other, setOrigin))
  {
    var d, e := Positions(pose, setOrigin), Positions(other, setOrigin);
    assert RawPositions(pose)[HipCentre] == RawPositions(other)[HipCentre];
    forall i | 0 <= i < 36 && i != 11 && i != 13 && i != 15 && i != 19
      ensures d[i] == e[i]
    {
      assert RawPositions(pose)[i] == RawPositions(other)[i];
    }
    LeftArmIgnored(k, d, e);
  }

  /** Subtracting the same offset from both ends leaves a difference vector unchanged. */
  lemma DifferenceUnshifted(a: Vec3, b: Vec3, t: Vec3)
    ensures a.Minus(t).Minus(b.Minus(t)) == a.Minus(b)
  {
  }

  /** A foot basis does not move when the whole triangle is translated, given a position-blind normal. */
  lemma FootBasisUnshifted<Q>(k: Kernel<Q>, knee: Vec3, ankle: Vec3, toe: Vec3, t: Vec3)
    requires NormalIgnoresPosition(k)
    ensures FootBasis(k, knee.Minus(t), ankle.Minus(t), toe.Minus(t)) == FootBasis(k, knee, ankle, toe)
  {
    DifferenceUnshifted(knee, toe, t);
    DifferenceUnshifted(ankle, toe, t);
    assert k.normal(Plane(knee.Minus(t), ankle.Minus(t), toe.Minus(t))) == k.normal(Plane(knee, ankle, toe));
  }

  /**
   For a kernel whose plane normal does not depend on where the plane sits,
   the hip-origin shift changes no rotation: every writer reads differences
   of slots below 35, or a plane normal.
   */
  lemma ShiftKeepsRotations<Q>(k: Kernel<Q>, s: seq<Vec3>)
    requires |s| == 36
    requires NormalIgnoresPosition(k)
    ensures PoseRotations(k, ShiftedToHip(s)) == PoseRotations(k, s)
  {
    var r := ShiftedToHip(s);
    var h := s[HipCentre];
    forall i, j | 0 <= i < OffsetSlot && 0 <= j < OffsetSlot
      ensures Bone(k, r[i], r[j]) == Bone(k, s[i], s[j])
    {
      DifferenceUnshifted(s[i], s[j], h);
    }
    FootBasisUnshifted(k, s[25], s[27], s[31], h);
    FootBasisUnshifted(k, s[26], s[28], s[32], h);
    DifferenceUnshifted(s[24], s[HipCentre], h);
    DifferenceUnshifted(s[ShoulderCentre], s[HipCentre], h);
    DifferenceUnshifted(s[12], s[ShoulderCentre], h);
    assert k.normal(Plane(r[23], r[24], r[ShoulderCentre])) == k.normal(Plane(s[23], s[24], s[ShoulderCentre]));
    assert TorsoBasis(k, r) == TorsoBasis(k, s);
    assert ShoulderRelative(k, r) == ShoulderRelative(k, s);
    forall i | 0 <= i < 36
      ensures PoseRotations(k, r)[i] == PoseRotations(k, s)[i]
    {
    }
  }

  /** Hence `set_origin` changes the returned positions but not the returned rotations. */
  lemma SetOriginKeepsRotations<Q>(k: Kernel<Q>, pose: seq<Vec3>)
    requires |pose| == 33
    requires NormalIgnoresPosition(k)
    ensures PoseRotations(k, Positions(pose, true)) == PoseRotations(k, Positions(pose, false))
  {
    ShiftKeepsRotations(k, RawPositions(pose));
  }

  // ---------------------------------------------------------------------
  // The driver, as the source runs it

  /** `main`: copy the 33 landmarks, add the two centres, optionally shift, then compute rotations. */
  method Solve<Q>(k: Kernel<Q>, pose: seq<Vec3>, setOrigin: bool) returns (data: array<Vec3>, rot: array<Q>)
    requires |pose| == 33
    ensures data.Length == 36 && data[..] == Positions(pose, setOrigin)
    ensures rot.Length == 36 && rot[..] == PoseRotations(k, Positions(pose, setOrigin))
  {
    data := AssemblePositions(pose);
    if setOrigin {
      SetPoseOrigin(data);
    }
    rot := CalcRotationData(k, data[..]);
  }

  /** The first lines of `main`: the zeroed buffer with the landmarks copied in, then shoulder and hip centre. */
  method AssemblePositions(pose: seq<Vec3>) returns (data: array<Vec3>)
    requires |pose| == 33
    ensures fresh(data) && data.Length == 36 && data[..] == RawPositions(pose)
  {
    data := CopyLandmarks(pose);
    var shoulder := Mid(data[11], data[12]);
    data[ShoulderCentre] := shoulder;
    var hip := Mid(data[23], data[24]);
    data[HipCentre] := hip;
    RawPositionsFromParts(pose);
  }

  /** The copy loop of `main`: slots 0..32 take the landmarks, the rest stay `Vector3::ZERO`. */
  method CopyLandmarks(pose: seq<Vec3>) returns (data: array<Vec3>)
    requires |pose| == 33
    ensures fresh(data) && data[..] == pose + [Zero, Zero, Zero]
  {
    data := new Vec3[36](_ => Zero);
    for i := 0 to 33
      invariant data[..] == pose[..i] + seq(36 - i, _ => Zero)
    {
      data[i] := pose[i];
    }
  }

  /** `set_pose_origin`: subtract the hip centre from all 36 slots, then store it in slot 35. */
  method SetPoseOrigin(data: array<Vec3>)
    requires data.Length == 36
    modifies data
    ensures data[..] == ShiftedToHip(old(data[..]))
  {
    var offset := data[HipCentre];
    for i := 0 to 36
      invariant forall j :: 0 <= j < i ==> data[j] == old(data[j]).Minus(offset)
      invariant forall j :: i <= j < 36 ==> data[j] == old(data[j])
    {
      data[i] := data[i].Minus(offset);
    }
    data[OffsetSlot] := offset;
  }

  /** `calc_rotation_data`: start from all `nanQ` and run the four writers in the source's order. */
  method CalcRotationData<Q>(k: Kernel<Q>, d: seq<Vec3>) returns (rot: array<Q>)
    requires |d| == 36
    ensures rot.Length == 36 && rot[..] == PoseRotations(k, d)
  {
    rot := new Q[36](_ => k.nanQ);
    ShoulderRotation(k, d, rot);
    TorsoRotation(k, d, rot);
    LimbRotations(k, d, rot);
    FootRotations(k, d, rot);
  }

  /** `torso_rotation`: writes slot 33 only. */
  method TorsoRotation<Q>(k: Kernel<Q>, d: seq<Vec3>, rot: array<Q>)
    requires |d| == 36 && rot.Length == 36
    modifies rot
    ensures rot[..] == old(rot[..])[HipCentre := TorsoBasis(k, d)]
  {
    var normal := k.normal(Plane(d[23], d[24], d[ShoulderCentre]));
    var tangent := d[24].Minus(d[HipCentre]);
    var binormal := d[ShoulderCentre].Minus(d[HipCentre]);
    rot[HipCentre] := k.fromAxes(k.normalize(tangent), k.normalize(normal), k.normalize(binormal));
  }

  /** `shoulder_rotation`: writes slot 34 only. */
  method ShoulderRotation<Q>(k: Kernel<Q>, d: seq<Vec3>, rot: array<Q>)
    requires |d| == 36 && rot.Length == 36
    modifies rot
    ensures rot[..] == old(rot[..])[ShoulderCentre := ShoulderRelative(k, d)]
  {
    var shoulderRot := k.track(k.neg(k.normalize(d[12].Minus(d[ShoulderCentre]))), 2, 1);
    var hipRot := k.track(k.neg(k.normalize(d[24].Minus(d[HipCentre]))), 2, 1);
    rot[ShoulderCentre] := k.sub(shoulderRot, hipRot);
  }

  /** `calc_limb_chain_rotations`: element i - 1 tracks from point i - 1 towards point i. */
  method CalcLimbChainRotations<Q>(k: Kernel<Q>, chain: seq<Vec3>) returns (arr: array<Q>)
    requires |chain| == 4
    ensures arr.Length == 3
    ensures arr[0] == Bone(k, chain[0], chain[1])
    ensures arr[1] == Bone(k, chain[1], chain[2])
    ensures arr[2] == Bone(k, chain[2], chain[3])
  {
    arr := new Q[3](_ => k.identity);
    for i := 1 to 4
      invariant forall j :: 0 <= j < i - 1 ==> arr[j] == Bone(k, chain[j], chain[j + 1])
    {
      arr[i - 1] := k.track(k.neg(k.normalize(chain[i - 1].Minus(chain[i]))), 4, 2);
    }
  }

  /**
   `limb_rotations`: the legs store hip and knee, the arms store all three
   values; the right arm is written into the same slots 11, 13, 15 as the
   left arm, after it.
   */
  method LimbRotations<Q>(k: Kernel<Q>, d: seq<Vec3>, rot: array<Q>)
    requires |d| == 36 && rot.Length == 36
    modifies rot
    ensures rot[23] == Bone(k, d[23], d[25]) && rot[25] == Bone(k, d[25], d[27])
    ensures rot[24] == Bone(k, d[24], d[26]) && rot[26] == Bone(k, d[26], d[28])
    ensures rot[11] == Bone(k, d[12], d[14]) && rot[13] == Bone(k, d[14], d[16]) && rot[15] == Bone(k, d[16], d[20])
    ensures forall i :: 0 <= i < 36 && i !in {11, 13, 15, 23, 24, 25, 26} ==> rot[i] == old(rot[i])
  {
    var lLeg := CalcLimbChainRotations(k, [d[23], d[25], d[27], d[31]]);
    rot[23] := lLeg[0];
    rot[25] := lLeg[1];

    var rLeg := CalcLimbChainRotations(k, [d[24], d[26], d[28], d[32]]);
    rot[24] := rLeg[0];
    rot[26] := rLeg[1];

    var lArm := CalcLimbChainRotations(k, [d[11], d[13], d[15], d[19]]);
    rot[11] := lArm[0];
    rot[13] := lArm[1];
    rot[15] := lArm[2];

    var rArm := CalcLimbChainRotations(k, [d[12], d[14], d[16], d[20]]);
    rot[11] := rArm[0];
    rot[13] := rArm[1];
    rot[15] := rArm[2];
  }

  /** `foot_rotations`: writes slots 27 and 28 only. */
  method FootRotations<Q>(k: Kernel<Q>, d: seq<Vec3>, rot: array<Q>)
    requires |d| == 36 && rot.Length == 36
    modifies rot
    ensures rot[..] == old(rot[..])[27 := FootBasis(k, d[25], d[27], d[31])][28 := FootBasis(k, d[26], d[28], d[32])]
  {
    var tangent := k.normal(Plane(d[25], d[27], d[31]));
    var binormal := d[25].Minus(d[31]);
    var normal := d[27].Minus(d[31]);
    rot[27] := k.fromAxes(k.normalize(tangent), k.normalize(normal), k.normalize(binormal));

    tangent := k.normal(Plane(d[26], d[28], d[32]));
    binormal := d[26].Minus(d[32]);
    normal := d[28].Minus(d[32]);
    rot[28] := k.fromAxes(k.normalize(tangent), k.normalize(normal), k.normalize(binormal));
  }
}
