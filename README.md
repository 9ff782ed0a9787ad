# mediapipe_rotations — a verified model of the rotation solvers

The Rust crate turns MediaPipe landmark detections into rig rotations. It has
three solvers, and each one runs in the same order:

1. Copy the landmarks into a fixed-size buffer of `Vector3`.
2. Optionally re-centre the buffer on a pivot and remap its axes.
3. Fill a fixed-size output table that starts out all NaN.

The solvers are:

- **Pose** (`src/pose.rs`). It reads 33 landmarks and adds a hip centre
  (slot 33), a shoulder centre (slot 34) and an offset slot (slot 35). It
  returns that 36-slot buffer and a 36-slot quaternion table. The table holds
  the torso and shoulder rotations, the limb fk chains and the two feet.
- **Hand** (`src/hand.rs`). It reads 21 landmarks. With `set_origin`, the
  buffer is re-centred on the wrist and its axes are remapped. Then, for every
  finger, the wrist and the finger's four landmarks are projected onto their
  own plane. One flexion angle per interior joint goes into column 0 of a
  22 x 2 angle table.
- **Face** (`src/face.rs`). It reads the first 468 mesh points, re-centres
  them on a pivot between the cheeks, and remaps their axes. It returns four
  rotations: the head basis, the chin tilt, and the left and right mouth
  corners.

## How the model is built

The geometry crate `cgt_math` is not modelled. Its operations are the fields
of the record `Geometry.Kernel<Q>`: `center`, `angle`, `normalize`, `neg`,
`project`, the plane normal and the projection onto a plane, and the
quaternion constructors and subtraction. `Q` stands for the quaternion type,
and `nanQ`, `identity` and `nanVec` are constants of the record. Every solver
takes the kernel as a parameter. So every property proved here holds for
**any** kernel, unless a lemma states an extra assumption about the kernel as
a `requires`.

The value types are modelled as follows:

- `Vector3` is `Geometry.Vec3`, with exact real coordinates. The solvers'
  own vector arithmetic (`+`, `-`, `/ 2.0`) is therefore exact.
- `f32` angles are `Geometry.Float`, which is `NaN` or a real number.

The code's in-place structure is kept:

- The position buffers and output tables are Dafny arrays.
- Each `&mut` helper of the pose and hand solvers, and `set_face_origin`, is
  a method with a `modifies` clause whose `ensures` gives the complete new
  contents.
- The three face writers `face_rotation`, `chin_rotation` and
  `mouth_corner_angles` are straight-line code that each store one or two
  values. They are pure functions (`Face.FaceBasis`, `Face.ChinRotation`,
  `Face.MouthCorners`), and `Face.Solve` writes their results into the
  rotation array in the source's order.
- Every buffer is specified by a pure function of the input: `Pose.Positions`,
  `Pose.PoseRotations`, `Hand.HandPositions`, `Hand.FlexionColumn`,
  `Face.Reoriented` and `Face.FaceRotations`. The lemmas are proved about those
  functions.
- Rust's `main` is called `Solve` in each module.

### Behaviour of the code worth knowing

The model follows the code in each of these cases.

- **Pose, arm slots.** The right-arm chain (landmarks 12, 14, 16, 20) is
  written into slots 11, 13 and 15, overwriting the left arm (src/pose.rs:92-96).
  - Slots 12, 14 and 16 stay `Quaternion::NAN`, yet the Python test expects
    them to be finite (test_mpr.py:18-20).
  - The left-arm landmarks 13, 15 and 19 influence no rotation at all.
    Landmark 11 matters only through the shoulder centre, slot 34
    (src/pose.rs:12), which the torso and shoulder rotations read.
  - `Pose.UnwrittenSlotsStayNaN`, `Pose.LeftArmIgnored` and
    `Pose.LeftArmInputIgnored` state these facts.
- **Pose, chain slots.** The legs keep the first two rotations of their
  chains. The arms keep all three, including slot 15.
- **Pose, axes.** The pose solver does not remap axes. It only translates the
  buffer by the hip centre.
- **Hand, row 0.** The Python test expects hand row 0 to be finite
  (test_mpr.py:24), but `x_angles` never writes row 0 (`Hand.UnflexedRows`).
- **Hand remap.** The hand remap is (-x, z, y) (src/hand.rs:40-42). The face
  remap is (-x, z, -y) (src/face.rs:31-33).
  - `Face.RemapsDifferInZ` shows that the two remaps differ exactly in the sign
    of the new z.
  - `Hand.RemapKeepsHandedness` and `Face.RemapMirrors` show that the hand remap
    is a proper rotation, while the face remap is a reflection: it reverses
    cross products.
- **Mouth, projected centre.** The comment at src/face.rs:59-60 describes the
  point on the lip axis, landmark 0 plus the projection. The code at
  src/face.rs:61 adds the projection to the corner centre instead. The depth
  test at src/face.rs:74 uses that point. `Face.ProjectedCentreOffAxis` shows
  that it is off the lip axis by the corner centre's offset from landmark 0.
- **Short input.** The face solver indexes 468 points without checking the
  length, so a short input panics rather than yielding NaN. `Face.Solve` and
  `Face.ToVectors` therefore require at least 468 points.
- **Hand output.** The hand `main` prints its angle table and returns nothing.
  `Hand.Solve` returns the buffer and the table instead.

## Model

| member | source | states |
|---|---|---|
| Pose.Solve | src/pose.rs:6-20 | The returned buffer is `Positions(pose, set_origin)`: the landmarks, the hip and shoulder centres as midpoints, and with the origin shift everything relative to the hip centre, which is stored in slot 35. The returned rotations are `PoseRotations` of that buffer. |
| Pose.CopyLandmarks | src/pose.rs:7-10 | A fresh buffer holds the 33 landmarks in order, followed by three `Vector3::ZERO`. |
| Pose.AssemblePositions | src/pose.rs:7-13 | After the copy, slot 34 is the midpoint of the shoulders 11/12 and slot 33 is the midpoint of the hips 23/24. |
| Pose.RawPositionsFromParts | src/pose.rs:12-13 | Writing the shoulder centre and then the hip centre into the copied input gives the raw buffer. |
| Pose.PositionsLayout | src/pose.rs:6-20 | Both centres are computed from the raw input. Without the shift the landmarks are kept and slot 35 stays zero. With the shift slot 33 is the origin, slot 35 is the hip centre, and every landmark is moved by it. |
| Pose.SetPoseOrigin | src/pose.rs:23-29 | Every slot has the old hip centre subtracted, and slot 35 then receives the old hip centre. |
| Pose.ShiftKeepsCentres | src/pose.rs:23-29 | After the shift, both centres are still the midpoints of their landmark pairs, and the hip centre is the origin. |
| Pose.ShiftRoundTrip | src/pose.rs:23-29 | Adding slot 35 back recovers every slot below 35. |
| Pose.ShiftIsRigid | src/pose.rs:25-27 | The shift keeps the distance between any two slots below 35. |
| Pose.CalcRotationData | src/pose.rs:32-39 | The table starts all `Quaternion::NAN` and the four writers run in source order. The result is exactly `PoseRotations`. |
| Pose.TorsoRotation | src/pose.rs:42-51 | Only slot 33 changes. It becomes `from_rotation_axes` of the normalised tangent (24 - 33), the plane normal of (23, 24, 34) and the binormal (34 - 33), in that order. |
| Pose.ShoulderRotation | src/pose.rs:55-62 | Only slot 34 changes. It becomes the track rotation towards 12 - 34 minus the track rotation towards 24 - 33, with axes (2, 1). |
| Pose.CalcLimbChainRotations | src/pose.rs:65-72 | Element j of the result is the (4, 2) track rotation of the negated, normalised vector chain[j] - chain[j+1], for j = 0, 1, 2. |
| Pose.LimbRotations | src/pose.rs:75-97 | Slots 23, 25, 24 and 26 get the first two leg-chain rotations. Slots 11, 13 and 15 end with the right-arm chain (12, 14, 16, 20). No other slot changes. |
| Pose.FootRotations | src/pose.rs:101-121 | Only slots 27 and 28 change. Each gets the basis of its knee-ankle-foot-index triangle. |
| Pose.UnwrittenSlotsStayNaN | src/pose.rs:32-39 | Every slot outside {11, 13, 15, 23, 24, 25, 26, 27, 28, 33, 34} stays `Quaternion::NAN`, including 12, 14 and 16. |
| Pose.LeftArmIgnored | src/pose.rs:86-96 | Two buffers that differ only at the left-arm landmarks 11, 13, 15 and 19 give the same rotation table. |
| Pose.LeftArmInputIgnored | src/pose.rs:6-20 | Two inputs that differ only at landmarks 13, 15 and 19 give the same rotation table, with or without the origin shift. |
| Pose.FootBasisUnshifted | src/pose.rs:101-121 | If the kernel's plane normal does not depend on position, translating the foot triangle leaves the foot basis unchanged. |
| Pose.ShiftKeepsRotations | src/pose.rs:23-29 | Under the same kernel assumption, the hip-origin shift changes no entry of the rotation table. |
| Pose.SetOriginKeepsRotations | src/pose.rs:14-18 | Under the same kernel assumption, `set_origin` changes the returned positions but not the returned rotations. |
| Hand.FingerEntry | src/hand.rs:4-10 | `FINGERS[f][i]` is landmark 4f + i + 1. |
| Hand.FingersCoverOnce | src/hand.rs:4-10 | Every landmark 1..20 appears in `FINGERS` exactly once, at finger (j-1)/4 and position (j-1)%4. |
| Hand.JointEntry | src/hand.rs:11 | Row i of `JOINTS` is the consecutive triple i, i+1, i+2. |
| Hand.RowOfJoint | src/hand.rs:64-68 | The row that joint i of finger f writes is a flexed row and leads back to f and i. The tip row 4f + 4 is not a flexed row. |
| Hand.RemapInvolution | src/hand.rs:38-43 | Applying the hand remap twice gives the original vector. |
| Hand.RemapKeepsDistance | src/hand.rs:38-43 | The hand remap keeps squared lengths and squared distances. |
| Hand.RemapKeepsHandedness | src/hand.rs:38-43 | The hand remap commutes with the cross product, so it is a proper rotation. |
| Hand.WristOriginPivot | src/hand.rs:33-45 | After `set_hand_origin`, the wrist is the origin and slot 21 holds the old wrist. |
| Hand.WristOriginRoundTrip | src/hand.rs:33-45 | Remapping again and adding slot 21 recovers every slot below 21. |
| Hand.WristOriginIsRigid | src/hand.rs:33-45 | The re-orientation keeps the distance between any two slots below 21. |
| Hand.UnflexedRows | src/hand.rs:27-28 | The rows whose column 0 stays NaN are exactly 0, 4, 8, 12, 16, 20 and 21. |
| Hand.FingerAnglesLocal | src/hand.rs:49-68 | The angles of a finger depend only on the wrist and that finger's four landmarks. |
| Hand.Solve | src/hand.rs:13-24 | The buffer is the landmarks plus a zero slot 21, re-oriented about the wrist when `set_origin` is set. Row j of the table is (`FlexionColumn[j]`, NaN). |
| Hand.CopyLandmarks | src/hand.rs:14-17 | A fresh buffer holds the 21 landmarks in order, followed by `Vector3::ZERO`. |
| Hand.SetHandOrigin | src/hand.rs:33-45 | Every slot becomes the remap of (slot - wrist), and slot 21 then receives the old wrist. |
| Hand.CalculateRotations | src/hand.rs:26-30 | From an all-NaN table, column 0 of each flexed row j holds the flexion of finger (j-1)/4 at joint (j-1)%4. Every other entry is NaN. |
| Hand.XAngles | src/hand.rs:48-69 | For every finger f and joint i, row 4f+i+1 gets `FingerAngles(f)[i]` in column 0. All rows that are not flexed rows are unchanged. |
| Hand.StraightenFinger | src/hand.rs:50-61 | The five-point buffer is the wrist followed by the finger's landmarks, all projected onto the plane through buffer entries 0, 1 and 4. |
| Hand.FingerXAngles | src/hand.rs:63-68 | Joint i of the finger writes angle(q[i+1] - q[i], q[i+2] - q[i+1]) of the projected points q into column 0 of row `FINGERS[f][i]`. No other row changes. |
| Face.RemapInverse | src/face.rs:30-33 | The face remap (-x, z, -y) has the inverse (-x, -z, y). |
| Face.ReorientRoundTrip | src/face.rs:24-35 | Un-remapping a re-oriented point and adding the pivot back gives the input point. |
| Face.ReorientIsRigid | src/face.rs:24-35 | Re-orientation keeps the distance between any two mesh points. |
| Face.RemapMirrors | src/face.rs:30-33 | The face remap reverses cross products, so it is a reflection. |
| Face.RemapsDifferInZ | src/face.rs:30-33 | The face and hand remaps agree in x and y and are opposite in z. They agree on a vector exactly when its y is zero. |
| Face.FaceBasis | src/face.rs:38-43 | Pure function, no contract. Slot 0 is `from_rotation_axes(center(447, 366), center(1, 4), p152)`, in that argument order. Its properties are in `Face.FaceBasisLandmarks`. |
| Face.ChinRotation | src/face.rs:46-53 | Pure function, no contract. Slot 1 is `from_rotation_x` of the calibrated angle between p2 - p168 and p200 - p168, with both x components zeroed. Its properties are in `Face.ChinIgnoresX` and `Face.ChinTiltCalibrated`. |
| Face.MouthCorners | src/face.rs:56-81 | Pure function, no contract. The left angle is measured at p291 and the right angle at p61, each between the corner's vectors to the projected centre and to the lip centre. Both are negated when the lip centre's z is below the projected centre's z. Its properties are in `Face.CornersFlipTogether`, `Face.MirroredMouthSwapsCorners` and `Face.CornersLandmarks`. |
| Face.ProjectedCentreOffAxis | src/face.rs:59-61 | The projected centre equals the lip-axis point (landmark 0 plus the projection) moved by the corner centre minus landmark 0. The two points coincide exactly when the corner centre is landmark 0. |
| Face.FaceBasisLandmarks | src/face.rs:38-43 | Slot 0 reads only landmarks 1, 4, 152, 366 and 447. |
| Face.ChinTiltCalibrated | src/face.rs:52 | The calibration `(angle - 0.314159) * 1.15` maps the rest angle to zero, keeps NaN, and preserves order strictly in both directions. |
| Face.ChinIgnoresX | src/face.rs:46-53 | The chin rotation depends only on the y and z coordinates of landmarks 2, 168 and 200. |
| Face.CornersFlipTogether | src/face.rs:72-77 | Either both corner angles are negated or neither is. A non-zero angle changes exactly when the height centre's z is below the projected centre's z. The product of the two angles is preserved. |
| Face.MirroredMouthSwapsCorners | src/face.rs:56-81 | If `center` is symmetric on the corner pair, swapping landmarks 61 and 291 swaps the left and right corner angles. |
| Face.CornersLandmarks | src/face.rs:56-81 | The corner angles read only landmarks 0, 17, 61 and 291. |
| Face.Solve | src/face.rs:4-12 | The result is `[basis, chin, rotZ(left corner), rotZ(right corner)]` of the re-oriented first 468 points. |
| Face.ToVectors | src/face.rs:15-21 | A fresh buffer holds the first 468 input points, in order. |
| Face.SetFaceOrigin | src/face.rs:24-35 | The pivot is taken once, before the loop. Every point then becomes the face remap of (point - pivot). |

## Left out

- The `cgt_math` kernel is left uninterpreted: angle ranges, normalisation, plane-normal orientation, projection and quaternion construction. Its operations are parameters, so nothing is assumed about them except in the lemmas that state a kernel assumption.
- Floating point is not modelled. `f32` rounding, signed zero and NaN coordinates inside vectors are absent: vector arithmetic, including `/ 2.0` and the chin constants, is exact over the reals. Only NaN angles are modelled.
- The printing in the hand `calculate_rotations` is left out. `Hand.CalculateRotations` returns the table instead.
- The Python bindings (`src/lib.rs`, which exposes only `sum_as_string`), `setup.py` and the Python tests are not part of this model. The tests expect NaN results for empty inputs and batched `hands`/`holistic` entry points (test_mpr.py:40, 48-59, 66); no code in `src/` implements these.
- The literal test fixture in src/face.rs:88-103 is left out.
- Pose and hand input lengths are fixed by their array types (33 and 21 points). The face input must have at least 468 points. A shorter face slice makes the source panic, so it is a precondition rather than an error result.
- Twist (z-angle) estimation is not in the modelled code, so it is absent.
