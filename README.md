# Triclinic orientation operator and micro-texture grouping, in Dafny

This project models two pieces of DREAM3D:

- **The triclinic orientation operator.**
  - Its one-entry symmetry tables.
  - The generic misorientation search over a table of N quaternion operators. The triclinic binding is the instance with N = 1.
  - The constants of the misorientation/ODF histogram grid, and the split of a bin number into three per-axis indices.
  - The neutral slip-system queries.
  - The batch pole-figure generator. It rotates the <001>, <011> and <111> direction families of every orientation into the sample frame. Each rotated direction is written followed by its negation, into three flat float arrays.
- **The bookkeeping of the micro-texture grouping filter.** This filter gathers hexagonal grains whose c-axes are aligned into parent groups.
  - The seed scan and the grouping decision.
  - The propagation of feature parent ids to cells.
  - The count check after grouping.
  - The random relabelling of the groups by a swap shuffle.

Floating point is modelled by `real`. Every conversion routine whose code is not part of this model is a field of the `Kernels` record (`orientation_math.dfy`). A result that depends on such a routine is stated under a named assumption about it (`AngleInRange`, `AcosInRange`, `IdentityHasZeroAngle`, `ConjugateKeepsAngle`, `SqrtIsRoot`, `RodAxisAngleRoundTrip`) and under no other.

Files:

- `orientation_math.dfy` (module `OrientationMath`): vectors, matrices, quaternions, the clamp, and the `Kernels` record.
- `triclinic_ops.dfy` (module `TriclinicOps`):
  - the symmetry tables;
  - the misorientation search, as the method `CalcMisoQuat` and its specification `MisoQuatSpec`/`Best`;
  - the grid and the bin-index arithmetic, with C++'s truncating `/` and `%`;
  - the fundamental-zone bindings;
  - the slip queries.
- `triclinic_pole_figure.dfy` (module `TriclinicPoleFigure`): a float data array class and the pole-figure generator.
  - The generator is proved against `AllFamilies`, the sequence of everything it writes.
  - The layout facts (offsets, antipodal pairs) are proved about `AllFamilies`.
- `group_micro_texture_regions.dfy` (module `MicroTextureGrouping`): the filter as a class, with the per-feature and per-cell parent-id arrays as `array<int>` fields. Its methods are proved against the functions `FirstUnassigned`, `Accepts`, `Shuffled`, `RelabelFeatures` and `Propagated`.

## Model

| member | source | states |
|---|---|---|
| OrientationMath.Clamp | Source/DREAM3DLib/OrientationOps/TriclinicOps.cpp:113-118 | The result lies in [-1, 1]. An in-range value is returned unchanged. A value below -1 becomes -1 and a value above 1 becomes 1. |
| TriclinicOps.GetQuatSymOp | Source/DREAM3DLib/OrientationOps/TriclinicOps.cpp:150-153 | The only quaternion operator is the identity rotation: multiplying any quaternion by it, on either side, gives that quaternion back. |
| TriclinicOps.GetRodSymOp | Source/DREAM3DLib/OrientationOps/TriclinicOps.cpp:155-160 | The only Rodrigues operator is the zero vector (squared norm 0). |
| TriclinicOps.GetMatSymOp | Source/DREAM3DLib/OrientationOps/TriclinicOps.cpp:162-173 | The only matrix operator maps every vector to itself and is its own transpose. |
| TriclinicOps.ClampW | Source/DREAM3DLib/OrientationOps/TriclinicOps.cpp:113-118 | The composed quaternion's w is bounded to [-1, 1]. Its vector part is kept. A quaternion whose w is already in range is unchanged. |
| TriclinicOps.FoldAngle | Source/DREAM3DLib/OrientationOps/TriclinicOps.cpp:122-124 | An angle above pi becomes 2 pi - w, any other angle is kept. The result never exceeds pi, and it is non-negative for inputs in [0, 2 pi]. |
| TriclinicOps.CalcMisoQuat | Source/DREAM3DLib/OrientationOps/TriclinicOps.cpp:94-141 | The loop's (angle, axis) equals `MisoQuatSpec`. That is the candidate kept by scanning the N operators in order, where a later candidate replaces the kept one only if strictly smaller. The kept axis is then normalised, with (0, 0, 1) as the fallback when the norm or the angle is 0. |
| TriclinicOps.BestIsLowerBound | Source/DREAM3DLib/OrientationOps/TriclinicOps.cpp:98-131 | The kept angle is at most the sentinel 9999999 and at most every candidate's angle. |
| TriclinicOps.BestIsFirstMinimum | Source/DREAM3DLib/OrientationOps/TriclinicOps.cpp:110-131 | For a non-empty list of candidates below the sentinel, the kept candidate is the first one reaching the minimum angle. Every earlier candidate is strictly larger. |
| TriclinicOps.MisoQuatIsFirstMinimum | Source/DREAM3DLib/OrientationOps/TriclinicOps.cpp:110-138 | With at least one operator, the result is the first minimal candidate finished by normalisation, and its angle is at most pi. The sentinel never survives. |
| TriclinicOps.MisoQuatAngleInRange | Source/DREAM3DLib/OrientationOps/TriclinicOps.cpp:98-131 | If the axis-angle conversion reports angles in [0, 2 pi] whenever w lies in [-1, 1] (which the clamp guarantees) and there is at least one operator, the returned angle lies in [0, pi]. |
| TriclinicOps.NormalizedAxisIsUnit | Source/DREAM3DLib/OrientationOps/TriclinicOps.cpp:133-138 | With a true square root, the returned axis has unit length, both on the divided branch and on the (0, 0, 1) fallback. |
| TriclinicOps.GetMisoQuat | Source/DREAM3DLib/OrientationOps/TriclinicOps.cpp:83-89 | With the single identity operator, the misorientation is the folded, normalised axis-angle of conj(q2) (x) q1 itself. |
| TriclinicOps.TriclinicSelfMisorientation | Source/DREAM3DLib/OrientationOps/TriclinicOps.cpp:83-89 | A unit quaternion has misorientation angle 0 and axis (0, 0, 1) with itself, if the conversion maps the identity to angle 0 (`IdentityHasZeroAngle`). |
| TriclinicOps.RelativeSwapIsConjugate | Source/DREAM3DLib/OrientationOps/TriclinicOps.cpp:105-109 | Swapping q1 and q2 turns the relative rotation conj(q2) (x) q1 into its conjugate. |
| TriclinicOps.MisorientationAngleIsSymmetric | Source/DREAM3DLib/OrientationOps/TriclinicOps.cpp:83-131 | The triclinic misorientation angle of (q1, q2) equals that of (q2, q1), if a rotation and its inverse convert to the same angle (`ConjugateKeepsAngle`). |
| TriclinicOps.TriclinicGrid | Source/DREAM3DLib/OrientationOps/TriclinicOps.cpp:44-49 | All three extents equal cbrt(3/4 (pi - sin pi)), all three steps are equal, there are 72 bins per axis, and 72 steps span exactly twice the extent. |
| TriclinicOps.BinIndices | Source/DREAM3DLib/OrientationOps/TriclinicOps.cpp:234-236 | phi0 and phi1 lie strictly between -72 and 72 for every int. For a non-negative bin number they lie in [0, 72), and phi2 is non-negative. Below 72^3, phi2 is below 72 as well. |
| TriclinicOps.BinIndicesRecompose | Source/DREAM3DLib/OrientationOps/TriclinicOps.cpp:234-236 | phi0 + 72 phi1 + 5184 phi2 gives back the bin number for every int, with C++ truncating division on negatives too. |
| TriclinicOps.BinIndicesRoundTrip | Source/DREAM3DLib/OrientationOps/TriclinicOps.cpp:256-258 | Every in-range index triple is the decomposition of its own bin number, and that number is below 72^3. |
| TriclinicOps.MDFFZRodAsWrittenIgnoresInput | Source/DREAM3DLib/OrientationOps/TriclinicOps.cpp:175-184 | The written getMDFFZRod returns the same vector for two inputs whose folded vectors differ, while the intended one distinguishes them. |
| TriclinicOps.GetMDFFZRod | Source/DREAM3DLib/OrientationOps/TriclinicOps.cpp:175-184 | Corrected: when the axis-angle and Rodrigues conversions are inverse, the result is the input folded toward the origin. |
| TriclinicOps.RodriguesVectorAsWrittenIgnoresBin | Source/DREAM3DLib/OrientationOps/TriclinicOps.cpp:244-263 | As written, determineRodriguesVector returns the same vector for every bin number, because the written getMDFFZRod ignores its input. |
| TriclinicOps.BinOrientationsAgree | Source/DREAM3DLib/OrientationOps/TriclinicOps.cpp:221-263 | With the corrected getMDFFZRod and inverse conversions, the Euler angles and the Rodrigues vector determined for one bin are the same folded orientation: the Euler angles are the Euler conversion of that Rodrigues vector. |
| TriclinicOps.GetSchmidFactorAndSS | Source/DREAM3DLib/OrientationOps/TriclinicOps.cpp:285-289 | The Schmid factor is 0 and the slip system is 0, for every load direction. |
| TriclinicOps.GetMPrime | Source/DREAM3DLib/OrientationOps/TriclinicOps.cpp:291-294 | m' is 0 for every input. |
| TriclinicOps.GetF1 | Source/DREAM3DLib/OrientationOps/TriclinicOps.cpp:296-299 | F1 is 0 for every input. |
| TriclinicOps.GetF1spt | Source/DREAM3DLib/OrientationOps/TriclinicOps.cpp:301-304 | F1spt is 0 for every input. |
| TriclinicOps.GetF7 | Source/DREAM3DLib/OrientationOps/TriclinicOps.cpp:306-309 | F7 is 0 for every input. |
| TriclinicPoleFigure.PairIsAntipodal | Source/DREAM3DLib/OrientationOps/TriclinicOps.cpp:350-352 | A direction written with its copy times -1 forms an antipodal pair of 3-vectors. |
| TriclinicPoleFigure.FamilyIsAntipodal | Source/DREAM3DLib/OrientationOps/TriclinicOps.cpp:348-360 | In one orientation's family, every second 3-vector is the negation of the one before it. |
| TriclinicPoleFigure.AllFamiliesAreAntipodal | Source/DREAM3DLib/OrientationOps/TriclinicOps.cpp:339-407 | The same holds across everything written for any number of orientations. |
| TriclinicPoleFigure.FamilyPairAt | Source/DREAM3DLib/OrientationOps/TriclinicOps.cpp:348-360 | Slot j of a family (6 floats at 6 j) is direction j of the table rotated into the sample frame, followed by its negation. |
| TriclinicPoleFigure.AllFamiliesPrefix | Source/DREAM3DLib/OrientationOps/TriclinicOps.cpp:339-407 | What is written for m orientations is a prefix of what is written for any n >= m: a later orientation never changes an earlier block. |
| TriclinicPoleFigure.AllFamiliesBlock | Source/DREAM3DLib/OrientationOps/TriclinicOps.cpp:339-407 | Orientation i's family occupies exactly the block between the lengths written for i and i + 1 orientations. |
| TriclinicPoleFigure.Block001 | Source/DREAM3DLib/OrientationOps/TriclinicOps.cpp:348-360 | The <001> output holds 18 floats per orientation, and orientation i's family is the 18 floats at offset 18 i. |
| TriclinicPoleFigure.Block011 | Source/DREAM3DLib/OrientationOps/TriclinicOps.cpp:363-387 | The <011> output holds 36 floats per orientation, and orientation i's family is the 36 floats at offset 36 i. |
| TriclinicPoleFigure.Block111 | Source/DREAM3DLib/OrientationOps/TriclinicOps.cpp:390-406 | The <111> output holds 24 floats per orientation, and orientation i's family is the 24 floats at offset 24 i. |
| TriclinicPoleFigure.StorePair | Source/DREAM3DLib/OrientationOps/TriclinicOps.cpp:350-352 | Writes v and then -v into the six floats at the offset. Every other entry of the array is unchanged. |
| TriclinicPoleFigure.StoreFamily | Source/DREAM3DLib/OrientationOps/TriclinicOps.cpp:349-360 | Writes the rotated pairs of the whole direction table, in table order, from the offset on. Every other entry is unchanged. |
| TriclinicPoleFigure.StoreDirection | Source/DREAM3DLib/OrientationOps/TriclinicOps.cpp:349-352 | Writing direction j's pair right after the pairs of directions 0 .. j - 1 extends the written family by one direction. Nothing else changes. |
| TriclinicPoleFigure.ReserveTuples | Source/DREAM3DLib/OrientationOps/TriclinicOps.cpp:325-328 | An array holding fewer tuples than needed gets a fresh buffer of the requested size. Otherwise it keeps its buffer and tuple count. |
| TriclinicPoleFigure.ReserveOutputs | Source/DREAM3DLib/OrientationOps/TriclinicOps.cpp:325-336 | The three size checks, with thresholds of 6, 12 and 8 tuples per orientation. A resized output gets three times that many tuples, and an output that is not resized keeps its buffer. |
| TriclinicPoleFigure.AppendFamily | Source/DREAM3DLib/OrientationOps/TriclinicOps.cpp:348-360 | Writing orientation i's family right after the first i families extends what was written to the first i + 1 orientations. |
| TriclinicPoleFigure.GenerateOrientation | Source/DREAM3DLib/OrientationOps/TriclinicOps.cpp:342-406 | One pass of the loop builds orientation i's sample frame from its Euler triple and writes all three families. It extends each output from i to i + 1 orientations and leaves everything else as it was. |
| TriclinicPoleFigure.GenerateAll | Source/DREAM3DLib/OrientationOps/TriclinicOps.cpp:339-407 | After the loop, each output array starts with the families of all orientations and keeps its previous contents after them. |
| TriclinicPoleFigure.FilledProduces | Source/DREAM3DLib/OrientationOps/TriclinicOps.cpp:325-407 | An output that passed its size check and was then filled satisfies the generator's promise for that output. |
| TriclinicPoleFigure.GenerateSphereCoordsFromEulers | Source/DREAM3DLib/OrientationOps/TriclinicOps.cpp:314-409 | The Euler array is untouched. Each output starts with the families of every orientation. It is either resized to needed * 3 tuples in a fresh buffer, or the same buffer with everything after the families unchanged. |
| MicroTextureGrouping.CAxisMisalignment | Source/Plugins/Reconstruction/ReconstructionFilters/GroupMicroTextureRegions.cpp:464-467 | A cosine in [-1, 1] gives its own arc cosine; a cosine above 1 saturates to acos(1) and one below -1 to acos(-1). If the arc cosine maps [-1, 1] into [0, pi] (`AcosInRange`), the angle lies in [0, pi], the range the tolerance test relies on. |
| MicroTextureGrouping.AlignedWithinIsNonPolar | Source/Plugins/Reconstruction/ReconstructionFilters/GroupMicroTextureRegions.cpp:468-468 | The tolerance test accepts an angle exactly when it accepts its supplement: c-axes are non-polar. |
| MicroTextureGrouping.DegreesToRadians | Source/Plugins/Reconstruction/ReconstructionFilters/GroupMicroTextureRegions.cpp:271-271 | The converted tolerance times 180 equals the entered tolerance times pi. |
| MicroTextureGrouping.ScanPosition | Source/Plugins/Reconstruction/ReconstructionFilters/GroupMicroTextureRegions.cpp:384-384 | The index examined at any step stays a valid feature index. |
| MicroTextureGrouping.ScanPositionIsModular | Source/Plugins/Reconstruction/ReconstructionFilters/GroupMicroTextureRegions.cpp:381-388 | The wrap-around step is (start + counter) mod n. |
| MicroTextureGrouping.ScanFrom | Source/Plugins/Reconstruction/ReconstructionFilters/GroupMicroTextureRegions.cpp:382-388 | The scan yields -1 or a valid feature index, and any index it yields is unassigned. |
| MicroTextureGrouping.ScanReachesEveryFeature | Source/Plugins/Reconstruction/ReconstructionFilters/GroupMicroTextureRegions.cpp:380-388 | Every feature is examined at some step below n, whatever the start. |
| MicroTextureGrouping.ScanFromIsFirst | Source/Plugins/Reconstruction/ReconstructionFilters/GroupMicroTextureRegions.cpp:382-388 | From a step on, the scan finds nothing exactly when every feature examined from there is assigned. Otherwise it finds the first unassigned one in scan order. |
| MicroTextureGrouping.SeedIsFirstUnassigned | Source/Plugins/Reconstruction/ReconstructionFilters/GroupMicroTextureRegions.cpp:380-392 | The seed is -1 exactly when no feature is unassigned. Otherwise it is unassigned, and every feature scanned before it is assigned. |
| MicroTextureGrouping.SwapStepPermutes | Source/Plugins/Reconstruction/ReconstructionFilters/GroupMicroTextureRegions.cpp:339-344 | One exchange, or a skipped out-of-range draw, keeps the multiset of ids. |
| MicroTextureGrouping.SwapStepsPermutes | Source/Plugins/Reconstruction/ReconstructionFilters/GroupMicroTextureRegions.cpp:336-345 | The whole swap loop keeps the multiset of ids. |
| MicroTextureGrouping.IotaCountsOnce | Source/Plugins/Reconstruction/ReconstructionFilters/GroupMicroTextureRegions.cpp:326-331 | The initial labelling holds each of 0 .. n - 1 exactly once and nothing else. |
| MicroTextureGrouping.ShuffleIsPermutation | Source/Plugins/Reconstruction/ReconstructionFilters/GroupMicroTextureRegions.cpp:326-345 | The shuffled labelling is a permutation of 0 .. n - 1: every entry lies in that range, and each of those ids occurs exactly once. |
| MicroTextureGrouping.RelabelKeepsUntouchedFeatures | Source/Plugins/Reconstruction/ReconstructionFilters/GroupMicroTextureRegions.cpp:348-352 | A feature that none of the visited cells belongs to keeps its parent id. |
| MicroTextureGrouping.RelabelLastCellDecides | Source/Plugins/Reconstruction/ReconstructionFilters/GroupMicroTextureRegions.cpp:348-352 | A feature's new parent id is the relabelled parent of the last of its cells. |
| MicroTextureGrouping.RelabelKeepsConsistency | Source/Plugins/Reconstruction/ReconstructionFilters/GroupMicroTextureRegions.cpp:348-352 | If every cell carried its feature's parent id before relabelling, every cell's new parent id is its feature's new parent id. |
| MicroTextureGrouping.Propagated | Source/Plugins/Reconstruction/ReconstructionFilters/GroupMicroTextureRegions.cpp:289-294 | After propagation, every cell carries its feature's parent id. |
| MicroTextureGrouping.NewGroupIds | Source/Plugins/Reconstruction/ReconstructionFilters/GroupMicroTextureRegions.cpp:324-345 | The fresh relabelling array equals `Shuffled`: the identity followed by the swap loop, which `ShuffleIsPermutation` shows to be a permutation. |
| MicroTextureGrouping.ShuffleIds | Source/Plugins/Reconstruction/ReconstructionFilters/GroupMicroTextureRegions.cpp:336-345 | The in-place swap loop leaves exactly the swap steps applied to the array's previous contents. |
| MicroTextureGrouping.GroupMicroTextureRegions.DetermineGrouping | Source/Plugins/Reconstruction/ReconstructionFilters/GroupMicroTextureRegions.cpp:419-481 | Returns true exactly when `Accepts` held on entry. The guards are: neighbour unassigned; both phases positive; neighbour hexagonal-high; reference hexagonal-high unless the running average is on; axes aligned within the tolerance. Only then does the neighbour's parent become newFid, and with the running average its volume-weighted c-axis is added to the sum. Nothing else changes. |
| MicroTextureGrouping.GroupMicroTextureRegions.GetSeed | Source/Plugins/Reconstruction/ReconstructionFilters/GroupMicroTextureRegions.cpp:358-414 | Returns the first unassigned feature in scan order from the start, or -1. Only the seed's parent id changes, to newFid. With the running average, the c-axis sum restarts from the seed's volume-weighted c-axis. The error condition is cleared. |
| MicroTextureGrouping.GroupMicroTextureRegions.RandomizeFeatureIds | Source/Plugins/Reconstruction/ReconstructionFilters/GroupMicroTextureRegions.cpp:313-353 | Each of the first totalPoints cells gets the shuffled image of its parent id, and the other cells are untouched. The feature parent ids become `RelabelFeatures` of the old ones, so the last cell of each feature decides. |
| MicroTextureGrouping.GroupMicroTextureRegions.BeginExecute | Source/Plugins/Reconstruction/ReconstructionFilters/GroupMicroTextureRegions.cpp:264-275 | The error is cleared, the tolerance is converted from degrees to radians, and the c-axis sum is zeroed. |
| MicroTextureGrouping.GroupMicroTextureRegions.FinishExecute | Source/Plugins/Reconstruction/ReconstructionFilters/GroupMicroTextureRegions.cpp:281-301 | With fewer than 2 groups, the error is -87000 and no parent id changes. Otherwise every cell gets its feature's parent id, optionally followed by the shuffle relabelling. Either way, every cell ends up carrying its feature's parent id. |

## Left out

- IEEE-754 single precision is not modelled: all arithmetic is on `real`, and the float constants (pi, 1/sqrt 2, 1/sqrt 3) are exact decimals.
- The routines whose code is not part of this model are fields of `Kernels`. They are constrained only by the named predicates in `orientation_math.dfy`, each required only by the results that use it:
  - QuattoAxisAngle, QuattoMat, EulertoMat, the Rodrigues/homochoric/Euler conversions, sqrt, acosf, powf, sinf, Normalize3x1 and CosThetaBetweenVectors;
  - the OrientationOps base-class helpers `_calcRodNearestOrigin`, `_calcNearestQuat`, `_calcQuatNearestOrigin`, `_calcMisoBin`, `_calcODFBin` and `_calcDetermineHomochoricValues`.
- GetMisoBin, GetOdfBin, HomochoricOfBin, GetODFFZRod, GetNearestQuat, GetFZQuat, DetermineEulerAngles: no contract of their own. Each only hands the triclinic table, grid or indices to a kernel. What is provable about them is stated on `TriclinicGrid`, `BinIndices` and `BinOrientationsAgree`.
- DetermineRodriguesVector: uses the corrected `GetMDFFZRod` (see Findings), so it returns the folded vector of the bin. The source calls the written getMDFFZRod, modelled by `DetermineRodriguesVectorAsWritten`, which returns the same vector for every bin.
- The quaternion and 3x3 matrix helpers whose code is not part of this model are given textbook real-arithmetic bodies rather than `Kernels` fields. These are QuaternionMath's Multiply (`QuatMul`, the Hamilton product with w as the scalar part) and Conjugate, and MatrixMath's Transpose3x3, Multiply3x3with3x1, Copy3x1, Multiply3x1withConstant and Add3x1s.
- The misorientation axis is not stated symmetric: swapping q1 and q2 gives the axis of the inverse rotation, which the conversion kernel leaves unconstrained.
- CalcMisoQuat: when the kept axis has norm 0, the source first divides by zero and then overwrites the axis with (0, 0, 1). The model takes the fallback directly, so the intermediate infinities and NaNs are not represented.
- The data array class of the library is not part of this model. `FloatArray` models only its buffer, tuple count and component count. `Resize` is assumed to take a tuple count, keep the values that fit and zero the rest.
- The generator's size check resizes an output to (orientations × tuples per orientation × 3) tuples. That is three times the tuples the loop writes, and the model states the size as written.
- GenerateSphereCoordsFromEulers requires the Euler array and the three outputs to be distinct objects with distinct buffers, and each output to have 3 components per tuple. The source checks neither, and overlapping arrays or outputs of another component count are not modelled.
- StoreFamily: the source writes each direction of a family by a separate group of statements. The model loops over the direction table, in the same order and at the same offsets.
- Random numbers are inputs:
  - `rands` are the shuffle's successive draws;
  - `start` is getSeed's first index.
  - The Mersenne-twister generator, its clock seed, and the truncation of a uniform [0, 1) draw scaled by (n - 1) are not modelled.
- GetSeed: any start below the feature count is accepted. The attribute-matrix resize and the refresh of the feature array handles after the seed is assigned are not modelled.
- The base-class grouping pass (`GroupFeatures::execute`) is not part of this model, so `execute` is split into `BeginExecute` (before that pass) and `FinishExecute` (after it). The number of groups that pass created is a parameter of `FinishExecute`.
- dataCheck, preflight, filter parameters, data-container lookup and status/error notifications are left out.
- The constructor defaults (tolerance 1.0, randomize on, running average off) are constructor parameters.
- RandomizeFeatureIds and FinishExecute require every parent id used to index the relabelling array to be in range. The source indexes it unchecked.
- The value 0 of the hexagonal-high crystal structure comes from the EBSD library's enumeration, which is not part of this model.
- Integer widths are not modelled: `size_t`, `int` and `int64_t` counters are unbounded. The bin number's truncating division and remainder are modelled as C++ computes them.

## Findings

| source | as written | input that shows it | evidently intended | confidence | as-written member | corrected member |
|---|---|---|---|---|---|---|
| Source/DREAM3DLib/OrientationOps/TriclinicOps.cpp:175-184 | getMDFFZRod folds the vector and converts it to axis-angle (w, n1, n2, n3). It then builds the output from the never-assigned locals FZw, FZn1, FZn2, FZn3, so the result does not depend on the input. | Any two vectors r, r' whose folded vectors differ: both come back as the same vector. | Convert the folded (w, n1, n2, n3) back to Rodrigues, giving the folded vector. | not executed | TriclinicOps.MDFFZRodAsWrittenIgnoresInput | TriclinicOps.GetMDFFZRod |
