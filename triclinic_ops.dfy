/**
 * The triclinic crystal-class orientation operator: its one-entry symmetry
 * tables, the generic misorientation search over a table of N quaternion
 * operators (the triclinic binding is the N = 1 instance), the histogram grid
 * constants, the decomposition of a bin number into per-axis indices, the
 * neutral slip-system queries, and the thin bindings to the shared solver
 * helpers of the orientation-ops base class.
 */
module TriclinicOps {
  import opened OrientationMath

  // ---------------------------------------------------------------------------
  // Symmetry tables

  const NumSym: nat := 1
  const QuatSym: seq<Quat> := [Quat(0.0, 0.0, 0.0, 1.0)]
  const RodSym: seq<Vec3> := [Vec3(0.0, 0.0, 0.0)]
  const MatSym: seq<Mat3> := [Mat3(Vec3(1.0, 0.0, 0.0), Vec3(0.0, 1.0, 0.0), Vec3(0.0, 0.0, 1.0))]

  /** The quaternion operator i is the identity rotation: composing with it changes nothing. */
  function GetQuatSymOp(i: int): (q: Quat)
    requires 0 <= i < NumSym
    ensures forall p :: QuatMul(p, q) == p && QuatMul(q, p) == p
  {
    QuatSym[i]
  }

  /** The Rodrigues operator i is the zero vector, the Rodrigues vector of no rotation. */
  function GetRodSymOp(i: int): (r: Vec3)
    requires 0 <= i < NumSym
    ensures NormSq(r) == 0.0
  {
    RodSym[i]
  }

  /** The matrix operator i maps every direction to itself. */
  function GetMatSymOp(i: int): (g: Mat3)
    requires 0 <= i < NumSym
    ensures forall v :: MatVec(g, v) == v
    ensures Transpose(g) == g
  {
    MatSym[i]
  }

  // ---------------------------------------------------------------------------
  // Misorientation search

  /** Initial value of the running minimum angle. */
  const Sentinel: real := 9999999.0

  datatype Misorientation = Misorientation(angle: real, axis: Vec3)

  /** Relative rotation conj(q2) (x) q1 of the two orientations. */
  function Relative(q1: Quat, q2: Quat): Quat
  {
    QuatMul(Conjugate(q2), q1)
  }

  /** The composed quaternion with w bounded to [-1, 1]; its vector part is kept. */
  function ClampW(q: Quat): (c: Quat)
    ensures -1.0 <= c.w <= 1.0
    ensures c.x == q.x && c.y == q.y && c.z == q.z
    ensures -1.0 <= q.w <= 1.0 ==> c == q
  {
    q.(w := Clamp(q.w))
  }

  /**
   * Folds a rotation angle above pi to 2 pi - w, the same rotation about the
   * opposite axis; the result never exceeds pi, and lies in [0, pi] when the
   * angle came from [0, 2 pi].
   */
  function FoldAngle(w: real): (f: real)
    ensures f <= Pi
    ensures 0.0 <= w <= TwoPi ==> 0.0 <= f
    ensures f == w || f == TwoPi - w
  {
    if w > Pi then TwoPi - w else w
  }

  /** The folded axis-angle of qr (x) op, after clamping w. */
  function Candidate(k: Kernels, qr: Quat, op: Quat): AxisAngle
  {
    var aa := k.quatToAxisAngle(ClampW(QuatMul(qr, op)));
    AxisAngle(FoldAngle(aa.angle), aa.axis)
  }

  function Candidates(k: Kernels, qr: Quat, ops: seq<Quat>, numsym: nat): (c: seq<AxisAngle>)
    requires numsym <= |ops|
    ensures |c| == numsym
    ensures forall i :: 0 <= i < numsym ==> c[i] == Candidate(k, qr, ops[i])
  {
    seq(numsym, i requires 0 <= i < numsym => Candidate(k, qr, ops[i]))
  }

  /**
   * The search's running state after scanning `c` in order: a candidate
   * replaces the kept one only if its angle is strictly smaller.
   */
  function Best(c: seq<AxisAngle>): AxisAngle
  {
    if c == [] then AxisAngle(Sentinel, Vec3(0.0, 0.0, 0.0))
    else
      var b := Best(c[..|c| - 1]);
      if c[|c| - 1].angle < b.angle then c[|c| - 1] else b
  }

  /** Index j holds the smallest angle of c, and every earlier index a strictly larger one. */
  ghost predicate IsFirstMinimum(c: seq<AxisAngle>, j: int)
  {
    && 0 <= j < |c|
    && (forall i :: 0 <= i < |c| ==> c[j].angle <= c[i].angle)
    && (forall i :: 0 <= i < j ==> c[j].angle < c[i].angle)
  }

  /** The kept axis divided by its length; (0, 0, 1) when the length or the angle is zero. */
  function NormalizedAxis(k: Kernels, b: AxisAngle): Vec3
  {
    var denom := k.sqrt(NormSq(b.axis));
    if denom == 0.0 || b.angle == 0.0 then Vec3(0.0, 0.0, 1.0)
    else Vec3(b.axis.x / denom, b.axis.y / denom, b.axis.z / denom)
  }

  function Finish(k: Kernels, b: AxisAngle): Misorientation
  {
    Misorientation(b.angle, NormalizedAxis(k, b))
  }

  /** What the search returns for the first numsym operators of the table. */
  function MisoQuatSpec(k: Kernels, ops: seq<Quat>, numsym: nat, q1: Quat, q2: Quat): Misorientation
    requires numsym <= |ops|
  {
    Finish(k, Best(Candidates(k, Relative(q1, q2), ops, numsym)))
  }

  /**
   * The generic search: for each operator, compose, clamp w, convert to
   * axis-angle, fold, and keep the first strict minimum; then normalise the
   * kept axis with the (0, 0, 1) fallback.
   */
  method CalcMisoQuat(k: Kernels, quatsym: seq<Quat>, numsym: nat, q1: Quat, q2: Quat)
    returns (wmin: real, n: Vec3)
    requires numsym <= |quatsym|
    ensures Misorientation(wmin, n) == MisoQuatSpec(k, quatsym, numsym, q1, q2)
  {
    ghost var cands := Candidates(k, Relative(q1, q2), quatsym, numsym);
    wmin := Sentinel;
    var w := 0.0;
    var n1min, n2min, n3min := 0.0, 0.0, 0.0;
    var q2inv := Conjugate(q2);
    var qr := QuatMul(q2inv, q1);
    var i := 0;
    while i < numsym
      invariant 0 <= i <= numsym
      invariant Best(cands[..i]) == AxisAngle(wmin, Vec3(n1min, n2min, n3min))
    {
      var qc := QuatMul(qr, quatsym[i]);
      if qc.w < -1.0 {
        qc := qc.(w := -1.0);
      } else if qc.w > 1.0 {
        qc := qc.(w := 1.0);
      }
      var aa := k.quatToAxisAngle(qc);
      w := aa.angle;
      if w > Pi {
        w := TwoPi - w;
      }
      if w < wmin {
        wmin := w;
        n1min, n2min, n3min := aa.axis.x, aa.axis.y, aa.axis.z;
      }
      assert cands[..i + 1][..i] == cands[..i];
      i := i + 1;
    }
    assert cands[..numsym] == cands;
    assert Best(cands) == AxisAngle(wmin, Vec3(n1min, n2min, n3min));
    var denom := k.sqrt(n1min * n1min + n2min * n2min + n3min * n3min);
    assert NormSq(Vec3(n1min, n2min, n3min)) == n1min * n1min + n2min * n2min + n3min * n3min;
    assert denom == k.sqrt(NormSq(Vec3(n1min, n2min, n3min)));
    assert denom == k.sqrt(NormSq(Best(cands).axis));
    if denom == 0.0 || wmin == 0.0 {
      n := Vec3(0.0, 0.0, 1.0);
    } else {
      n := Vec3(n1min / denom, n2min / denom, n3min / denom);
    }
  }

  lemma {:induction false} BestIsLowerBound(c: seq<AxisAngle>)
    ensures Best(c).angle <= Sentinel
    ensures forall i :: 0 <= i < |c| ==> Best(c).angle <= c[i].angle
  {
    if c != [] {
      var p := c[..|c| - 1];
      BestIsLowerBound(p);
      forall i | 0 <= i < |c| - 1
        ensures Best(c).angle <= c[i].angle
      {
        assert c[i] == p[i];
      }
    }
  }

  /**
   * When every candidate is below the sentinel and there is at least one, the
   * search keeps exactly the first candidate reaching the minimum angle.
   */
  lemma {:induction false} BestIsFirstMinimum(c: seq<AxisAngle>)
    requires |c| > 0
    requires forall i :: 0 <= i < |c| ==> c[i].angle < Sentinel
    ensures exists j :: IsFirstMinimum(c, j) && Best(c) == c[j]
  {
    var p := c[..|c| - 1];
    var last := c[|c| - 1];
    if p == [] {
      assert IsFirstMinimum(c, 0) && Best(c) == c[0];
    } else {
      BestIsFirstMinimum(p);
      var j :| IsFirstMinimum(p, j) && Best(p) == p[j];
      assert forall i :: 0 <= i < |p| ==> p[i] == c[i];
      if last.angle < Best(p).angle {
        assert IsFirstMinimum(c, |c| - 1);
      } else {
        assert IsFirstMinimum(c, j);
      }
    }
  }

  /**
   * The search returns the first operator's candidate among those achieving
   * the minimum folded angle, with that candidate's axis normalised; the
   * sentinel never survives a non-empty table.
   */
  lemma MisoQuatIsFirstMinimum(k: Kernels, ops: seq<Quat>, numsym: nat, q1: Quat, q2: Quat)
    requires 1 <= numsym <= |ops|
    ensures var c := Candidates(k, Relative(q1, q2), ops, numsym);
      exists j :: IsFirstMinimum(c, j) && MisoQuatSpec(k, ops, numsym, q1, q2) == Finish(k, c[j])
    ensures MisoQuatSpec(k, ops, numsym, q1, q2).angle <= Pi
  {
    var c := Candidates(k, Relative(q1, q2), ops, numsym);
    BestIsFirstMinimum(c);
  }

  /** If the axis-angle conversion reports angles in [0, 2 pi], the result lies in [0, pi]. */
  lemma MisoQuatAngleInRange(k: Kernels, ops: seq<Quat>, numsym: nat, q1: Quat, q2: Quat)
    requires AngleInRange(k)
    requires 1 <= numsym <= |ops|
    ensures 0.0 <= MisoQuatSpec(k, ops, numsym, q1, q2).angle <= Pi
  {
    var c := Candidates(k, Relative(q1, q2), ops, numsym);
    BestIsFirstMinimum(c);
    var j :| IsFirstMinimum(c, j) && Best(c) == c[j];
    assert 0.0 <= k.quatToAxisAngle(ClampW(QuatMul(Relative(q1, q2), ops[j]))).angle <= TwoPi;
  }

  // Real-arithmetic steps behind the unit-axis lemma.

  lemma SqNonNegative(v: real)
    ensures 0.0 <= Sq(v)
  {
  }

  /** Dividing each component by the vector's length gives a unit vector. */
  lemma UnitAfterDivide(ax: real, ay: real, az: real, d: real)
    requires Sq(d) != 0.0 && Sq(d) == Sq(ax) + Sq(ay) + Sq(az)
    ensures Sq(ax / d) + Sq(ay / d) + Sq(az / d) == 1.0
  {
  }

  /** With a true square root, the returned axis always has unit length. */
  lemma {:induction false} NormalizedAxisIsUnit(k: Kernels, b: AxisAngle)
    requires SqrtIsRoot(k)
    ensures NormSq(NormalizedAxis(k, b)) == 1.0
  {
    var s := NormSq(b.axis);
    var d := k.sqrt(s);
    SqNonNegative(b.axis.x);
    SqNonNegative(b.axis.y);
    SqNonNegative(b.axis.z);
    assert Sq(d) == s && (d == 0.0 <==> s == 0.0);
    if !(d == 0.0 || b.angle == 0.0) {
      UnitAfterDivide(b.axis.x, b.axis.y, b.axis.z, d);
    }
  }

  // ---------------------------------------------------------------------------
  // Triclinic misorientation

  /** The folded, normalised axis-angle of conj(q2) (x) q1 itself, with no symmetry applied. */
  function UnsymmetrizedMiso(k: Kernels, q1: Quat, q2: Quat): Misorientation
  {
    var aa := k.quatToAxisAngle(ClampW(Relative(q1, q2)));
    Finish(k, AxisAngle(FoldAngle(aa.angle), aa.axis))
  }

  /** Triclinic binding: one operator, the identity, so no symmetry reduction happens. */
  method GetMisoQuat(k: Kernels, q1: Quat, q2: Quat) returns (angle: real, n: Vec3)
    ensures Misorientation(angle, n) == UnsymmetrizedMiso(k, q1, q2)
  {
    var numsym := 1;
    angle, n := CalcMisoQuat(k, QuatSym, numsym, q1, q2);
    var c := Candidates(k, Relative(q1, q2), QuatSym, numsym);
    assert QuatMul(Relative(q1, q2), QuatSym[0]) == Relative(q1, q2);
    assert c[..|c| - 1] == [];
    assert c[0] == Candidate(k, Relative(q1, q2), QuatSym[0]);
    assert Best(c) == c[0];
  }

  /**
   * A unit quaternion has no misorientation from itself: angle 0 and the
   * fallback axis (0, 0, 1), provided the conversion maps the identity to 0.
   */
  lemma TriclinicSelfMisorientation(k: Kernels, q: Quat)
    requires QuatNormSq(q) == 1.0
    requires IdentityHasZeroAngle(k)
    ensures UnsymmetrizedMiso(k, q, q) == Misorientation(0.0, Vec3(0.0, 0.0, 1.0))
  {
    ConjugateTimesSelf(q);
    assert Relative(q, q) == QuatIdentity;
    assert ClampW(QuatIdentity) == QuatIdentity;
  }

  /** Swapping the two orientations inverts their relative rotation. */
  lemma RelativeSwapIsConjugate(q1: Quat, q2: Quat)
    ensures Relative(q2, q1) == Conjugate(Relative(q1, q2))
  {
  }

  /**
   * The misorientation angle does not depend on the order of the two
   * orientations, provided a rotation and its inverse convert to the same angle.
   */
  lemma MisorientationAngleIsSymmetric(k: Kernels, q1: Quat, q2: Quat)
    requires ConjugateKeepsAngle(k)
    ensures UnsymmetrizedMiso(k, q1, q2).angle == UnsymmetrizedMiso(k, q2, q1).angle
  {
    RelativeSwapIsConjugate(q1, q2);
    assert ClampW(Relative(q2, q1)) == Conjugate(ClampW(Relative(q1, q2)));
  }

  /** conj(q) (x) q has no vector part and w equal to the squared norm of q. */
  lemma ConjugateTimesSelf(q: Quat)
    ensures QuatMul(Conjugate(q), q) == Quat(0.0, 0.0, 0.0, QuatNormSq(q))
  {
  }

  // ---------------------------------------------------------------------------
  // Histogram grid

  /** Cube root of 3/4 (pi - sin pi), the half-extent of every grid axis. */
  function DimInitValue(k: Kernels): real
  {
    k.pow(0.75 * (Pi - k.sin(Pi)), 1.0 / 3.0)
  }

  /**
   * The triclinic grid is uniform: the same extent on all three axes, 72
   * bins per axis, and 72 bins of width dim/36 span exactly [-dim, dim].
   */
  function TriclinicGrid(k: Kernels): (g: Grid)
    ensures g.dim.x == g.dim.y == g.dim.z == DimInitValue(k)
    ensures g.bins == Vec3(72.0, 72.0, 72.0)
    ensures g.step.x == g.step.y == g.step.z
    ensures g.bins.x * g.step.x == 2.0 * g.dim.x
  {
    var d := DimInitValue(k);
    var s := d / 36.0;
    Grid(Vec3(d, d, d), Vec3(72.0, 72.0, 72.0), Vec3(s, s, s))
  }

  function GetMisoBin(k: Kernels, r: Vec3): int
  {
    k.misoBin(TriclinicGrid(k), k.rodToHomochoric(r))
  }

  function GetOdfBin(k: Kernels, r: Vec3): int
  {
    k.odfBin(TriclinicGrid(k), k.rodToHomochoric(r))
  }

  // ---------------------------------------------------------------------------
  // Bin number -> per-axis indices

  /** C++ integer division, truncating toward zero. */
  function TruncDiv(a: int, b: int): int
    requires b > 0
  {
    if a >= 0 then a / b else -((-a) / b)
  }

  /** C++ remainder, with the sign of the dividend. */
  function TruncMod(a: int, b: int): int
    requires b > 0
  {
    if a >= 0 then a % b else -((-a) % b)
  }

  datatype BinIndex = BinIndex(phi0: int, phi1: int, phi2: int)

  /** (choose % 72, (choose / 72) % 72, choose / (72 * 72)) with C++ arithmetic. */
  function BinIndices(choose: int): (p: BinIndex)
    ensures -72 < p.phi0 < 72 && -72 < p.phi1 < 72
    ensures 0 <= choose ==> 0 <= p.phi0 < 72 && 0 <= p.phi1 < 72 && 0 <= p.phi2
    ensures 0 <= choose < 72 * 72 * 72 ==> p.phi2 < 72
  {
    BinIndex(TruncMod(choose, 72), TruncMod(TruncDiv(choose, 72), 72), TruncDiv(choose, 72 * 72))
  }

  function ComposeBin(p: BinIndex): int
  {
    p.phi0 + 72 * p.phi1 + 5184 * p.phi2
  }

  lemma NonNegativeRecompose(a: nat)
    ensures a % 72 + 72 * ((a / 72) % 72) + 5184 * (a / 5184) == a
  {
  }

  /** The three indices recombine to the bin number, for every int (negatives too). */
  lemma BinIndicesRecompose(choose: int)
    ensures ComposeBin(BinIndices(choose)) == choose
  {
    if choose >= 0 {
      NonNegativeRecompose(choose);
    } else {
      NonNegativeRecompose(-choose);
    }
  }

  /** Each in-range index triple is the decomposition of its own bin number. */
  lemma BinIndicesRoundTrip(p: BinIndex)
    requires 0 <= p.phi0 < 72 && 0 <= p.phi1 < 72 && 0 <= p.phi2 < 72
    ensures 0 <= ComposeBin(p) < 72 * 72 * 72
    ensures BinIndices(ComposeBin(p)) == p
  {
  }

  /** The decomposed indices as the floats handed to the homochoric helper. */
  function PhiOf(choose: int): Vec3
  {
    var p := BinIndices(choose);
    Vec3(p.phi0 as real, p.phi1 as real, p.phi2 as real)
  }

  function HomochoricOfBin(k: Kernels, choose: int): Vec3
  {
    k.homochoricOfBin(TriclinicGrid(k), PhiOf(choose), choose)
  }

  // ---------------------------------------------------------------------------
  // Fundamental-zone bindings (the helpers themselves are kernels)

  function GetODFFZRod(k: Kernels, r: Vec3): Vec3
  {
    k.rodNearestOrigin(RodSym, r)
  }

  function GetNearestQuat(k: Kernels, q1: Quat, q2: Quat): Quat
  {
    k.nearestQuat(QuatSym, q1, q2)
  }

  function GetFZQuat(k: Kernels, qr: Quat): Quat
  {
    k.quatNearestOrigin(QuatSym, qr)
  }

  /**
   * getMDFFZRod as written: the folded vector and its axis-angle are
   * computed and then discarded, and the output is the Rodrigues vector of
   * four never-assigned locals, represented here by `uninitialised`.
   */
  function GetMDFFZRodAsWritten(k: Kernels, r: Vec3, uninitialised: AxisAngle): Vec3
  {
    var folded := k.rodNearestOrigin(RodSym, r);
    var aa := k.rodToAxisAngle(folded);
    k.axisAngleToRod(uninitialised)
  }

  /**
   * The written getMDFFZRod returns the same vector for any two inputs, so it
   * cannot equal the folded input once folding separates them.
   */
  lemma MDFFZRodAsWrittenIgnoresInput(k: Kernels, r: Vec3, r': Vec3, u: AxisAngle)
    requires RodAxisAngleRoundTrip(k)
    requires GetODFFZRod(k, r) != GetODFFZRod(k, r')
    ensures GetMDFFZRodAsWritten(k, r, u) == GetMDFFZRodAsWritten(k, r', u)
    ensures GetMDFFZRod(k, r) != GetMDFFZRod(k, r')
  {
  }

  /**
   * getMDFFZRod as evidently intended: fold toward the origin, then round-trip
   * through axis-angle; with inverse conversions this is the folded vector.
   */
  function GetMDFFZRod(k: Kernels, r: Vec3): (out: Vec3)
    ensures RodAxisAngleRoundTrip(k) ==> out == GetODFFZRod(k, r)
  {
    var folded := k.rodNearestOrigin(RodSym, r);
    var aa := k.rodToAxisAngle(folded);
    k.axisAngleToRod(aa)
  }

  function DetermineEulerAngles(k: Kernels, choose: int): Vec3
  {
    var r := k.homochoricToRod(HomochoricOfBin(k, choose));
    k.rodToEuler(GetODFFZRod(k, r))
  }

  function DetermineRodriguesVector(k: Kernels, choose: int): Vec3
  {
    var r := k.homochoricToRod(HomochoricOfBin(k, choose));
    GetMDFFZRod(k, r)
  }

  /** determineRodriguesVector as written, through the written getMDFFZRod. */
  function DetermineRodriguesVectorAsWritten(k: Kernels, choose: int, uninitialised: AxisAngle): Vec3
  {
    var r := k.homochoricToRod(HomochoricOfBin(k, choose));
    GetMDFFZRodAsWritten(k, r, uninitialised)
  }

  /** As written, every bin yields the same Rodrigues vector. */
  lemma RodriguesVectorAsWrittenIgnoresBin(k: Kernels, choose: int, choose': int, u: AxisAngle)
    ensures DetermineRodriguesVectorAsWritten(k, choose, u) == DetermineRodriguesVectorAsWritten(k, choose', u)
  {
  }

  /**
   * With inverse conversions, the Euler angles and the Rodrigues vector
   * determined for one bin describe the same folded orientation.
   */
  lemma BinOrientationsAgree(k: Kernels, choose: int)
    requires RodAxisAngleRoundTrip(k)
    ensures DetermineEulerAngles(k, choose) == k.rodToEuler(DetermineRodriguesVector(k, choose))
  {
  }

  // ---------------------------------------------------------------------------
  // Slip-system queries: no slip model for this class, so neutral values

  datatype SchmidResult = SchmidResult(schmidFactor: real, slipSystem: int)

  function GetSchmidFactorAndSS(load: Vec3): (r: SchmidResult)
    ensures r.schmidFactor == 0.0 && r.slipSystem == 0
  {
    SchmidResult(0.0, 0)
  }

  function GetMPrime(q1: Quat, q2: Quat, ld: Vec3): (mPrime: real)
    ensures mPrime == 0.0
  {
    0.0
  }

  function GetF1(q1: Quat, q2: Quat, ld: Vec3, maxSF: bool): (f1: real)
    ensures f1 == 0.0
  {
    0.0
  }

  function GetF1spt(q1: Quat, q2: Quat, ld: Vec3, maxSF: bool): (f1spt: real)
    ensures f1spt == 0.0
  {
    0.0
  }

  function GetF7(q1: Quat, q2: Quat, ld: Vec3, maxSF: bool): (f7: real)
    ensures f7 == 0.0
  {
    0.0
  }
}
