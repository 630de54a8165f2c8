/**
 * Shared orientation arithmetic used by the triclinic orientation operator and
 * by the micro-texture grouping filter: 3-vectors, 3x3 matrices, quaternions,
 * the math constants, and the conversion routines whose bodies are not part of
 * this model.
 *
 * Floating point is modelled by `real`. A routine whose source is not part of
 * the model (quaternion to axis-angle, Euler angles to matrix, square root,
 * arc cosine, the Rodrigues/homochoric conversions and the shared solver
 * helpers of the orientation-ops base class) is a field of the `Kernels`
 * record: every operation that needs one takes the record as a parameter, and
 * the only facts known about a kernel are the ghost predicates at the end of
 * this module, each required exactly where the source relies on it.
 */
module OrientationMath {

  /** The math header's pi and its 1/sqrt(2), 1/sqrt(3), as exact reals. */
  const Pi: real := 3.1415926535897932384626433832795
  const TwoPi: real := 2.0 * Pi
  const OneOverRoot2: real := 0.70710678118654752440084436210485
  const OneOverRoot3: real := 0.57735026918962576450914878050196

  datatype Vec3 = Vec3(x: real, y: real, z: real)

  /** A 3x3 matrix given by its rows. */
  datatype Mat3 = Mat3(r0: Vec3, r1: Vec3, r2: Vec3)

  /** A quaternion stored as the library stores it: vector part first, then w. */
  datatype Quat = Quat(x: real, y: real, z: real, w: real)

  datatype AxisAngle = AxisAngle(angle: real, axis: Vec3)

  /** Histogram grid of one crystal class: per-axis extent, bin count and bin width. */
  datatype Grid = Grid(dim: Vec3, bins: Vec3, step: Vec3)

  function Dot(a: Vec3, b: Vec3): real
  {
    a.x * b.x + a.y * b.y + a.z * b.z
  }

  function Sq(v: real): real
  {
    v * v
  }

  /** Squared length: the sum of the squared components. */
  function NormSq(v: Vec3): real
  {
    Sq(v.x) + Sq(v.y) + Sq(v.z)
  }

  function Neg(v: Vec3): Vec3
  {
    Vec3(-v.x, -v.y, -v.z)
  }

  function Scale(v: Vec3, c: real): Vec3
  {
    Vec3(v.x * c, v.y * c, v.z * c)
  }

  function Add(a: Vec3, b: Vec3): Vec3
  {
    Vec3(a.x + b.x, a.y + b.y, a.z + b.z)
  }

  const MatIdentity: Mat3 := Mat3(Vec3(1.0, 0.0, 0.0), Vec3(0.0, 1.0, 0.0), Vec3(0.0, 0.0, 1.0))

  function Transpose(m: Mat3): Mat3
  {
    Mat3(Vec3(m.r0.x, m.r1.x, m.r2.x),
         Vec3(m.r0.y, m.r1.y, m.r2.y),
         Vec3(m.r0.z, m.r1.z, m.r2.z))
  }

  /** Matrix times column vector. */
  function MatVec(m: Mat3, v: Vec3): Vec3
  {
    Vec3(Dot(m.r0, v), Dot(m.r1, v), Dot(m.r2, v))
  }

  /** The identity rotation: no vector part, w = 1. */
  const QuatIdentity: Quat := Quat(0.0, 0.0, 0.0, 1.0)

  function Conjugate(q: Quat): Quat
  {
    Quat(-q.x, -q.y, -q.z, q.w)
  }

  /** Hamilton product a (x) b, the composition the quaternion library uses. */
  function QuatMul(a: Quat, b: Quat): Quat
  {
    Quat(a.w * b.x + a.x * b.w + a.y * b.z - a.z * b.y,
         a.w * b.y + a.y * b.w + a.z * b.x - a.x * b.z,
         a.w * b.z + a.z * b.w + a.x * b.y - a.y * b.x,
         a.w * b.w - a.x * b.x - a.y * b.y - a.z * b.z)
  }

  function QuatNormSq(q: Quat): real
  {
    q.x * q.x + q.y * q.y + q.z * q.z + q.w * q.w
  }

  /**
   * Bounds a cosine (or a quaternion's w) to [-1, 1] before it reaches an
   * inverse cosine: out-of-range values go to the nearest bound, in-range
   * values are untouched.
   */
  function Clamp(v: real): (c: real)
    ensures -1.0 <= c <= 1.0
    ensures -1.0 <= v <= 1.0 ==> c == v
    ensures v < -1.0 ==> c == -1.0
    ensures 1.0 < v ==> c == 1.0
  {
    if v < -1.0 then -1.0 else if v > 1.0 then 1.0 else v
  }

  /**
   * The routines whose source is not part of this model, one field each.
   * Sequences stand for the C arrays of symmetry operators passed to the
   * base-class helpers.
   */
  datatype Kernels = Kernels(
    quatToAxisAngle: Quat -> AxisAngle,
    quatToMat: Quat -> Mat3,
    eulerToMat: Vec3 -> Mat3,
    rodToHomochoric: Vec3 -> Vec3,
    homochoricToRod: Vec3 -> Vec3,
    rodToEuler: Vec3 -> Vec3,
    rodToAxisAngle: Vec3 -> AxisAngle,
    axisAngleToRod: AxisAngle -> Vec3,
    sqrt: real -> real,
    acos: real -> real,
    pow: (real, real) -> real,
    sin: real -> real,
    normalize: Vec3 -> Vec3,
    cosThetaBetween: (Vec3, Vec3) -> real,
    rodNearestOrigin: (seq<Vec3>, Vec3) -> Vec3,
    nearestQuat: (seq<Quat>, Quat, Quat) -> Quat,
    quatNearestOrigin: (seq<Quat>, Quat) -> Quat,
    misoBin: (Grid, Vec3) -> int,
    odfBin: (Grid, Vec3) -> int,
    homochoricOfBin: (Grid, Vec3, int) -> Vec3
  )

  /**
   * For a quaternion whose w lies in [-1, 1], where the arc cosine is
   * defined, the axis-angle conversion reports an angle in [0, 2 pi].
   */
  ghost predicate AngleInRange(k: Kernels)
  {
    forall q: Quat :: -1.0 <= q.w <= 1.0 ==> 0.0 <= k.quatToAxisAngle(q).angle <= TwoPi
  }

  /** The identity rotation converts to angle 0. */
  ghost predicate IdentityHasZeroAngle(k: Kernels)
  {
    k.quatToAxisAngle(QuatIdentity).angle == 0.0
  }

  /** A rotation and its inverse (the conjugate) convert to the same angle. */
  ghost predicate ConjugateKeepsAngle(k: Kernels)
  {
    forall q :: k.quatToAxisAngle(Conjugate(q)).angle == k.quatToAxisAngle(q).angle
  }

  /** The arc cosine kernel maps [-1, 1] into [0, pi]. */
  ghost predicate AcosInRange(k: Kernels)
  {
    forall x :: -1.0 <= x <= 1.0 ==> 0.0 <= k.acos(x) <= Pi
  }

  /** The square root kernel is the non-negative square root, zero only at zero. */
  ghost predicate SqrtIsRoot(k: Kernels)
  {
    forall x :: 0.0 <= x ==> 0.0 <= k.sqrt(x) && Sq(k.sqrt(x)) == x && (k.sqrt(x) == 0.0 <==> x == 0.0)
  }

  /** Rodrigues -> axis-angle -> Rodrigues gives back the vector it started from. */
  ghost predicate RodAxisAngleRoundTrip(k: Kernels)
  {
    forall r :: k.axisAngleToRod(k.rodToAxisAngle(r)) == r
  }
}
