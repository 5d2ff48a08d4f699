/**
 * `Mat3` (src/matrix/mat3.rs): constructors, the transformation builders, the transposes,
 * and the 3×3 determinant that `Mat4::minor` relies on.
 *
 * Vectors multiply matrices from the left (`M * v` sums `v[j] * M[j][i]`), so a builder's
 * row i is the image of the i-th axis.
 */
module Matrix3 {
  import opened Core
  import opened Float
  import opened Sums
  import opened Vectors
  import opened Matrix
  import Vector3

  function New(s0e0: real, s0e1: real, s0e2: real,
               s1e0: real, s1e1: real, s1e2: real,
               s2e0: real, s2e1: real, s2e2: real): (m: Mat3)
  {
    [[s0e0, s0e1, s0e2], [s1e0, s1e1, s1e2], [s2e0, s2e1, s2e2]]
  }

  /** `new` stores its arguments row-major: entry [r][c] is argument `3r + c`. */
  lemma NewRowMajor(s: seq<real>)
    requires |s| == 9
    ensures forall r, c :: 0 <= r < 3 && 0 <= c < 3 ==>
      New(s[0], s[1], s[2], s[3], s[4], s[5], s[6], s[7], s[8])[r][c] == s[3 * r + c]
  {
  }

  function Zero(): (m: Mat3)
  {
    [[0.0, 0.0, 0.0], [0.0, 0.0, 0.0], [0.0, 0.0, 0.0]]
  }

  function Default(): (m: Mat3)
  {
    [[1.0, 0.0, 0.0], [0.0, 1.0, 0.0], [0.0, 0.0, 1.0]]
  }

  /** `zero` is the null matrix and `Default` the identity. */
  lemma ZeroAndDefault()
    ensures Zero() == Matrix.Zero(3)
    ensures Default() == Identity(3)
  {
    assert forall x | 0 <= x < 3 :: Zero()[x] == Matrix.Zero(3)[x];
    assert forall x | 0 <= x < 3 :: Default()[x] == Identity(3)[x];
  }

  /** Spells out the nine entries of a 3×3 matrix, for extensionality. */
  lemma Entries(m: Mat3)
    ensures m == New(m[0][0], m[0][1], m[0][2], m[1][0], m[1][1], m[1][2], m[2][0], m[2][1], m[2][2])
  {
    assert m == [m[0], m[1], m[2]];
    assert forall x | 0 <= x < 3 :: m[x] == [m[x][0], m[x][1], m[x][2]];
  }

  /** `from_array`: the array is the matrix. */
  function FromArray(arr: Mat3): (m: Mat3)
  {
    arr
  }

  /** `from_array(arr)` is `new` called with the array's entries in row order. */
  lemma FromArrayIsNew(arr: Mat3)
    ensures FromArray(arr) == New(arr[0][0], arr[0][1], arr[0][2], arr[1][0], arr[1][1], arr[1][2],
                                  arr[2][0], arr[2][1], arr[2][2])
  {
    Entries(arr);
  }

  function FromVec(f: Vec3, s: Vec3, t: Vec3): (m: Mat3)
  {
    [[f[0], f[1], f[2]], [s[0], s[1], s[2]], [t[0], t[1], t[2]]]
  }

  /** The rows of `from_vec(f, s, t)` are `f`, `s` and `t`. */
  lemma FromVecRows(f: Vec3, s: Vec3, t: Vec3)
    ensures Index(FromVec(f, s, t), 0) == Value(f)
    ensures Index(FromVec(f, s, t), 1) == Value(s)
    ensures Index(FromVec(f, s, t), 2) == Value(t)
    ensures Index(FromVec(f, s, t), 3) == Panic
  {
    assert f == [f[0], f[1], f[2]] && s == [s[0], s[1], s[2]] && t == [t[0], t[1], t[2]];
  }

  /** The matrix–vector product of a 3×3 matrix, written out. */
  lemma MulVec3(m: Mat3, v: Vec3)
    ensures |MulVec(m, v)| == 3
    ensures MulVec(m, v)[0] == v[0] * m[0][0] + v[1] * m[1][0] + v[2] * m[2][0]
    ensures MulVec(m, v)[1] == v[0] * m[0][1] + v[1] * m[1][1] + v[2] * m[2][1]
    ensures MulVec(m, v)[2] == v[0] * m[0][2] + v[1] * m[1][2] + v[2] * m[2][2]
  {
    Sum3(VecTerms(m, v, 0));
    Sum3(VecTerms(m, v, 1));
    Sum3(VecTerms(m, v, 2));
  }

  /** Entry [i][j] of the product of two 3×3 matrices, written out. */
  lemma ProductEntry3(a: Mat3, b: Mat3, i: nat, j: nat)
    requires i < 3 && j < 3
    ensures Product(a, b)[i][j] == a[0][j] * b[i][0] + a[1][j] * b[i][1] + a[2][j] * b[i][2]
  {
    Sum3(Terms(a, b, i, j));
  }

  /** Three-component sequences with equal components are equal. */
  lemma Ext3(a: seq<real>, b: seq<real>)
    requires |a| == 3 && |b| == 3
    requires a[0] == b[0] && a[1] == b[1] && a[2] == b[2]
    ensures a == b
  {
    assert a == [a[0], a[1], a[2]];
  }

  /** 3×3 matrices with equal entries are equal. */
  lemma Ext33(a: Mat3, b: Mat3)
    requires a[0][0] == b[0][0] && a[0][1] == b[0][1] && a[0][2] == b[0][2]
    requires a[1][0] == b[1][0] && a[1][1] == b[1][1] && a[1][2] == b[1][2]
    requires a[2][0] == b[2][0] && a[2][1] == b[2][1] && a[2][2] == b[2][2]
    ensures a == b
  {
    Entries(a);
    Entries(b);
  }

  // ----------------------------------------------------------------- axis rotations

  function RotationX(f: Float, ang: real): (m: Mat3)
  {
    [[1.0, 0.0, 0.0], [0.0, f.cos(ang), f.sin(ang)], [0.0, -f.sin(ang), f.cos(ang)]]
  }

  function RotationY(f: Float, ang: real): (m: Mat3)
  {
    [[f.cos(ang), 0.0, -f.sin(ang)], [0.0, 1.0, 0.0], [f.sin(ang), 0.0, f.cos(ang)]]
  }

  function RotationZ(f: Float, ang: real): (m: Mat3)
  {
    [[f.cos(ang), f.sin(ang), 0.0], [-f.sin(ang), f.cos(ang), 0.0], [0.0, 0.0, 1.0]]
  }

  /**
   * Each axis rotation has the unit axis as its row and column, so it fixes its axis and
   * keeps that coordinate of every vector, whatever the angle.
   */
  lemma RotationsKeepAxis(f: Float, ang: real, v: Vec3)
    ensures RotationX(f, ang)[0] == [1.0, 0.0, 0.0]
    ensures forall i :: 0 <= i < 3 ==> RotationX(f, ang)[i][0] == if i == 0 then 1.0 else 0.0
    ensures MulVec(RotationX(f, ang), v)[0] == v[0]
    ensures RotationY(f, ang)[1] == [0.0, 1.0, 0.0]
    ensures forall i :: 0 <= i < 3 ==> RotationY(f, ang)[i][1] == if i == 1 then 1.0 else 0.0
    ensures MulVec(RotationY(f, ang), v)[1] == v[1]
    ensures RotationZ(f, ang)[2] == [0.0, 0.0, 1.0]
    ensures forall i :: 0 <= i < 3 ==> RotationZ(f, ang)[i][2] == if i == 2 then 1.0 else 0.0
    ensures MulVec(RotationZ(f, ang), v)[2] == v[2]
  {
    MulVec3(RotationX(f, ang), v);
    MulVec3(RotationY(f, ang), v);
    MulVec3(RotationZ(f, ang), v);
  }

  /**
   * The three axis rotations turn the same way: x rotates toward y about z, y toward z
   * about x, and z toward x about y, each by `(cos a, sin a)`.
   */
  lemma RotationsCyclic(f: Float, ang: real)
    ensures MulVec(RotationZ(f, ang), [1.0, 0.0, 0.0]) == [f.cos(ang), f.sin(ang), 0.0]
    ensures MulVec(RotationX(f, ang), [0.0, 1.0, 0.0]) == [0.0, f.cos(ang), f.sin(ang)]
    ensures MulVec(RotationY(f, ang), [0.0, 0.0, 1.0]) == [f.sin(ang), 0.0, f.cos(ang)]
  {
    MulVec3(RotationZ(f, ang), [1.0, 0.0, 0.0]);
    MulVec3(RotationX(f, ang), [0.0, 1.0, 0.0]);
    MulVec3(RotationY(f, ang), [0.0, 0.0, 1.0]);
    Ext3(MulVec(RotationZ(f, ang), [1.0, 0.0, 0.0]), [f.cos(ang), f.sin(ang), 0.0]);
    Ext3(MulVec(RotationX(f, ang), [0.0, 1.0, 0.0]), [0.0, f.cos(ang), f.sin(ang)]);
    Ext3(MulVec(RotationY(f, ang), [0.0, 0.0, 1.0]), [f.sin(ang), 0.0, f.cos(ang)]);
  }

  // ----------------------------------------------------------------- axis projections

  function ProjectionXY(): (m: Mat3)
  {
    [[1.0, 0.0, 0.0], [0.0, 1.0, 0.0], [0.0, 0.0, 0.0]]
  }

  function ProjectionXZ(): (m: Mat3)
  {
    [[1.0, 0.0, 0.0], [0.0, 0.0, 0.0], [0.0, 0.0, 1.0]]
  }

  function ProjectionYZ(): (m: Mat3)
  {
    [[0.0, 0.0, 0.0], [0.0, 1.0, 0.0], [0.0, 0.0, 1.0]]
  }

  /** The axis projections are 0/1 diagonal matrices, hence idempotent. */
  lemma AxisProjectionsIdempotent()
    ensures Diagonal(ProjectionXY()) && Product(ProjectionXY(), ProjectionXY()) == ProjectionXY()
    ensures Diagonal(ProjectionXZ()) && Product(ProjectionXZ(), ProjectionXZ()) == ProjectionXZ()
    ensures Diagonal(ProjectionYZ()) && Product(ProjectionYZ(), ProjectionYZ()) == ProjectionYZ()
  {
    DiagonalProjectionIdempotent(ProjectionXY());
    DiagonalProjectionIdempotent(ProjectionXZ());
    DiagonalProjectionIdempotent(ProjectionYZ());
  }

  /** Each axis projection zeroes the one coordinate its name leaves out and keeps the other two. */
  lemma AxisProjectionsDropOneCoordinate(v: Vec3)
    ensures MulVec(ProjectionXY(), v) == [v[0], v[1], 0.0]
    ensures MulVec(ProjectionXZ(), v) == [v[0], 0.0, v[2]]
    ensures MulVec(ProjectionYZ(), v) == [0.0, v[1], v[2]]
  {
    MulVec3(ProjectionXY(), v);
    MulVec3(ProjectionXZ(), v);
    MulVec3(ProjectionYZ(), v);
    Ext3(MulVec(ProjectionXY(), v), [v[0], v[1], 0.0]);
    Ext3(MulVec(ProjectionXZ(), v), [v[0], 0.0, v[2]]);
    Ext3(MulVec(ProjectionYZ(), v), [0.0, v[1], v[2]]);
  }

  // ----------------------------------------------------------------- scale

  function Scale(k: real): (m: Mat3)
  {
    [[k, 0.0, 0.0], [0.0, k, 0.0], [0.0, 0.0, k]]
  }

  /** `scale(k)` is `Default * k`, multiplies every vector by `k`, and `scale(1)` is the identity. */
  lemma ScaleIsDefaultTimesK(k: real, v: Vec3)
    ensures Scale(k) == Matrix.Scale(Default(), k)
    ensures MulVec(Scale(k), v) == Vectors.Scale(v, k)
    ensures Scale(1.0) == Default()
  {
    assert forall x | 0 <= x < 3 :: Scale(k)[x] == Matrix.Scale(Default(), k)[x];
    MulVec3(Scale(k), v);
    Ext3(MulVec(Scale(k), v), Vectors.Scale(v, k));
  }

  // ----------------------------------------------------------------- builders along a direction

  /** `v + a (v·u) u`: `v` moved along `u` in proportion to its component along `u`. */
  function AddAlong(v: Vec3, u: Vec3, a: real): Vec3
  {
    Vectors.Add(v, Vectors.Scale(u, a * Vector3.Dot(v, u)))
  }

  /** `I + a u uᵀ`: entry [i][j] is `δij + a u_i u_j`. */
  function RankOne(a: real, u: Vec3): (m: Mat3)
  {
    [[1.0 + a * (u[0] * u[0]), a * (u[0] * u[1]), a * (u[0] * u[2])],
     [a * (u[1] * u[0]), 1.0 + a * (u[1] * u[1]), a * (u[1] * u[2])],
     [a * (u[2] * u[0]), a * (u[2] * u[1]), 1.0 + a * (u[2] * u[2])]]
  }

  /**
   * One component of `v·(E + a u uᵀ)`: a column `x` whose entries are `e_j + a u_j u_k`
   * contributes `v·e + u_k a (v·u)`.
   */
  lemma RankOneColumn(a: real, v0: real, v1: real, v2: real, u0: real, u1: real, u2: real, d: real,
                      e0: real, e1: real, e2: real, uk: real, vk: real, x0: real, x1: real, x2: real)
    requires d == v0 * u0 + v1 * u1 + v2 * u2
    requires x0 == e0 + a * (u0 * uk) && x1 == e1 + a * (u1 * uk) && x2 == e2 + a * (u2 * uk)
    requires v0 * e0 + v1 * e1 + v2 * e2 == vk
    ensures v0 * x0 + v1 * x1 + v2 * x2 == vk + uk * (a * d)
  {
    assert v0 * x0 + v1 * x1 + v2 * x2 == (v0 * e0 + v1 * e1 + v2 * e2) + a * uk * (v0 * u0 + v1 * u1 + v2 * u2);
  }

  /** `I + a u uᵀ` is symmetric. */
  lemma RankOneSymmetric(a: real, u: Vec3)
    ensures Matrix.Transpose(RankOne(a, u)) == RankOne(a, u)
  {
    Ext33(Matrix.Transpose(RankOne(a, u)), RankOne(a, u));
  }

  /** Components 0, 1 and 2 of `v·(I + a u uᵀ)`, one lemma each to keep the arithmetic small. */
  lemma RankOneAction0(a: real, u: Vec3, v: Vec3)
    ensures MulVec(RankOne(a, u), v)[0] == v[0] + u[0] * (a * Vector3.Dot(v, u))
  {
    var m := RankOne(a, u);
    RankOneColumn(a, v[0], v[1], v[2], u[0], u[1], u[2], Vector3.Dot(v, u), 1.0, 0.0, 0.0, u[0], v[0], m[0][0], m[1][0], m[2][0]);
    MulVec3(m, v);
  }

  lemma RankOneAction1(a: real, u: Vec3, v: Vec3)
    ensures MulVec(RankOne(a, u), v)[1] == v[1] + u[1] * (a * Vector3.Dot(v, u))
  {
    var m := RankOne(a, u);
    RankOneColumn(a, v[0], v[1], v[2], u[0], u[1], u[2], Vector3.Dot(v, u), 0.0, 1.0, 0.0, u[1], v[1], m[0][1], m[1][1], m[2][1]);
    MulVec3(m, v);
  }

  lemma RankOneAction2(a: real, u: Vec3, v: Vec3)
    ensures MulVec(RankOne(a, u), v)[2] == v[2] + u[2] * (a * Vector3.Dot(v, u))
  {
    var m := RankOne(a, u);
    RankOneColumn(a, v[0], v[1], v[2], u[0], u[1], u[2], Vector3.Dot(v, u), 0.0, 0.0, 1.0, u[2], v[2], m[0][2], m[1][2], m[2][2]);
    MulVec3(m, v);
  }

  /** `I + a u uᵀ` sends `v` to `v + a (v·u) u`. */
  lemma RankOneAction(a: real, u: Vec3, v: Vec3)
    ensures MulVec(RankOne(a, u), v) == AddAlong(v, u, a)
  {
    RankOneAction0(a, u, v);
    RankOneAction1(a, u, v);
    RankOneAction2(a, u, v);
    MulVec3(RankOne(a, u), v);
    Ext3(MulVec(RankOne(a, u), v), AddAlong(v, u, a));
  }

  lemma UnitScalar(x: real, a: real, d: real)
    requires d == 1.0
    ensures x + x * (a * d) == x * (1.0 + a)
  {
  }

  /** For a unit `u`, `I + a u uᵀ` multiplies `u` by `1 + a` and keeps every vector perpendicular to `u`. */
  lemma RankOneOnUnit(a: real, u: Vec3, v: Vec3)
    requires Vector3.SquaredLen(u) == 1.0
    ensures MulVec(RankOne(a, u), u) == Vectors.Scale(u, 1.0 + a)
    ensures Vector3.Dot(v, u) == 0.0 ==> MulVec(RankOne(a, u), v) == v
  {
    RankOneAction(a, u, u);
    RankOneAction(a, u, v);
    var d := Vector3.Dot(u, u);
    UnitScalar(u[0], a, d);
    UnitScalar(u[1], a, d);
    UnitScalar(u[2], a, d);
    Ext3(MulVec(RankOne(a, u), u), Vectors.Scale(u, 1.0 + a));
    if Vector3.Dot(v, u) == 0.0 {
      Ext3(MulVec(RankOne(a, u), v), v);
    }
  }

  /** `projection(n)`: projection onto the plane perpendicular to `n`, built from `n.normalized()`. */
  function Projection(f: Float, n: Vec3): (m: Mat3)
    requires Vector3.Magnitude(f, n) != 0.0
  {
    PlaneProjection(Vector3.Normalized(f, n))
  }

  /** The matrix `projection` fills in from the normalized direction `u`. */
  function PlaneProjection(u: Vec3): (m: Mat3)
  {
    [[1.0 - u[0] * u[0], -u[0] * u[1], -u[0] * u[2]],
     [-u[0] * u[1], 1.0 - u[1] * u[1], -u[1] * u[2]],
     [-u[0] * u[2], -u[1] * u[2], 1.0 - u[2] * u[2]]]
  }

  /** The plane projection is `I - u uᵀ`: it subtracts from `v` its component along `u`. */
  lemma PlaneProjectionAction(u: Vec3, v: Vec3)
    ensures PlaneProjection(u) == RankOne(-1.0, u)
    ensures MulVec(PlaneProjection(u), v) == AddAlong(v, u, -1.0)
  {
    Ext33(PlaneProjection(u), RankOne(-1.0, u));
    RankOneAction(-1.0, u, v);
  }

  /**
   * With a lawful square root and a non-zero `n`, `projection(n)` sends `n`'s direction to
   * zero and keeps every vector perpendicular to it.
   */
  lemma ProjectionFixesPlane(f: Float, n: Vec3, v: Vec3)
    requires Lawful(f) && Vector3.SquaredLen(n) != 0.0
    ensures Vector3.Magnitude(f, n) != 0.0
    ensures MulVec(Projection(f, n), Vector3.Normalized(f, n)) == [0.0, 0.0, 0.0]
    ensures Vector3.Dot(v, Vector3.Normalized(f, n)) == 0.0 ==> MulVec(Projection(f, n), v) == v
  {
    Vector3.NormalizedIsUnit(f, n);
    PlaneProjectionOnUnit(Vector3.Normalized(f, n), v);
  }

  /** For a unit `u`, `I - u uᵀ` sends `u` to zero and keeps every vector perpendicular to `u`. */
  lemma PlaneProjectionOnUnit(u: Vec3, v: Vec3)
    requires Vector3.SquaredLen(u) == 1.0
    ensures MulVec(PlaneProjection(u), u) == [0.0, 0.0, 0.0]
    ensures Vector3.Dot(v, u) == 0.0 ==> MulVec(PlaneProjection(u), v) == v
  {
    Ext33(PlaneProjection(u), RankOne(-1.0, u));
    RankOneOnUnit(-1.0, u, v);
    Ext3(Vectors.Scale(u, 1.0 + -1.0), [0.0, 0.0, 0.0]);
  }

  /** With a lawful square root and a non-zero `n`, every image of `projection(n)` is perpendicular to `n`. */
  lemma ProjectionImagePerpendicular(f: Float, n: Vec3, v: Vec3)
    requires Lawful(f) && Vector3.SquaredLen(n) != 0.0
    ensures Vector3.Magnitude(f, n) != 0.0
    ensures Vector3.Dot(MulVec(Projection(f, n), v), Vector3.Normalized(f, n)) == 0.0
  {
    Vector3.NormalizedIsUnit(f, n);
    PlaneProjectionPerpendicular(Vector3.Normalized(f, n), v);
  }

  /** For a unit `u`, the image of every `v` under `I - u uᵀ` is perpendicular to `u`. */
  lemma PlaneProjectionPerpendicular(u: Vec3, v: Vec3)
    requires Vector3.SquaredLen(u) == 1.0
    ensures Vector3.Dot(MulVec(PlaneProjection(u), v), u) == 0.0
  {
    PlaneProjectionAction(u, v);
    var p := AddAlong(v, u, -1.0);
    PerpendicularScalar(v[0], v[1], v[2], u[0], u[1], u[2], Vector3.Dot(v, u), p[0], p[1], p[2]);
  }

  /** `v - (v·u) u` is perpendicular to a unit `u`. */
  lemma PerpendicularScalar(v0: real, v1: real, v2: real, u0: real, u1: real, u2: real, d: real,
                            p0: real, p1: real, p2: real)
    requires u0 * u0 + u1 * u1 + u2 * u2 == 1.0 && d == v0 * u0 + v1 * u1 + v2 * u2
    requires p0 == v0 + u0 * (-1.0 * d) && p1 == v1 + u1 * (-1.0 * d) && p2 == v2 + u2 * (-1.0 * d)
    ensures p0 * u0 + p1 * u1 + p2 * u2 == 0.0
  {
    assert p0 * u0 + p1 * u1 + p2 * u2 == d - d * (u0 * u0 + u1 * u1 + u2 * u2);
  }

  /** `rotation(ang, n)` AS WRITTEN, built from `n.normalized()`. */
  function Rotation(f: Float, ang: real, n: Vec3): (m: Mat3)
    requires Vector3.Magnitude(f, n) != 0.0
  {
    AxisRotation(f.cos(ang), f.sin(ang), Vector3.Normalized(f, n))
  }

  /** The matrix `rotation` fills in from cosine `c`, sine `s` and unit axis `u`; entry [0][2] uses `u.z`. */
  function AxisRotation(c: real, s: real, u: Vec3): (m: Mat3)
  {
    [[u[0] * u[0] * (1.0 - c) + c, u[0] * u[1] * (1.0 - c) + u[2] * s, u[0] * u[2] * (1.0 - c) - u[2] * s],
     [u[0] * u[1] * (1.0 - c) - u[2] * s, u[1] * u[1] * (1.0 - c) + c, u[1] * u[2] * (1.0 - c) + u[0] * s],
     [u[0] * u[2] * (1.0 - c) + u[1] * s, u[1] * u[2] * (1.0 - c) - u[0] * s, u[2] * u[2] * (1.0 - c) + c]]
  }

  /** `rotation(ang, n)` with entry [0][2] using `n.y`, as the other eight entries require. */
  function RotationIntended(f: Float, ang: real, n: Vec3): (m: Mat3)
    requires Vector3.Magnitude(f, n) != 0.0
  {
    AxisRotationIntended(f.cos(ang), f.sin(ang), Vector3.Normalized(f, n))
  }

  function AxisRotationIntended(c: real, s: real, u: Vec3): (m: Mat3)
  {
    [[u[0] * u[0] * (1.0 - c) + c, u[0] * u[1] * (1.0 - c) + u[2] * s, u[0] * u[2] * (1.0 - c) - u[1] * s],
     [u[0] * u[1] * (1.0 - c) - u[2] * s, u[1] * u[1] * (1.0 - c) + c, u[1] * u[2] * (1.0 - c) + u[0] * s],
     [u[0] * u[2] * (1.0 - c) + u[1] * s, u[1] * u[2] * (1.0 - c) - u[0] * s, u[2] * u[2] * (1.0 - c) + c]]
  }

  /**
   * Columns 0, 1 and 2 of the rotation about the unit axis `(u0, u1, u2)`, dotted with the
   * axis: the `(1 - c)` parts sum to `u_k (1 - c)`, the `c` part gives `c u_k`, and the sine
   * parts cancel.
   */
  lemma AxisRotationColumn0(c: real, s: real, u0: real, u1: real, u2: real, x0: real, x1: real, x2: real)
    requires u0 * u0 + u1 * u1 + u2 * u2 == 1.0
    requires x0 == u0 * u0 * (1.0 - c) + c && x1 == u0 * u1 * (1.0 - c) - u2 * s
    requires x2 == u0 * u2 * (1.0 - c) + u1 * s
    ensures u0 * x0 + u1 * x1 + u2 * x2 == u0
  {
    assert u0 * x0 + u1 * x1 + u2 * x2 == u0 * (1.0 - c) * (u0 * u0 + u1 * u1 + u2 * u2) + c * u0;
  }

  lemma AxisRotationColumn1(c: real, s: real, u0: real, u1: real, u2: real, x0: real, x1: real, x2: real)
    requires u0 * u0 + u1 * u1 + u2 * u2 == 1.0
    requires x0 == u0 * u1 * (1.0 - c) + u2 * s && x1 == u1 * u1 * (1.0 - c) + c
    requires x2 == u1 * u2 * (1.0 - c) - u0 * s
    ensures u0 * x0 + u1 * x1 + u2 * x2 == u1
  {
    assert u0 * x0 + u1 * x1 + u2 * x2 == u1 * (1.0 - c) * (u0 * u0 + u1 * u1 + u2 * u2) + c * u1;
  }

  lemma AxisRotationColumn2(c: real, s: real, u0: real, u1: real, u2: real, x0: real, x1: real, x2: real)
    requires u0 * u0 + u1 * u1 + u2 * u2 == 1.0
    requires x0 == u0 * u2 * (1.0 - c) - u1 * s && x1 == u1 * u2 * (1.0 - c) + u0 * s
    requires x2 == u2 * u2 * (1.0 - c) + c
    ensures u0 * x0 + u1 * x1 + u2 * x2 == u2
  {
    assert u0 * x0 + u1 * x1 + u2 * x2 == u2 * (1.0 - c) * (u0 * u0 + u1 * u1 + u2 * u2) + c * u2;
  }

  /** Components 0, 1 and 2 of `u·R` for the intended rotation about the unit axis `u`. */
  lemma AxisRotationFixes0(c: real, s: real, u: Vec3)
    requires Vector3.SquaredLen(u) == 1.0
    ensures MulVec(AxisRotationIntended(c, s, u), u)[0] == u[0]
  {
    var m := AxisRotationIntended(c, s, u);
    AxisRotationColumn0(c, s, u[0], u[1], u[2], m[0][0], m[1][0], m[2][0]);
    MulVec3(m, u);
  }

  lemma AxisRotationFixes1(c: real, s: real, u: Vec3)
    requires Vector3.SquaredLen(u) == 1.0
    ensures MulVec(AxisRotationIntended(c, s, u), u)[1] == u[1]
  {
    var m := AxisRotationIntended(c, s, u);
    AxisRotationColumn1(c, s, u[0], u[1], u[2], m[0][1], m[1][1], m[2][1]);
    MulVec3(m, u);
  }

  lemma AxisRotationFixes2(c: real, s: real, u: Vec3)
    requires Vector3.SquaredLen(u) == 1.0
    ensures MulVec(AxisRotationIntended(c, s, u), u)[2] == u[2]
  {
    var m := AxisRotationIntended(c, s, u);
    AxisRotationColumn2(c, s, u[0], u[1], u[2], m[0][2], m[1][2], m[2][2]);
    MulVec3(m, u);
  }

  /** A rotation about a unit axis fixes the axis, whatever the cosine and sine. */
  lemma AxisRotationIntendedFixesAxis(c: real, s: real, u: Vec3)
    requires Vector3.SquaredLen(u) == 1.0
    ensures MulVec(AxisRotationIntended(c, s, u), u) == u
  {
    AxisRotationFixes0(c, s, u);
    AxisRotationFixes1(c, s, u);
    AxisRotationFixes2(c, s, u);
    MulVec3(AxisRotationIntended(c, s, u), u);
    Ext3(MulVec(AxisRotationIntended(c, s, u), u), u);
  }

  /** With a lawful square root, the intended `rotation(ang, n)` fixes the direction of `n`. */
  lemma RotationIntendedFixesAxis(f: Float, ang: real, n: Vec3)
    requires Lawful(f) && Vector3.SquaredLen(n) != 0.0
    ensures Vector3.Magnitude(f, n) != 0.0
    ensures MulVec(RotationIntended(f, ang, n), Vector3.Normalized(f, n)) == Vector3.Normalized(f, n)
  {
    Vector3.NormalizedIsUnit(f, n);
    AxisRotationIntendedFixesAxis(f.cos(ang), f.sin(ang), Vector3.Normalized(f, n));
  }

  /**
   * The written `rotation` moves its own axis: about `(0.6, 0, 0.8)` the axis's z component
   * becomes `0.8 - 0.48 sin(ang)`, so any angle with a non-zero sine shows it.
   */
  lemma RotationMovesAxis(f: Float, ang: real)
    requires Lawful(f) && f.sin(ang) != 0.0
    ensures Vector3.Magnitude(f, [0.6, 0.0, 0.8]) == 1.0
    ensures MulVec(Rotation(f, ang, [0.6, 0.0, 0.8]), [0.6, 0.0, 0.8])[2] == 0.8 - 0.48 * f.sin(ang)
    ensures MulVec(Rotation(f, ang, [0.6, 0.0, 0.8]), [0.6, 0.0, 0.8]) != [0.6, 0.0, 0.8]
  {
    var u: Vec3 := [0.6, 0.0, 0.8];
    Vector3.NormalizedUnit(f, u);
    var c, s := f.cos(ang), f.sin(ang);
    MulVec3(AxisRotation(c, s, u), u);
    assert 0.6 * (0.48 * (1.0 - c) - 0.8 * s) + 0.0 * (0.0 * (1.0 - c) + 0.6 * s)
         + 0.8 * (0.64 * (1.0 - c) + c) == 0.8 - 0.48 * s;
  }

  /** `scale_arb(k, n)` AS WRITTEN, built from `n.normalized()`. */
  function ScaleArb(f: Float, k: real, n: Vec3): (m: Mat3)
    requires Vector3.Magnitude(f, n) != 0.0
  {
    ScaleAlong(k, Vector3.Normalized(f, n))
  }

  /** The matrix `scale_arb` fills in: its diagonal factor `1 + (k - 1)` is just `k`. */
  function ScaleAlong(k: real, u: Vec3): (m: Mat3)
  {
    var scale := 1.0 + (k - 1.0);
    var xy := (k - 1.0) * u[0] * u[1];
    var xz := (k - 1.0) * u[0] * u[2];
    var yz := (k - 1.0) * u[1] * u[2];
    [[scale * (u[0] * u[0]), xy, xz], [xy, scale * (u[1] * u[1]), yz], [xz, yz, scale * (u[2] * u[2])]]
  }

  /** `scale_arb(k, n)` with diagonal `1 + (k - 1) n_i²`. */
  function ScaleArbIntended(f: Float, k: real, n: Vec3): (m: Mat3)
    requires Vector3.Magnitude(f, n) != 0.0
  {
    ScaleAlongIntended(k, Vector3.Normalized(f, n))
  }

  function ScaleAlongIntended(k: real, u: Vec3): (m: Mat3)
  {
    var xy := (k - 1.0) * u[0] * u[1];
    var xz := (k - 1.0) * u[0] * u[2];
    var yz := (k - 1.0) * u[1] * u[2];
    [[1.0 + (k - 1.0) * (u[0] * u[0]), xy, xz],
     [xy, 1.0 + (k - 1.0) * (u[1] * u[1]), yz],
     [xz, yz, 1.0 + (k - 1.0) * (u[2] * u[2])]]
  }

  /** The intended scale is `I + (k - 1) u uᵀ`: it adds `(k - 1)(v·u) u` to `v`. */
  lemma ScaleAlongIntendedAction(k: real, u: Vec3, v: Vec3)
    ensures ScaleAlongIntended(k, u) == RankOne(k - 1.0, u)
    ensures MulVec(ScaleAlongIntended(k, u), v) == AddAlong(v, u, k - 1.0)
  {
    assert (k - 1.0) * u[0] * u[1] == (k - 1.0) * (u[0] * u[1]);
    assert (k - 1.0) * u[0] * u[2] == (k - 1.0) * (u[0] * u[2]);
    assert (k - 1.0) * u[1] * u[2] == (k - 1.0) * (u[1] * u[2]);
    Ext33(ScaleAlongIntended(k, u), RankOne(k - 1.0, u));
    RankOneAction(k - 1.0, u, v);
  }

  /**
   * With a lawful square root, the intended `scale_arb(k, n)` stretches `n`'s direction by
   * `k` and keeps every vector perpendicular to `n`.
   */
  lemma ScaleArbIntendedStretches(f: Float, k: real, n: Vec3, v: Vec3)
    requires Lawful(f) && Vector3.SquaredLen(n) != 0.0
    ensures Vector3.Magnitude(f, n) != 0.0
    ensures MulVec(ScaleArbIntended(f, k, n), Vector3.Normalized(f, n)) == Vectors.Scale(Vector3.Normalized(f, n), k)
    ensures Vector3.Dot(v, Vector3.Normalized(f, n)) == 0.0 ==> MulVec(ScaleArbIntended(f, k, n), v) == v
  {
    Vector3.NormalizedIsUnit(f, n);
    var u := Vector3.Normalized(f, n);
    ScaleAlongIntendedAction(k, u, v);
    RankOneOnUnit(k - 1.0, u, v);
  }

  /** The written `scale_arb` along x sends the perpendicular `(0, 1, 0)` to zero instead of keeping it. */
  lemma ScaleArbCollapses(f: Float, k: real)
    requires Lawful(f)
    ensures Vector3.Magnitude(f, [1.0, 0.0, 0.0]) == 1.0
    ensures MulVec(ScaleArb(f, k, [1.0, 0.0, 0.0]), [0.0, 1.0, 0.0]) == [0.0, 0.0, 0.0]
    ensures MulVec(ScaleArbIntended(f, k, [1.0, 0.0, 0.0]), [0.0, 1.0, 0.0]) == [0.0, 1.0, 0.0]
  {
    Vector3.NormalizedUnit(f, [1.0, 0.0, 0.0]);
    ScaleAlongXOnY(k);
  }

  /** Along the x axis, the written matrix sends `(0, 1, 0)` to zero and the intended one keeps it. */
  lemma ScaleAlongXOnY(k: real)
    ensures MulVec(ScaleAlong(k, [1.0, 0.0, 0.0]), [0.0, 1.0, 0.0]) == [0.0, 0.0, 0.0]
    ensures MulVec(ScaleAlongIntended(k, [1.0, 0.0, 0.0]), [0.0, 1.0, 0.0]) == [0.0, 1.0, 0.0]
  {
    MulVec3(ScaleAlong(k, [1.0, 0.0, 0.0]), [0.0, 1.0, 0.0]);
    MulVec3(ScaleAlongIntended(k, [1.0, 0.0, 0.0]), [0.0, 1.0, 0.0]);
  }

  /** `reflection(n)` AS WRITTEN, built from `n.normalized()`. */
  function Reflection(f: Float, n: Vec3): (m: Mat3)
    requires Vector3.Magnitude(f, n) != 0.0
  {
    Reflect(Vector3.Normalized(f, n))
  }

  /** The matrix `reflection` fills in: entry [1][2] uses `u.x·u.z`. */
  function Reflect(u: Vec3): (m: Mat3)
  {
    [[1.0 - 2.0 * (u[0] * u[0]), -2.0 * u[0] * u[1], -2.0 * u[0] * u[2]],
     [-2.0 * u[0] * u[1], 1.0 - 2.0 * (u[1] * u[1]), -2.0 * u[0] * u[2]],
     [-2.0 * u[0] * u[2], -2.0 * u[1] * u[2], 1.0 - 2.0 * (u[2] * u[2])]]
  }

  /** `reflection(n)` with entry [1][2] using `n.y·n.z`. */
  function ReflectionIntended(f: Float, n: Vec3): (m: Mat3)
    requires Vector3.Magnitude(f, n) != 0.0
  {
    ReflectIntended(Vector3.Normalized(f, n))
  }

  function ReflectIntended(u: Vec3): (m: Mat3)
  {
    [[1.0 - 2.0 * (u[0] * u[0]), -2.0 * u[0] * u[1], -2.0 * u[0] * u[2]],
     [-2.0 * u[0] * u[1], 1.0 - 2.0 * (u[1] * u[1]), -2.0 * u[1] * u[2]],
     [-2.0 * u[0] * u[2], -2.0 * u[1] * u[2], 1.0 - 2.0 * (u[2] * u[2])]]
  }

  /** The intended reflection is the symmetric `I - 2 u uᵀ`: it sends `v` to `v - 2(v·u) u`. */
  lemma ReflectIntendedAction(u: Vec3, v: Vec3)
    ensures ReflectIntended(u) == RankOne(-2.0, u)
    ensures Matrix.Transpose(ReflectIntended(u)) == ReflectIntended(u)
    ensures MulVec(ReflectIntended(u), v) == AddAlong(v, u, -2.0)
  {
    Ext33(ReflectIntended(u), RankOne(-2.0, u));
    RankOneSymmetric(-2.0, u);
    RankOneAction(-2.0, u, v);
  }

  /**
   * With a lawful square root, the intended `reflection(n)` negates `n`'s direction and keeps
   * every vector in the mirror plane.
   */
  lemma ReflectionIntendedMirrors(f: Float, n: Vec3, v: Vec3)
    requires Lawful(f) && Vector3.SquaredLen(n) != 0.0
    ensures Vector3.Magnitude(f, n) != 0.0
    ensures MulVec(ReflectionIntended(f, n), Vector3.Normalized(f, n)) == Neg(Vector3.Normalized(f, n))
    ensures Vector3.Dot(v, Vector3.Normalized(f, n)) == 0.0 ==> MulVec(ReflectionIntended(f, n), v) == v
  {
    Vector3.NormalizedIsUnit(f, n);
    var u := Vector3.Normalized(f, n);
    ReflectIntendedAction(u, v);
    RankOneOnUnit(-2.0, u, v);
    Ext3(Vectors.Scale(u, 1.0 + -2.0), Neg(u));
  }

  /**
   * The written `reflection` across the plane with normal `(0, 0.6, 0.8)` is not symmetric,
   * and it leaves the z component of `(0, 1, 0)` at 0 where the reflection gives -0.96.
   */
  lemma ReflectionAsymmetric(f: Float)
    requires Lawful(f)
    ensures Vector3.Magnitude(f, [0.0, 0.6, 0.8]) == 1.0
    ensures Reflection(f, [0.0, 0.6, 0.8])[1][2] == 0.0
    ensures Reflection(f, [0.0, 0.6, 0.8])[2][1] == -0.96
    ensures MulVec(Reflection(f, [0.0, 0.6, 0.8]), [0.0, 1.0, 0.0])[2] == 0.0
    ensures MulVec(ReflectionIntended(f, [0.0, 0.6, 0.8]), [0.0, 1.0, 0.0])[2] == -0.96
  {
    Vector3.NormalizedUnit(f, [0.0, 0.6, 0.8]);
    MulVec3(Reflect([0.0, 0.6, 0.8]), [0.0, 1.0, 0.0]);
    MulVec3(ReflectIntended([0.0, 0.6, 0.8]), [0.0, 1.0, 0.0]);
  }

  // ----------------------------------------------------------------- transposes

  /** In-place `transpose` AS WRITTEN: row 1 starts with `[1][0]`, not `[0][1]`. */
  function Transpose(self: Mat3): (m: Mat3)
  {
    [[self[0][0], self[1][0], self[2][0]],
     [self[1][0], self[1][1], self[2][1]],
     [self[0][2], self[1][2], self[2][2]]]
  }

  /** By-value `transpost` AS WRITTEN, the same literal as `transpose`. */
  function Transpost(self: Mat3): (m: Mat3)
  {
    [[self[0][0], self[1][0], self[2][0]],
     [self[1][0], self[1][1], self[2][1]],
     [self[0][2], self[1][2], self[2][2]]]
  }

  /**
   * The two written transposes agree, and they leave a matrix unchanged exactly when it is
   * symmetric (so the identity is fixed).
   */
  lemma TranspostFixesSymmetric(m: Mat3)
    ensures Transpose(m) == Transpost(m)
    ensures Transpost(m) == m <==> Matrix.Transpose(m) == m
    ensures Transpost(Default()) == Default()
  {
    Entries(m);
    Entries(Matrix.Transpose(m));
    assert Transpost(Default()) == Default();
  }

  /**
   * The written `transpost` is not the transpose: on the matrix whose only non-zero entry is
   * [0][1] it returns the zero matrix, so it is not an involution either.
   */
  lemma TranspostIsNotTranspose()
    ensures Transpost(New(0.0, 1.0, 0.0, 0.0, 0.0, 0.0, 0.0, 0.0, 0.0)) == Zero()
    ensures Matrix.Transpose(New(0.0, 1.0, 0.0, 0.0, 0.0, 0.0, 0.0, 0.0, 0.0))[1][0] == 1.0
    ensures Transpost(Transpost(New(0.0, 1.0, 0.0, 0.0, 0.0, 0.0, 0.0, 0.0, 0.0)))
         != New(0.0, 1.0, 0.0, 0.0, 0.0, 0.0, 0.0, 0.0, 0.0)
  {
    assert Transpost(Zero())[0][1] == 0.0;
  }

  /** `transpost` with row 1 built from column 1, as rows 0 and 2 already are. */
  function TranspostIntended(self: Mat3): (m: Mat3)
  {
    [[self[0][0], self[1][0], self[2][0]],
     [self[0][1], self[1][1], self[2][1]],
     [self[0][2], self[1][2], self[2][2]]]
  }

  /** The intended `transpost` is the transpose and therefore an involution. */
  lemma TranspostIntendedIsTranspose(m: Mat3)
    ensures TranspostIntended(m) == Matrix.Transpose(m)
    ensures TranspostIntended(TranspostIntended(m)) == m
  {
    assert forall x | 0 <= x < 3 :: TranspostIntended(m)[x] == Matrix.Transpose(m)[x];
    Entries(m);
  }

  // ----------------------------------------------------------------- determinant

  /**
   * `Mat3::determinant`, which src/matrix/mat3.rs does not define; assumed to be the cofactor
   * expansion along row 0.
   */
  function Determinant(m: Mat3): real
  {
    m[0][0] * (m[1][1] * m[2][2] - m[1][2] * m[2][1])
    - m[0][1] * (m[1][0] * m[2][2] - m[1][2] * m[2][0])
    + m[0][2] * (m[1][0] * m[2][1] - m[1][1] * m[2][0])
  }

  /** The six-term Leibniz formula, an independent definition of the 3×3 determinant. */
  function Leibniz(m: Mat3): real
  {
    m[0][0] * m[1][1] * m[2][2] + m[0][1] * m[1][2] * m[2][0] + m[0][2] * m[1][0] * m[2][1]
    - m[0][2] * m[1][1] * m[2][0] - m[0][1] * m[1][0] * m[2][2] - m[0][0] * m[1][2] * m[2][1]
  }

  /**
   * The row-0 expansion equals the Leibniz formula; the determinant is unchanged by the
   * transpose, is 1 on the identity and 0 on the zero matrix.
   */
  lemma DeterminantProperties(m: Mat3)
    ensures Determinant(m) == Leibniz(m)
    ensures Determinant(Matrix.Transpose(m)) == Determinant(m)
    ensures Determinant(Default()) == 1.0 && Determinant(Zero()) == 0.0
  {
    var t := Matrix.Transpose(m);
    assert Determinant(t) == Leibniz(t);
  }
}
