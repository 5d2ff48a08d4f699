/**
 * `Mat4` (src/matrix/mat4.rs): constructors, the transformation builders, the transposes, and
 * the minor / cofactor / determinant / inverse chain.
 *
 * As for every matrix type, a vector multiplies from the left (`M * v` sums `v[j] * M[j][i]`),
 * so row i of a builder is the image of the i-th axis, and a point `p` is `(p, 1)`.
 */
module Matrix4 {
  import opened Core
  import opened Float
  import opened Sums
  import opened Vectors
  import opened Matrix
  import Vector3
  import Matrix3

  function New(s0e0: real, s0e1: real, s0e2: real, s0e3: real,
               s1e0: real, s1e1: real, s1e2: real, s1e3: real,
               s2e0: real, s2e1: real, s2e2: real, s2e3: real,
               s3e0: real, s3e1: real, s3e2: real, s3e3: real): (m: Mat4)
  {
    [[s0e0, s0e1, s0e2, s0e3], [s1e0, s1e1, s1e2, s1e3], [s2e0, s2e1, s2e2, s2e3], [s3e0, s3e1, s3e2, s3e3]]
  }

  /** `new` stores its arguments row-major: entry [r][c] is argument `4r + c`. */
  lemma NewRowMajor(s: seq<real>)
    requires |s| == 16
    ensures forall r, c :: 0 <= r < 4 && 0 <= c < 4 ==>
      New(s[0], s[1], s[2], s[3], s[4], s[5], s[6], s[7],
          s[8], s[9], s[10], s[11], s[12], s[13], s[14], s[15])[r][c] == s[4 * r + c]
  {
  }

  function Zero(): (m: Mat4)
  {
    [[0.0, 0.0, 0.0, 0.0], [0.0, 0.0, 0.0, 0.0], [0.0, 0.0, 0.0, 0.0], [0.0, 0.0, 0.0, 0.0]]
  }

  /** `Default` is `new` with ones on the diagonal. */
  function Default(): (m: Mat4)
  {
    New(1.0, 0.0, 0.0, 0.0, 0.0, 1.0, 0.0, 0.0, 0.0, 0.0, 1.0, 0.0, 0.0, 0.0, 0.0, 1.0)
  }

  /** `zero` is the null matrix and `Default` the identity. */
  lemma ZeroAndDefault()
    ensures Zero() == Matrix.Zero(4)
    ensures Default() == Identity(4)
  {
    assert forall x | 0 <= x < 4 :: Zero()[x] == Matrix.Zero(4)[x];
    assert forall x | 0 <= x < 4 :: Default()[x] == Identity(4)[x];
  }

  function FromVec(f: Vec4, s: Vec4, t: Vec4, l: Vec4): (m: Mat4)
  {
    [[f[0], f[1], f[2], f[3]], [s[0], s[1], s[2], s[3]], [t[0], t[1], t[2], t[3]], [l[0], l[1], l[2], l[3]]]
  }

  /** The rows of `from_vec(f, s, t, l)` are `f`, `s`, `t` and `l`; row 4 does not exist. */
  lemma FromVecRows(f: Vec4, s: Vec4, t: Vec4, l: Vec4)
    ensures Index(FromVec(f, s, t, l), 0) == Value(f)
    ensures Index(FromVec(f, s, t, l), 1) == Value(s)
    ensures Index(FromVec(f, s, t, l), 2) == Value(t)
    ensures Index(FromVec(f, s, t, l), 3) == Value(l)
    ensures Index(FromVec(f, s, t, l), 4) == Panic
  {
    assert f == [f[0], f[1], f[2], f[3]] && s == [s[0], s[1], s[2], s[3]];
    assert t == [t[0], t[1], t[2], t[3]] && l == [l[0], l[1], l[2], l[3]];
  }

  /** The matrix–vector product of a 4×4 matrix, written out. */
  lemma MulVec4(m: Mat4, v: Vec4)
    ensures |MulVec(m, v)| == 4
    ensures MulVec(m, v)[0] == v[0] * m[0][0] + v[1] * m[1][0] + v[2] * m[2][0] + v[3] * m[3][0]
    ensures MulVec(m, v)[1] == v[0] * m[0][1] + v[1] * m[1][1] + v[2] * m[2][1] + v[3] * m[3][1]
    ensures MulVec(m, v)[2] == v[0] * m[0][2] + v[1] * m[1][2] + v[2] * m[2][2] + v[3] * m[3][2]
    ensures MulVec(m, v)[3] == v[0] * m[0][3] + v[1] * m[1][3] + v[2] * m[2][3] + v[3] * m[3][3]
  {
    Sum4(VecTerms(m, v, 0));
    Sum4(VecTerms(m, v, 1));
    Sum4(VecTerms(m, v, 2));
    Sum4(VecTerms(m, v, 3));
  }

  /** Four-component sequences with equal components are equal. */
  lemma Ext4(a: seq<real>, b: seq<real>)
    requires |a| == 4 && |b| == 4
    requires a[0] == b[0] && a[1] == b[1] && a[2] == b[2] && a[3] == b[3]
    ensures a == b
  {
    assert a == [a[0], a[1], a[2], a[3]];
  }

  /** A 3×3 matrix padded to 4×4, written out entry by entry. */
  lemma EmbedEntries(a: Mat3)
    ensures Embed(a, 4) == [[a[0][0], a[0][1], a[0][2], 0.0], [a[1][0], a[1][1], a[1][2], 0.0],
                            [a[2][0], a[2][1], a[2][2], 0.0], [0.0, 0.0, 0.0, 1.0]]
  {
    var e := Embed(a, 4);
    assert forall i, j | 0 <= i < 3 && 0 <= j < 3 :: e[i][j] == Block(e, 3)[i][j];
    Ext4(e[0], [a[0][0], a[0][1], a[0][2], 0.0]);
    Ext4(e[1], [a[1][0], a[1][1], a[1][2], 0.0]);
    Ext4(e[2], [a[2][0], a[2][1], a[2][2], 0.0]);
    Ext4(e[3], [0.0, 0.0, 0.0, 1.0]);
    assert e == [e[0], e[1], e[2], e[3]];
  }

  /**
   * A 3×3 matrix padded to 4×4 acts on `(p, w)` as the 3×3 acts on `p`, and keeps `w`: this is
   * how the 4×4 builders that copy or repeat a 3×3 one inherit its properties.
   */
  lemma EmbedAction(m: Mat3, p: Vec3, w: real)
    ensures MulVec(Embed(m, 4), Vector3.Extend(p, w)) == Vector3.Extend(MulVec(m, p), w)
  {
    var e := Embed(m, 4);
    var v := Vector3.Extend(p, w);
    EmbedEntries(m);
    MulVec4(e, v);
    Matrix3.MulVec3(m, p);
    assert MulVec(e, v)[0] == MulVec(m, p)[0];
    assert MulVec(e, v)[1] == MulVec(m, p)[1];
    assert MulVec(e, v)[2] == MulVec(m, p)[2];
    assert MulVec(e, v)[3] == w;
    Ext4(MulVec(e, v), Vector3.Extend(MulVec(m, p), w));
  }

  // ----------------------------------------------------------------- axis rotations

  function RotationX(f: Float, ang: real): (m: Mat4)
  {
    [[1.0, 0.0, 0.0, 0.0], [0.0, f.cos(ang), f.sin(ang), 0.0], [0.0, -f.sin(ang), f.cos(ang), 0.0], [0.0, 0.0, 0.0, 1.0]]
  }

  /** `rotation_y` AS WRITTEN: the sines have the opposite signs to `Mat3::rotation_y`. */
  function RotationY(f: Float, ang: real): (m: Mat4)
  {
    [[f.cos(ang), 0.0, f.sin(ang), 0.0], [0.0, 1.0, 0.0, 0.0], [-f.sin(ang), 0.0, f.cos(ang), 0.0], [0.0, 0.0, 0.0, 1.0]]
  }

  function RotationZ(f: Float, ang: real): (m: Mat4)
  {
    [[f.cos(ang), f.sin(ang), 0.0, 0.0], [-f.sin(ang), f.cos(ang), 0.0, 0.0], [0.0, 0.0, 1.0, 0.0], [0.0, 0.0, 0.0, 1.0]]
  }

  /** `rotation_y` with the signs of `Mat3::rotation_y`, so that it turns z toward x as x and z turn. */
  function RotationYIntended(f: Float, ang: real): (m: Mat4)
  {
    [[f.cos(ang), 0.0, -f.sin(ang), 0.0], [0.0, 1.0, 0.0, 0.0], [f.sin(ang), 0.0, f.cos(ang), 0.0], [0.0, 0.0, 0.0, 1.0]]
  }

  /**
   * `rotation_x` and `rotation_z` are the 3×3 rotations padded with `(0, 0, 0, 1)`; the
   * written `rotation_y` is the padded transpose of the 3×3 one (the opposite turn), and the
   * intended one is the padded 3×3 rotation itself.
   */
  lemma AxisRotationsEmbed(f: Float, ang: real)
    ensures RotationX(f, ang) == Embed(Matrix3.RotationX(f, ang), 4)
    ensures RotationZ(f, ang) == Embed(Matrix3.RotationZ(f, ang), 4)
    ensures RotationY(f, ang) == Embed(Matrix.Transpose(Matrix3.RotationY(f, ang)), 4)
    ensures RotationYIntended(f, ang) == Embed(Matrix3.RotationY(f, ang), 4)
  {
    assert forall x | 0 <= x < 4 :: RotationX(f, ang)[x] == Embed(Matrix3.RotationX(f, ang), 4)[x];
    assert forall x | 0 <= x < 4 :: RotationZ(f, ang)[x] == Embed(Matrix3.RotationZ(f, ang), 4)[x];
    assert forall x | 0 <= x < 4 :: RotationY(f, ang)[x] == Embed(Matrix.Transpose(Matrix3.RotationY(f, ang)), 4)[x];
    assert forall x | 0 <= x < 4 :: RotationYIntended(f, ang)[x] == Embed(Matrix3.RotationY(f, ang), 4)[x];
  }

  /**
   * Whenever `sin(ang) != 0`, the written `rotation_y` turns z toward `-x` while the intended
   * one (and `Mat3::rotation_y`) turns it toward `+x`.
   */
  lemma RotationYSignDiffers(f: Float, ang: real)
    requires f.sin(ang) != 0.0
    ensures MulVec(RotationY(f, ang), [0.0, 0.0, 1.0, 0.0]) == [-f.sin(ang), 0.0, f.cos(ang), 0.0]
    ensures MulVec(RotationYIntended(f, ang), [0.0, 0.0, 1.0, 0.0]) == [f.sin(ang), 0.0, f.cos(ang), 0.0]
    ensures RotationY(f, ang) != RotationYIntended(f, ang)
  {
    var e: Vec4 := [0.0, 0.0, 1.0, 0.0];
    MulVec4(RotationY(f, ang), e);
    MulVec4(RotationYIntended(f, ang), e);
    Ext4(MulVec(RotationY(f, ang), e), [-f.sin(ang), 0.0, f.cos(ang), 0.0]);
    Ext4(MulVec(RotationYIntended(f, ang), e), [f.sin(ang), 0.0, f.cos(ang), 0.0]);
    assert RotationY(f, ang)[0][2] != RotationYIntended(f, ang)[0][2];
  }

  /**
   * `rotation(ang, n)`: `Default` with rows 0..3 overwritten by the first three entries of the
   * rows of `Mat3::rotation(ang, n)`, which is the padded 3×3 rotation.
   */
  method Rotation(f: Float, ang: real, n: Vec3) returns (r: Mat4)
    requires Vector3.Magnitude(f, n) != 0.0
    ensures r == Embed(Matrix3.Rotation(f, ang, n), 4)
  {
    var mat3 := Matrix3.Rotation(f, ang, n);
    ghost var e := Embed(mat3, 4);
    assert forall x, y | 0 <= x < 3 && 0 <= y < 3 :: e[x][y] == Block(e, 3)[x][y];
    r := Default();
    for i := 0 to 3
      invariant Square(r, 4)
      invariant forall x :: 0 <= x < 4 ==> r[x] == if x < i then e[x] else Default()[x]
    {
      r := r[i := mat3[i][..3] + r[i][3..]];
      assert r[i] == e[i];
    }
    assert forall x | 0 <= x < 4 :: r[x] == e[x];
  }

  /** The 4×4 copy of the intended `Mat3::rotation(ang, n)`. */
  function RotationIntended(f: Float, ang: real, n: Vec3): (m: Mat4)
    requires Vector3.Magnitude(f, n) != 0.0
  {
    Embed(Matrix3.RotationIntended(f, ang, n), 4)
  }

  /** With a lawful square root, the intended 4×4 rotation fixes `(n̂, w)` for the direction `n̂` of `n`. */
  lemma RotationIntendedFixesAxis(f: Float, ang: real, n: Vec3, w: real)
    requires Lawful(f) && Vector3.SquaredLen(n) != 0.0
    ensures Vector3.Magnitude(f, n) != 0.0
    ensures MulVec(RotationIntended(f, ang, n), Vector3.Extend(Vector3.Normalized(f, n), w))
         == Vector3.Extend(Vector3.Normalized(f, n), w)
  {
    Matrix3.RotationIntendedFixesAxis(f, ang, n);
    EmbedAction(Matrix3.RotationIntended(f, ang, n), Vector3.Normalized(f, n), w);
  }

  // ----------------------------------------------------------------- affine builders

  function Translation(n: Vec3): (m: Mat4)
  {
    [[1.0, 0.0, 0.0, 0.0], [0.0, 1.0, 0.0, 0.0], [0.0, 0.0, 1.0, 0.0], [n[0], n[1], n[2], 1.0]]
  }

  /** `translation(n)` moves every point `(p, 1)` to `(p + n, 1)` and leaves every direction `(p, 0)` alone. */
  lemma TranslationMovesPoints(n: Vec3, p: Vec3)
    ensures MulVec(Translation(n), Vector3.Extend(p, 1.0)) == Vector3.Extend(Vectors.Add(p, n), 1.0)
    ensures MulVec(Translation(n), Vector3.Extend(p, 0.0)) == Vector3.Extend(p, 0.0)
  {
    MulVec4(Translation(n), Vector3.Extend(p, 1.0));
    MulVec4(Translation(n), Vector3.Extend(p, 0.0));
    Ext4(MulVec(Translation(n), Vector3.Extend(p, 1.0)), Vector3.Extend(Vectors.Add(p, n), 1.0));
    Ext4(MulVec(Translation(n), Vector3.Extend(p, 0.0)), Vector3.Extend(p, 0.0));
  }

  function Scale(k: real): (m: Mat4)
  {
    [[k, 0.0, 0.0, 0.0], [0.0, k, 0.0, 0.0], [0.0, 0.0, k, 0.0], [0.0, 0.0, 0.0, 1.0]]
  }

  /** `scale(k)` multiplies x, y and z by `k` and keeps w; it is the padded `Mat3::scale(k)`. */
  lemma ScaleAction(k: real, v: Vec4)
    ensures MulVec(Scale(k), v) == [v[0] * k, v[1] * k, v[2] * k, v[3]]
    ensures Scale(k) == Embed(Matrix3.Scale(k), 4)
  {
    MulVec4(Scale(k), v);
    Ext4(MulVec(Scale(k), v), [v[0] * k, v[1] * k, v[2] * k, v[3]]);
    assert forall x | 0 <= x < 4 :: Scale(k)[x] == Embed(Matrix3.Scale(k), 4)[x];
  }

  /** `scale_arb(k, n)` AS WRITTEN, built from `n.normalized()` with the same entries as `Mat3::scale_arb`. */
  function ScaleArb(f: Float, k: real, n: Vec3): (m: Mat4)
    requires Vector3.Magnitude(f, n) != 0.0
  {
    var u := Vector3.Normalized(f, n);
    var scale := 1.0 + (k - 1.0);
    var xy := (k - 1.0) * u[0] * u[1];
    var xz := (k - 1.0) * u[0] * u[2];
    var yz := (k - 1.0) * u[1] * u[2];
    [[scale * (u[0] * u[0]), xy, xz, 0.0],
     [xy, scale * (u[1] * u[1]), yz, 0.0],
     [xz, yz, scale * (u[2] * u[2]), 0.0],
     [0.0, 0.0, 0.0, 1.0]]
  }

  /** `reflection(n)` AS WRITTEN, with the same entries as `Mat3::reflection`, [1][2] included. */
  function Reflection(f: Float, n: Vec3): (m: Mat4)
    requires Vector3.Magnitude(f, n) != 0.0
  {
    var u := Vector3.Normalized(f, n);
    [[1.0 - 2.0 * (u[0] * u[0]), -2.0 * u[0] * u[1], -2.0 * u[0] * u[2], 0.0],
     [-2.0 * u[0] * u[1], 1.0 - 2.0 * (u[1] * u[1]), -2.0 * u[0] * u[2], 0.0],
     [-2.0 * u[0] * u[2], -2.0 * u[1] * u[2], 1.0 - 2.0 * (u[2] * u[2]), 0.0],
     [0.0, 0.0, 0.0, 1.0]]
  }

  /**
   * The 4×4 `scale_arb` and `reflection` are their 3×3 namesakes padded with `(0, 0, 0, 1)`,
   * so they carry the same defects; padding the intended 3×3 versions repairs both.
   */
  lemma DirectionalBuildersEmbed(f: Float, k: real, n: Vec3)
    requires Vector3.Magnitude(f, n) != 0.0
    ensures ScaleArb(f, k, n) == Embed(Matrix3.ScaleArb(f, k, n), 4)
    ensures Reflection(f, n) == Embed(Matrix3.Reflection(f, n), 4)
  {
    EmbedEntries(Matrix3.ScaleArb(f, k, n));
    EmbedEntries(Matrix3.Reflection(f, n));
  }

  /** `scale_arb(k, n)` as intended: the padded intended `Mat3::scale_arb`. */
  function ScaleArbIntended(f: Float, k: real, n: Vec3): (m: Mat4)
    requires Vector3.Magnitude(f, n) != 0.0
  {
    Embed(Matrix3.ScaleArbIntended(f, k, n), 4)
  }

  /** `reflection(n)` as intended: the padded intended `Mat3::reflection`. */
  function ReflectionIntended(f: Float, n: Vec3): (m: Mat4)
    requires Vector3.Magnitude(f, n) != 0.0
  {
    Embed(Matrix3.ReflectionIntended(f, n), 4)
  }

  /**
   * With a lawful square root, the intended 4×4 `scale_arb` stretches `(n̂, w)` to `(k n̂, w)`
   * and the intended 4×4 `reflection` sends it to `(-n̂, w)`.
   */
  lemma DirectionalBuildersIntendedAct(f: Float, k: real, n: Vec3, w: real)
    requires Lawful(f) && Vector3.SquaredLen(n) != 0.0
    ensures Vector3.Magnitude(f, n) != 0.0
    ensures MulVec(ScaleArbIntended(f, k, n), Vector3.Extend(Vector3.Normalized(f, n), w))
         == Vector3.Extend(Vectors.Scale(Vector3.Normalized(f, n), k), w)
    ensures MulVec(ReflectionIntended(f, n), Vector3.Extend(Vector3.Normalized(f, n), w))
         == Vector3.Extend(Neg(Vector3.Normalized(f, n)), w)
  {
    var u := Vector3.Normalized(f, n);
    Matrix3.ScaleArbIntendedStretches(f, k, n, u);
    Matrix3.ReflectionIntendedMirrors(f, n, u);
    EmbedAction(Matrix3.ScaleArbIntended(f, k, n), u, w);
    EmbedAction(Matrix3.ReflectionIntended(f, n), u, w);
  }

  function ShearingXY(s: real, t: real): (m: Mat4)
  {
    [[1.0, 0.0, 0.0, 0.0], [0.0, 1.0, 0.0, 0.0], [s, t, 1.0, 0.0], [0.0, 0.0, 0.0, 1.0]]
  }

  function ShearingXZ(s: real, t: real): (m: Mat4)
  {
    [[1.0, 0.0, 0.0, 0.0], [s, 1.0, t, 0.0], [0.0, 0.0, 1.0, 0.0], [0.0, 0.0, 0.0, 1.0]]
  }

  function ShearingYZ(s: real, t: real): (m: Mat4)
  {
    [[1.0, s, t, 0.0], [0.0, 1.0, 0.0, 0.0], [0.0, 0.0, 1.0, 0.0], [0.0, 0.0, 0.0, 1.0]]
  }

  /** `shearing_xy(s, t)` adds `z s` to x and `z t` to y, keeping z and w. */
  lemma ShearingXYAction(s: real, t: real, v: Vec4)
    ensures MulVec(ShearingXY(s, t), v) == [v[0] + v[2] * s, v[1] + v[2] * t, v[2], v[3]]
  {
    var m := ShearingXY(s, t);
    MulVec4(m, v);
    assert m[2] == [s, t, 1.0, 0.0];
    Ext4(MulVec(m, v), [v[0] + v[2] * s, v[1] + v[2] * t, v[2], v[3]]);
  }

  /** `shearing_xz(s, t)` adds `y s` to x and `y t` to z, keeping y and w. */
  lemma ShearingXZAction(s: real, t: real, v: Vec4)
    ensures MulVec(ShearingXZ(s, t), v) == [v[0] + v[1] * s, v[1], v[2] + v[1] * t, v[3]]
  {
    var m := ShearingXZ(s, t);
    MulVec4(m, v);
    assert m[1] == [s, 1.0, t, 0.0];
    Ext4(MulVec(m, v), [v[0] + v[1] * s, v[1], v[2] + v[1] * t, v[3]]);
  }

  /** `shearing_yz(s, t)` adds `x s` to y and `x t` to z, keeping x and w. */
  lemma ShearingYZAction(s: real, t: real, v: Vec4)
    ensures MulVec(ShearingYZ(s, t), v) == [v[0], v[1] + v[0] * s, v[2] + v[0] * t, v[3]]
  {
    var m := ShearingYZ(s, t);
    MulVec4(m, v);
    assert m[0] == [1.0, s, t, 0.0];
    Ext4(MulVec(m, v), [v[0], v[1] + v[0] * s, v[2] + v[0] * t, v[3]]);
  }

  // ----------------------------------------------------------------- projections

  /**
   * `perspective(fov, aspect, near, far)`. The scales use `tan(fov / 2)`, which no lemma
   * constrains; the divisions that produce an `f32` infinity are excluded.
   */
  function Perspective(f: Float, fov: real, aspect: real, near: real, far: real): (m: Mat4)
    requires aspect * f.tan(fov / 2.0) != 0.0 && f.tan(fov / 2.0) != 0.0 && near != far
  {
    var xScale := 1.0 / (aspect * f.tan(fov / 2.0));
    var yScale := 1.0 / f.tan(fov / 2.0);
    [[xScale, 0.0, 0.0, 0.0],
     [0.0, yScale, 0.0, 0.0],
     [0.0, 0.0, (-near - far) / (near - far), 1.0],
     [0.0, 0.0, (2.0 * far * near) / (near - far), 0.0]]
  }

  /** One depth of the perspective: `z (-n - f)/(n - f) + 2 f n/(n - f)` is `-n` at `z = n` and `f` at `z = f`. */
  lemma PerspectiveDepth(near: real, far: real, a: real, b: real)
    requires near != far && a == (-near - far) / (near - far) && b == (2.0 * far * near) / (near - far)
    ensures near * a + b == -near && far * a + b == far
  {
    var d := near - far;
    assert near * a + b == (near * (-near - far) + 2.0 * far * near) / d;
    assert near * (-near - far) + 2.0 * far * near == -near * d;
    assert far * a + b == (far * (-near - far) + 2.0 * far * near) / d;
    assert far * (-near - far) + 2.0 * far * near == far * d;
  }

  /**
   * Whatever the field of view, `perspective` sends a point at depth `near` to clip depth
   * `-near` with w = `near`, so after the divide by w the near plane lands on -1.
   */
  lemma PerspectiveMapsNear(f: Float, fov: real, aspect: real, near: real, far: real, x: real, y: real)
    requires aspect * f.tan(fov / 2.0) != 0.0 && f.tan(fov / 2.0) != 0.0 && near != far
    ensures MulVec(Perspective(f, fov, aspect, near, far), [x, y, near, 1.0])[2] == -near
    ensures MulVec(Perspective(f, fov, aspect, near, far), [x, y, near, 1.0])[3] == near
  {
    var m := Perspective(f, fov, aspect, near, far);
    MulVec4(m, [x, y, near, 1.0]);
    PerspectiveDepth(near, far, m[2][2], m[3][2]);
  }

  /** `perspective` sends a point at depth `far` to clip depth `far` with w = `far`: the far plane lands on +1. */
  lemma PerspectiveMapsFar(f: Float, fov: real, aspect: real, near: real, far: real, x: real, y: real)
    requires aspect * f.tan(fov / 2.0) != 0.0 && f.tan(fov / 2.0) != 0.0 && near != far
    ensures MulVec(Perspective(f, fov, aspect, near, far), [x, y, far, 1.0])[2] == far
    ensures MulVec(Perspective(f, fov, aspect, near, far), [x, y, far, 1.0])[3] == far
  {
    var m := Perspective(f, fov, aspect, near, far);
    MulVec4(m, [x, y, far, 1.0]);
    PerspectiveDepth(near, far, m[2][2], m[3][2]);
  }

  /** `frustum` AS WRITTEN: entry [0][0] divides by `right - 1.0`. */
  function Frustum(left: real, right: real, bottom: real, top: real, near: real, far: real): (m: Mat4)
    requires right != 1.0 && right != left && top != bottom && far != near
  {
    var vertical := (top + bottom) / (top - bottom);
    var horizontal := (right + left) / (right - left);
    var depth := -(far + near) / (far - near);
    [[(2.0 * near) / (right - 1.0), 0.0, 0.0, 0.0],
     [0.0, (2.0 * near) / (top - bottom), 0.0, 0.0],
     [horizontal, vertical, depth, -1.0],
     [0.0, 0.0, (-2.0 * far * near) / (far - near), 0.0]]
  }

  /** `frustum` with entry [0][0] equal to `2 near / (right - left)`, the `glFrustum` matrix of OpenGL. */
  function FrustumIntended(left: real, right: real, bottom: real, top: real, near: real, far: real): (m: Mat4)
    requires right != left && top != bottom && far != near
  {
    var vertical := (top + bottom) / (top - bottom);
    var horizontal := (right + left) / (right - left);
    var depth := -(far + near) / (far - near);
    [[(2.0 * near) / (right - left), 0.0, 0.0, 0.0],
     [0.0, (2.0 * near) / (top - bottom), 0.0, 0.0],
     [horizontal, vertical, depth, -1.0],
     [0.0, 0.0, (-2.0 * far * near) / (far - near), 0.0]]
  }

  /** One side of the frustum: `hi (2 n/(hi - lo)) - n (hi + lo)/(hi - lo)` is `n`, and at `lo` it is `-n`. */
  lemma FrustumSide(lo: real, hi: real, near: real, s: real, c: real)
    requires hi != lo && s == (2.0 * near) / (hi - lo) && c == (hi + lo) / (hi - lo)
    ensures hi * s + -near * c == near && lo * s + -near * c == -near
  {
    var d := hi - lo;
    assert hi * s + -near * c == (hi * (2.0 * near) - near * (hi + lo)) / d;
    assert hi * (2.0 * near) - near * (hi + lo) == near * d;
    assert lo * s + -near * c == (lo * (2.0 * near) - near * (hi + lo)) / d;
    assert lo * (2.0 * near) - near * (hi + lo) == -near * d;
  }

  /** The depth row of the frustum: `-n` at `z = -n`. */
  lemma FrustumNearDepth(near: real, far: real, a: real, b: real)
    requires far != near && a == -(far + near) / (far - near) && b == (-2.0 * far * near) / (far - near)
    ensures -near * a + b == -near
  {
    var d := far - near;
    assert -near * a + b == (near * (far + near) - 2.0 * far * near) / d;
    assert near * (far + near) - 2.0 * far * near == -near * d;
  }

  /**
   * The intended frustum sends the near-plane corners `(right, top, -near, 1)` and
   * `(left, bottom, -near, 1)` to `(n, n, -n, n)` and `(-n, -n, -n, n)`: after the divide by
   * w they are the corners `(1, 1, -1)` and `(-1, -1, -1)` of the clip cube.
   */
  lemma FrustumIntendedMapsNearCorners(left: real, right: real, bottom: real, top: real, near: real, far: real)
    requires right != left && top != bottom && far != near
    ensures MulVec(FrustumIntended(left, right, bottom, top, near, far), [right, top, -near, 1.0])
         == [near, near, -near, near]
    ensures MulVec(FrustumIntended(left, right, bottom, top, near, far), [left, bottom, -near, 1.0])
         == [-near, -near, -near, near]
  {
    var m := FrustumIntended(left, right, bottom, top, near, far);
    MulVec4(m, [right, top, -near, 1.0]);
    MulVec4(m, [left, bottom, -near, 1.0]);
    FrustumSide(left, right, near, m[0][0], m[2][0]);
    FrustumSide(bottom, top, near, m[1][1], m[2][1]);
    FrustumNearDepth(near, far, m[2][2], m[3][2]);
    Ext4(MulVec(m, [right, top, -near, 1.0]), [near, near, -near, near]);
    Ext4(MulVec(m, [left, bottom, -near, 1.0]), [-near, -near, -near, near]);
  }

  /**
   * For the frustum `left = 0, right = 2, bottom = -1, top = 1, near = 1, far = 2`, the written
   * `frustum` sends the corner `(2, 1, -1, 1)` to x = 3 where the intended one gives x = 1 = w.
   */
  lemma FrustumWidthDefect()
    ensures MulVec(Frustum(0.0, 2.0, -1.0, 1.0, 1.0, 2.0), [2.0, 1.0, -1.0, 1.0])[0] == 3.0
    ensures MulVec(FrustumIntended(0.0, 2.0, -1.0, 1.0, 1.0, 2.0), [2.0, 1.0, -1.0, 1.0])[0] == 1.0
    ensures MulVec(Frustum(0.0, 2.0, -1.0, 1.0, 1.0, 2.0), [2.0, 1.0, -1.0, 1.0])[3] == 1.0
  {
    MulVec4(Frustum(0.0, 2.0, -1.0, 1.0, 1.0, 2.0), [2.0, 1.0, -1.0, 1.0]);
    MulVec4(FrustumIntended(0.0, 2.0, -1.0, 1.0, 1.0, 2.0), [2.0, 1.0, -1.0, 1.0]);
  }

  /** `ortho(left, right, bottom, top, near, far)`; the divisions that produce an `f32` infinity are excluded. */
  function Ortho(left: real, right: real, bottom: real, top: real, near: real, far: real): (m: Mat4)
    requires right != left && top != bottom && far != near
  {
    var xTrans := -((right + left) / (right - left));
    var yTrans := -((top + bottom) / (top - bottom));
    var zTrans := -((far + near) / (far - near));
    [[2.0 / (right - left), 0.0, 0.0, 0.0],
     [0.0, 2.0 / (top - bottom), 0.0, 0.0],
     [0.0, 0.0, -2.0 / (far - near), 0.0],
     [xTrans, yTrans, zTrans, 1.0]]
  }

  /** One axis of `ortho`: `x (2/(hi - lo)) - (hi + lo)/(hi - lo)` is -1 at `lo` and 1 at `hi`. */
  lemma OrthoAxis(lo: real, hi: real, s: real, t: real)
    requires hi != lo && s == 2.0 / (hi - lo) && t == -((hi + lo) / (hi - lo))
    ensures lo * s + t == -1.0 && hi * s + t == 1.0
  {
    var d := hi - lo;
    assert lo * s + t == (2.0 * lo - (hi + lo)) / d;
    assert hi * s + t == (2.0 * hi - (hi + lo)) / d;
  }

  /** The depth axis of `ortho`: `z (-2/(f - n)) - (f + n)/(f - n)` is -1 at `-n` and 1 at `-f`. */
  lemma OrthoDepth(near: real, far: real, s: real, t: real)
    requires far != near && s == -2.0 / (far - near) && t == -((far + near) / (far - near))
    ensures -near * s + t == -1.0 && -far * s + t == 1.0
  {
    var d := far - near;
    assert -near * s + t == (2.0 * near - (far + near)) / d;
    assert -far * s + t == (2.0 * far - (far + near)) / d;
  }

  /** `ortho` maps the near-bottom-left corner `(left, bottom, -near, 1)` to `(-1, -1, -1, 1)`. */
  lemma OrthoMapsNearCorner(left: real, right: real, bottom: real, top: real, near: real, far: real)
    requires right != left && top != bottom && far != near
    ensures MulVec(Ortho(left, right, bottom, top, near, far), [left, bottom, -near, 1.0]) == [-1.0, -1.0, -1.0, 1.0]
  {
    var m := Ortho(left, right, bottom, top, near, far);
    var v := [left, bottom, -near, 1.0];
    MulVec4(m, v);
    OrthoAxis(left, right, m[0][0], m[3][0]);
    OrthoAxis(bottom, top, m[1][1], m[3][1]);
    OrthoDepth(near, far, m[2][2], m[3][2]);
    assert MulVec(m, v)[0] == left * m[0][0] + m[3][0];
    assert MulVec(m, v)[1] == bottom * m[1][1] + m[3][1];
    assert MulVec(m, v)[2] == -near * m[2][2] + m[3][2];
    Ext4(MulVec(m, v), [-1.0, -1.0, -1.0, 1.0]);
  }

  /** `ortho` maps the far-top-right corner `(right, top, -far, 1)` to `(1, 1, 1, 1)`. */
  lemma OrthoMapsFarCorner(left: real, right: real, bottom: real, top: real, near: real, far: real)
    requires right != left && top != bottom && far != near
    ensures MulVec(Ortho(left, right, bottom, top, near, far), [right, top, -far, 1.0]) == [1.0, 1.0, 1.0, 1.0]
  {
    var m := Ortho(left, right, bottom, top, near, far);
    var v := [right, top, -far, 1.0];
    MulVec4(m, v);
    OrthoAxis(left, right, m[0][0], m[3][0]);
    OrthoAxis(bottom, top, m[1][1], m[3][1]);
    OrthoDepth(near, far, m[2][2], m[3][2]);
    assert MulVec(m, v)[0] == right * m[0][0] + m[3][0];
    assert MulVec(m, v)[1] == top * m[1][1] + m[3][1];
    assert MulVec(m, v)[2] == -far * m[2][2] + m[3][2];
    Ext4(MulVec(m, v), [1.0, 1.0, 1.0, 1.0]);
  }

  // ----------------------------------------------------------------- transposes

  /** By-value `transpost`: from `Default`, `ret[i][j] = self[j][i]` for every i, j in 0..=3. */
  method Transpost(self: Mat4) returns (r: Mat4)
    ensures r == Matrix.Transpose(self)
  {
    ghost var t := Matrix.Transpose(self);
    r := Default();
    for i := 0 to 4
      invariant Square(r, 4)
      invariant forall x, y :: 0 <= x < i && 0 <= y < 4 ==> r[x][y] == t[x][y]
      invariant forall x :: i <= x < 4 ==> r[x] == Default()[x]
    {
      for j := 0 to 4
        invariant Square(r, 4)
        invariant forall x, y :: 0 <= x < 4 && 0 <= y < 4 && (x < i || (x == i && y < j)) ==> r[x][y] == t[x][y]
        invariant forall x :: i < x < 4 ==> r[x] == Default()[x]
      {
        r := r[i := r[i][j := self[j][i]]];
      }
    }
    assert forall x | 0 <= x < 4 :: r[x] == t[x];
  }

  /** In-place `transpose`: the same loop into a temporary, which then replaces `*self`. */
  method Transpose(self: Mat4) returns (r: Mat4)
    ensures r == Matrix.Transpose(self)
  {
    r := Transpost(self);
  }

  /** Both transposes undo themselves, and they leave `Default` unchanged. */
  lemma TransposeProperties(m: Mat4)
    ensures Matrix.Transpose(Matrix.Transpose(m)) == m
    ensures Matrix.Transpose(Default()) == Default()
  {
    TransposeInvolution(m);
    ZeroAndDefault();
    TransposeInvolution(Default());
  }

  // ----------------------------------------------------------------- minor, cofactor, determinant

  /** The index in the 4×4 matrix of the x-th row (or column) left after skipping row (or column) k. */
  function Skip(x: nat, k: nat): (r: nat)
    ensures r == x || r == x + 1
  {
    if x < k then x else x + 1
  }

  /**
   * How many entries the fill loop of `minor` has kept before scan position (a, b): three for
   * each earlier row other than row i, plus the earlier columns other than column j of row a.
   */
  function KeptBefore(i: nat, j: nat, a: nat, b: nat): nat
  {
    3 * (if a <= i then a else a - 1) + (if a == i then 0 else if b <= j then b else b - 1)
  }

  /** The states the fill loop reaches at scan position (a, b): `3 col + row` entries written so far. */
  predicate FillState(i: nat, j: nat, a: nat, b: nat, col: nat, row: nat)
  {
    i < 4 && j < 4 && a <= 4 && b < 4 && (a == 4 ==> b == 0) && row < 3
    && 3 * col + row == KeptBefore(i, j, a, b)
  }

  /**
   * One pass of the inner loop of `minor` at scan position (a, b): an entry outside row i and
   * column j is written to `sub[col][row]`, after which `row` advances and, on reaching 3, wraps
   * to 0 while `col` advances. Gives the 3×3 and the cursor (col, row) after the pass.
   */
  function FillStep(m: Mat4, i: nat, j: nat, a: nat, b: nat, sub: Mat3, col: nat, row: nat): (Mat3, nat, nat)
    requires FillState(i, j, a, b, col, row) && a < 4
  {
    var keep := a != i && b != j;
    (if keep then sub[col := sub[col][row := m[a][b]]] else sub,
     if keep && row == 2 then col + 1 else col,
     if !keep then row else if row == 2 then 0 else row + 1)
  }

  /** The scan position after (a, b): the next column, or the start of the next row. */
  function NextA(a: nat, b: nat): nat { if b == 3 then a + 1 else a }
  function NextB(b: nat): nat { if b == 3 then 0 else b + 1 }

  /** The fill loop of `minor` from scan position (a, b) on: rows in order, columns within a row. */
  function Fill(m: Mat4, i: nat, j: nat, a: nat, b: nat, sub: Mat3, col: nat, row: nat): Mat3
    requires FillState(i, j, a, b, col, row)
    decreases 4 - a, 4 - b
  {
    if a == 4 then sub
    else
      var (next, col', row') := FillStep(m, i, j, a, b, sub, col, row);
      Fill(m, i, j, NextA(a, b), NextB(b), next, col', row')
  }

  /**
   * The fill loop from scan position (a, b) on, followed by the 3×3 determinant of what it
   * filled in: the value `minor` returns.
   */
  function FillDeterminant(m: Mat4, i: nat, j: nat, a: nat, b: nat, sub: Mat3, col: nat, row: nat): real
    requires FillState(i, j, a, b, col, row)
    decreases 4 - a, 4 - b
  {
    if a == 4 then Matrix3.Determinant(sub)
    else
      var (next, col', row') := FillStep(m, i, j, a, b, sub, col, row);
      FillDeterminant(m, i, j, NextA(a, b), NextB(b), next, col', row')
  }

  /** The 3×3 matrix `minor` fills in: the whole loop, started from `Mat3::default()`. */
  function Submatrix(m: Mat4, i: nat, j: nat): Mat3
    requires i < 4 && j < 4
  {
    Fill(m, i, j, 0, 0, Matrix3.Default(), 0, 0)
  }

  /**
   * From any state of the loop whose written entries already sit at their struck-out place,
   * the finished 3×3 holds `m[Skip(x, i)][Skip(y, j)]` at every [x][y].
   */
  lemma {:induction false} FillStruckOut(m: Mat4, i: nat, j: nat, a: nat, b: nat, sub: Mat3, col: nat, row: nat)
    requires FillState(i, j, a, b, col, row)
    requires forall x, y :: 0 <= x < 3 && 0 <= y < 3 && 3 * x + y < 3 * col + row ==>
      sub[x][y] == m[Skip(x, i)][Skip(y, j)]
    ensures forall x, y :: 0 <= x < 3 && 0 <= y < 3 ==>
      Fill(m, i, j, a, b, sub, col, row)[x][y] == m[Skip(x, i)][Skip(y, j)]
    decreases 4 - a, 4 - b
  {
    if a < 4 {
      var (next, col', row') := FillStep(m, i, j, a, b, sub, col, row);
      if a != i && b != j {
        assert Skip(col, i) == a && Skip(row, j) == b;
      }
      FillStruckOut(m, i, j, NextA(a, b), NextB(b), next, col', row');
    }
  }

  /** Running the loop to the end and then taking the determinant is the determinant of `Fill`. */
  lemma {:induction false} FillDeterminantOfFill(m: Mat4, i: nat, j: nat, a: nat, b: nat, sub: Mat3, col: nat, row: nat)
    requires FillState(i, j, a, b, col, row)
    ensures FillDeterminant(m, i, j, a, b, sub, col, row) == Matrix3.Determinant(Fill(m, i, j, a, b, sub, col, row))
    decreases 4 - a, 4 - b
  {
    if a < 4 {
      var (next, col', row') := FillStep(m, i, j, a, b, sub, col, row);
      FillDeterminantOfFill(m, i, j, NextA(a, b), NextB(b), next, col', row');
    }
  }

  /**
   * The matrix `minor` fills in is the 4×4 with row i and column j struck out, in their
   * original order: the `matrix_3[col][row]` write stores the struck-out matrix itself, since
   * `col` counts kept rows and `row` kept columns, not its transpose.
   */
  lemma SubmatrixStruckOut(m: Mat4, i: nat, j: nat)
    requires i < 4 && j < 4
    ensures forall x, y :: 0 <= x < 3 && 0 <= y < 3 ==> Submatrix(m, i, j)[x][y] == m[Skip(x, i)][Skip(y, j)]
  {
    FillStruckOut(m, i, j, 0, 0, Matrix3.Default(), 0, 0);
  }

  /** `minor(i, j)`: panics when `i > 3` or `j > 3`, else fills in the 3×3 and takes its determinant. */
  function Minor(m: Mat4, i: nat, j: nat): (r: Checked<real>)
    ensures r.Value? <==> i <= 3 && j <= 3
  {
    if i > 3 || j > 3 then Panic else Value(FillDeterminant(m, i, j, 0, 0, Matrix3.Default(), 0, 0))
  }

  /** Each in-range minor is the 3×3 determinant of the struck-out matrix. */
  lemma MinorIsDeterminant(m: Mat4, i: nat, j: nat)
    requires i < 4 && j < 4
    ensures Minor(m, i, j) == Value(Matrix3.Determinant(Submatrix(m, i, j)))
  {
    FillDeterminantOfFill(m, i, j, 0, 0, Matrix3.Default(), 0, 0);
  }

  /** `minor` with its two nested loops, which compute what `Fill` describes. */
  method MinorLoop(m: Mat4, i: nat, j: nat) returns (r: Checked<real>)
    ensures r == Minor(m, i, j)
  {
    if i > 3 || j > 3 {
      return Panic;
    }
    var sub: Mat3 := Matrix3.Default();
    var col, row := 0, 0;
    for a := 0 to 4
      invariant FillState(i, j, a, 0, col, row)
      invariant Fill(m, i, j, a, 0, sub, col, row) == Submatrix(m, i, j)
    {
      for b := 0 to 4
        invariant b < 4 ==> FillState(i, j, a, b, col, row) && Fill(m, i, j, a, b, sub, col, row) == Submatrix(m, i, j)
        invariant b == 4 ==> FillState(i, j, a + 1, 0, col, row) && Fill(m, i, j, a + 1, 0, sub, col, row) == Submatrix(m, i, j)
      {
        if a != i && b != j {
          sub := sub[col := sub[col][row := m[a][b]]];
          row := row + 1;
          if row == 3 {
            row := 0;
            col := col + 1;
          }
        }
      }
    }
    MinorIsDeterminant(m, i, j);
    r := Value(Matrix3.Determinant(sub));
  }

  /** `(-1 as i32).pow(n)`, by repeated multiplication. */
  function PowNegOne(n: nat): real
  {
    if n == 0 then 1.0 else -1.0 * PowNegOne(n - 1)
  }

  /** `(-1)^n` is 1 for even `n` and -1 for odd `n`. */
  lemma {:induction false} PowNegOneParity(n: nat)
    ensures PowNegOne(n) == if n % 2 == 0 then 1.0 else -1.0
  {
    if n > 0 {
      PowNegOneParity(n - 1);
    }
  }

  /** `cofactor(i, j)`: `(-1)^(i+j)` times the minor; panics where the minor does. */
  function Cofactor(m: Mat4, i: nat, j: nat): (r: Checked<real>)
    ensures r.Value? <==> i <= 3 && j <= 3
  {
    match Minor(m, i, j)
    case Panic => Panic
    case Value(x) => Value(PowNegOne(i + j) * x)
  }

  /** The struck-out matrix with its nine entries named. */
  lemma SubmatrixEntries(m: Mat4, i: nat, j: nat)
    requires i < 4 && j < 4
    ensures Submatrix(m, i, j) == Matrix3.New(
      m[Skip(0, i)][Skip(0, j)], m[Skip(0, i)][Skip(1, j)], m[Skip(0, i)][Skip(2, j)],
      m[Skip(1, i)][Skip(0, j)], m[Skip(1, i)][Skip(1, j)], m[Skip(1, i)][Skip(2, j)],
      m[Skip(2, i)][Skip(0, j)], m[Skip(2, i)][Skip(1, j)], m[Skip(2, i)][Skip(2, j)])
  {
    SubmatrixStruckOut(m, i, j);
    Matrix3.Entries(Submatrix(m, i, j));
  }

  /** Each in-range minor as the 3×3 determinant of the nine struck-out entries, named. */
  lemma MinorExplicit(m: Mat4, i: nat, j: nat)
    requires i < 4 && j < 4
    ensures Minor(m, i, j).get == Matrix3.Determinant(Matrix3.New(
      m[Skip(0, i)][Skip(0, j)], m[Skip(0, i)][Skip(1, j)], m[Skip(0, i)][Skip(2, j)],
      m[Skip(1, i)][Skip(0, j)], m[Skip(1, i)][Skip(1, j)], m[Skip(1, i)][Skip(2, j)],
      m[Skip(2, i)][Skip(0, j)], m[Skip(2, i)][Skip(1, j)], m[Skip(2, i)][Skip(2, j)]))
  {
    MinorIsDeterminant(m, i, j);
    SubmatrixEntries(m, i, j);
  }

  /** The 24-term Leibniz formula, an independent definition of the 4×4 determinant. */
  function Leibniz(m: Mat4): real
  {
    m[0][0] * m[1][1] * m[2][2] * m[3][3] - m[0][0] * m[1][1] * m[2][3] * m[3][2]
    - m[0][0] * m[1][2] * m[2][1] * m[3][3] + m[0][0] * m[1][2] * m[2][3] * m[3][1]
    + m[0][0] * m[1][3] * m[2][1] * m[3][2] - m[0][0] * m[1][3] * m[2][2] * m[3][1]
    - m[0][1] * m[1][0] * m[2][2] * m[3][3] + m[0][1] * m[1][0] * m[2][3] * m[3][2]
    + m[0][1] * m[1][2] * m[2][0] * m[3][3] - m[0][1] * m[1][2] * m[2][3] * m[3][0]
    - m[0][1] * m[1][3] * m[2][0] * m[3][2] + m[0][1] * m[1][3] * m[2][2] * m[3][0]
    + m[0][2] * m[1][0] * m[2][1] * m[3][3] - m[0][2] * m[1][0] * m[2][3] * m[3][1]
    - m[0][2] * m[1][1] * m[2][0] * m[3][3] + m[0][2] * m[1][1] * m[2][3] * m[3][0]
    + m[0][2] * m[1][3] * m[2][0] * m[3][1] - m[0][2] * m[1][3] * m[2][1] * m[3][0]
    - m[0][3] * m[1][0] * m[2][1] * m[3][2] + m[0][3] * m[1][0] * m[2][2] * m[3][1]
    + m[0][3] * m[1][1] * m[2][0] * m[3][2] - m[0][3] * m[1][1] * m[2][2] * m[3][0]
    - m[0][3] * m[1][2] * m[2][0] * m[3][1] + m[0][3] * m[1][2] * m[2][1] * m[3][0]
  }

  /*
   * Laplace expansion, one polynomial identity per lemma: `c0..c3` are the cofactors of one
   * column i written out, and the entries of column j weighted by them sum to the determinant
   * when j = i and to zero otherwise (an "alien" expansion). The row expansion follows by
   * transposition.
   */

  lemma ColumnCofactors00(m: Mat4, c0: real, c1: real, c2: real, c3: real)
    requires c0 == (m[1][1] * (m[2][2] * m[3][3] - m[2][3] * m[3][2])
                  - m[1][2] * (m[2][1] * m[3][3] - m[2][3] * m[3][1])
                  + m[1][3] * (m[2][1] * m[3][2] - m[2][2] * m[3][1]))
    requires c1 == -(m[0][1] * (m[2][2] * m[3][3] - m[2][3] * m[3][2])
                  - m[0][2] * (m[2][1] * m[3][3] - m[2][3] * m[3][1])
                  + m[0][3] * (m[2][1] * m[3][2] - m[2][2] * m[3][1]))
    requires c2 == (m[0][1] * (m[1][2] * m[3][3] - m[1][3] * m[3][2])
                  - m[0][2] * (m[1][1] * m[3][3] - m[1][3] * m[3][1])
                  + m[0][3] * (m[1][1] * m[3][2] - m[1][2] * m[3][1]))
    requires c3 == -(m[0][1] * (m[1][2] * m[2][3] - m[1][3] * m[2][2])
                  - m[0][2] * (m[1][1] * m[2][3] - m[1][3] * m[2][1])
                  + m[0][3] * (m[1][1] * m[2][2] - m[1][2] * m[2][1]))
    ensures m[0][0] * c0 + m[1][0] * c1 + m[2][0] * c2 + m[3][0] * c3 == Leibniz(m)
  {
  }

  lemma ColumnCofactors01(m: Mat4, c0: real, c1: real, c2: real, c3: real)
    requires c0 == (m[1][1] * (m[2][2] * m[3][3] - m[2][3] * m[3][2])
                  - m[1][2] * (m[2][1] * m[3][3] - m[2][3] * m[3][1])
                  + m[1][3] * (m[2][1] * m[3][2] - m[2][2] * m[3][1]))
    requires c1 == -(m[0][1] * (m[2][2] * m[3][3] - m[2][3] * m[3][2])
                  - m[0][2] * (m[2][1] * m[3][3] - m[2][3] * m[3][1])
                  + m[0][3] * (m[2][1] * m[3][2] - m[2][2] * m[3][1]))
    requires c2 == (m[0][1] * (m[1][2] * m[3][3] - m[1][3] * m[3][2])
                  - m[0][2] * (m[1][1] * m[3][3] - m[1][3] * m[3][1])
                  + m[0][3] * (m[1][1] * m[3][2] - m[1][2] * m[3][1]))
    requires c3 == -(m[0][1] * (m[1][2] * m[2][3] - m[1][3] * m[2][2])
                  - m[0][2] * (m[1][1] * m[2][3] - m[1][3] * m[2][1])
                  + m[0][3] * (m[1][1] * m[2][2] - m[1][2] * m[2][1]))
    ensures m[0][1] * c0 + m[1][1] * c1 + m[2][1] * c2 + m[3][1] * c3 == 0.0
  {
  }

  lemma ColumnCofactors02(m: Mat4, c0: real, c1: real, c2: real, c3: real)
    requires c0 == (m[1][1] * (m[2][2] * m[3][3] - m[2][3] * m[3][2])
                  - m[1][2] * (m[2][1] * m[3][3] - m[2][3] * m[3][1])
                  + m[1][3] * (m[2][1] * m[3][2] - m[2][2] * m[3][1]))
    requires c1 == -(m[0][1] * (m[2][2] * m[3][3] - m[2][3] * m[3][2])
                  - m[0][2] * (m[2][1] * m[3][3] - m[2][3] * m[3][1])
                  + m[0][3] * (m[2][1] * m[3][2] - m[2][2] * m[3][1]))
    requires c2 == (m[0][1] * (m[1][2] * m[3][3] - m[1][3] * m[3][2])
                  - m[0][2] * (m[1][1] * m[3][3] - m[1][3] * m[3][1])
                  + m[0][3] * (m[1][1] * m[3][2] - m[1][2] * m[3][1]))
    requires c3 == -(m[0][1] * (m[1][2] * m[2][3] - m[1][3] * m[2][2])
                  - m[0][2] * (m[1][1] * m[2][3] - m[1][3] * m[2][1])
                  + m[0][3] * (m[1][1] * m[2][2] - m[1][2] * m[2][1]))
    ensures m[0][2] * c0 + m[1][2] * c1 + m[2][2] * c2 + m[3][2] * c3 == 0.0
  {
  }

  lemma ColumnCofactors03(m: Mat4, c0: real, c1: real, c2: real, c3: real)
    requires c0 == (m[1][1] * (m[2][2] * m[3][3] - m[2][3] * m[3][2])
                  - m[1][2] * (m[2][1] * m[3][3] - m[2][3] * m[3][1])
                  + m[1][3] * (m[2][1] * m[3][2] - m[2][2] * m[3][1]))
    requires c1 == -(m[0][1] * (m[2][2] * m[3][3] - m[2][3] * m[3][2])
                  - m[0][2] * (m[2][1] * m[3][3] - m[2][3] * m[3][1])
                  + m[0][3] * (m[2][1] * m[3][2] - m[2][2] * m[3][1]))
    requires c2 == (m[0][1] * (m[1][2] * m[3][3] - m[1][3] * m[3][2])
                  - m[0][2] * (m[1][1] * m[3][3] - m[1][3] * m[3][1])
                  + m[0][3] * (m[1][1] * m[3][2] - m[1][2] * m[3][1]))
    requires c3 == -(m[0][1] * (m[1][2] * m[2][3] - m[1][3] * m[2][2])
                  - m[0][2] * (m[1][1] * m[2][3] - m[1][3] * m[2][1])
                  + m[0][3] * (m[1][1] * m[2][2] - m[1][2] * m[2][1]))
    ensures m[0][3] * c0 + m[1][3] * c1 + m[2][3] * c2 + m[3][3] * c3 == 0.0
  {
  }

  lemma ColumnCofactors10(m: Mat4, c0: real, c1: real, c2: real, c3: real)
    requires c0 == -(m[1][0] * (m[2][2] * m[3][3] - m[2][3] * m[3][2])
                  - m[1][2] * (m[2][0] * m[3][3] - m[2][3] * m[3][0])
                  + m[1][3] * (m[2][0] * m[3][2] - m[2][2] * m[3][0]))
    requires c1 == (m[0][0] * (m[2][2] * m[3][3] - m[2][3] * m[3][2])
                  - m[0][2] * (m[2][0] * m[3][3] - m[2][3] * m[3][0])
                  + m[0][3] * (m[2][0] * m[3][2] - m[2][2] * m[3][0]))
    requires c2 == -(m[0][0] * (m[1][2] * m[3][3] - m[1][3] * m[3][2])
                  - m[0][2] * (m[1][0] * m[3][3] - m[1][3] * m[3][0])
                  + m[0][3] * (m[1][0] * m[3][2] - m[1][2] * m[3][0]))
    requires c3 == (m[0][0] * (m[1][2] * m[2][3] - m[1][3] * m[2][2])
                  - m[0][2] * (m[1][0] * m[2][3] - m[1][3] * m[2][0])
                  + m[0][3] * (m[1][0] * m[2][2] - m[1][2] * m[2][0]))
    ensures m[0][0] * c0 + m[1][0] * c1 + m[2][0] * c2 + m[3][0] * c3 == 0.0
  {
  }

  lemma ColumnCofactors11(m: Mat4, c0: real, c1: real, c2: real, c3: real)
    requires c0 == -(m[1][0] * (m[2][2] * m[3][3] - m[2][3] * m[3][2])
                  - m[1][2] * (m[2][0] * m[3][3] - m[2][3] * m[3][0])
                  + m[1][3] * (m[2][0] * m[3][2] - m[2][2] * m[3][0]))
    requires c1 == (m[0][0] * (m[2][2] * m[3][3] - m[2][3] * m[3][2])
                  - m[0][2] * (m[2][0] * m[3][3] - m[2][3] * m[3][0])
                  + m[0][3] * (m[2][0] * m[3][2] - m[2][2] * m[3][0]))
    requires c2 == -(m[0][0] * (m[1][2] * m[3][3] - m[1][3] * m[3][2])
                  - m[0][2] * (m[1][0] * m[3][3] - m[1][3] * m[3][0])
                  + m[0][3] * (m[1][0] * m[3][2] - m[1][2] * m[3][0]))
    requires c3 == (m[0][0] * (m[1][2] * m[2][3] - m[1][3] * m[2][2])
                  - m[0][2] * (m[1][0] * m[2][3] - m[1][3] * m[2][0])
                  + m[0][3] * (m[1][0] * m[2][2] - m[1][2] * m[2][0]))
    ensures m[0][1] * c0 + m[1][1] * c1 + m[2][1] * c2 + m[3][1] * c3 == Leibniz(m)
  {
  }

  lemma ColumnCofactors12(m: Mat4, c0: real, c1: real, c2: real, c3: real)
    requires c0 == -(m[1][0] * (m[2][2] * m[3][3] - m[2][3] * m[3][2])
                  - m[1][2] * (m[2][0] * m[3][3] - m[2][3] * m[3][0])
                  + m[1][3] * (m[2][0] * m[3][2] - m[2][2] * m[3][0]))
    requires c1 == (m[0][0] * (m[2][2] * m[3][3] - m[2][3] * m[3][2])
                  - m[0][2] * (m[2][0] * m[3][3] - m[2][3] * m[3][0])
                  + m[0][3] * (m[2][0] * m[3][2] - m[2][2] * m[3][0]))
    requires c2 == -(m[0][0] * (m[1][2] * m[3][3] - m[1][3] * m[3][2])
                  - m[0][2] * (m[1][0] * m[3][3] - m[1][3] * m[3][0])
                  + m[0][3] * (m[1][0] * m[3][2] - m[1][2] * m[3][0]))
    requires c3 == (m[0][0] * (m[1][2] * m[2][3] - m[1][3] * m[2][2])
                  - m[0][2] * (m[1][0] * m[2][3] - m[1][3] * m[2][0])
                  + m[0][3] * (m[1][0] * m[2][2] - m[1][2] * m[2][0]))
    ensures m[0][2] * c0 + m[1][2] * c1 + m[2][2] * c2 + m[3][2] * c3 == 0.0
  {
  }

  lemma ColumnCofactors13(m: Mat4, c0: real, c1: real, c2: real, c3: real)
    requires c0 == -(m[1][0] * (m[2][2] * m[3][3] - m[2][3] * m[3][2])
                  - m[1][2] * (m[2][0] * m[3][3] - m[2][3] * m[3][0])
                  + m[1][3] * (m[2][0] * m[3][2] - m[2][2] * m[3][0]))
    requires c1 == (m[0][0] * (m[2][2] * m[3][3] - m[2][3] * m[3][2])
                  - m[0][2] * (m[2][0] * m[3][3] - m[2][3] * m[3][0])
                  + m[0][3] * (m[2][0] * m[3][2] - m[2][2] * m[3][0]))
    requires c2 == -(m[0][0] * (m[1][2] * m[3][3] - m[1][3] * m[3][2])
                  - m[0][2] * (m[1][0] * m[3][3] - m[1][3] * m[3][0])
                  + m[0][3] * (m[1][0] * m[3][2] - m[1][2] * m[3][0]))
    requires c3 == (m[0][0] * (m[1][2] * m[2][3] - m[1][3] * m[2][2])
                  - m[0][2] * (m[1][0] * m[2][3] - m[1][3] * m[2][0])
                  + m[0][3] * (m[1][0] * m[2][2] - m[1][2] * m[2][0]))
    ensures m[0][3] * c0 + m[1][3] * c1 + m[2][3] * c2 + m[3][3] * c3 == 0.0
  {
  }

  lemma ColumnCofactors20(m: Mat4, c0: real, c1: real, c2: real, c3: real)
    requires c0 == (m[1][0] * (m[2][1] * m[3][3] - m[2][3] * m[3][1])
                  - m[1][1] * (m[2][0] * m[3][3] - m[2][3] * m[3][0])
                  + m[1][3] * (m[2][0] * m[3][1] - m[2][1] * m[3][0]))
    requires c1 == -(m[0][0] * (m[2][1] * m[3][3] - m[2][3] * m[3][1])
                  - m[0][1] * (m[2][0] * m[3][3] - m[2][3] * m[3][0])
                  + m[0][3] * (m[2][0] * m[3][1] - m[2][1] * m[3][0]))
    requires c2 == (m[0][0] * (m[1][1] * m[3][3] - m[1][3] * m[3][1])
                  - m[0][1] * (m[1][0] * m[3][3] - m[1][3] * m[3][0])
                  + m[0][3] * (m[1][0] * m[3][1] - m[1][1] * m[3][0]))
    requires c3 == -(m[0][0] * (m[1][1] * m[2][3] - m[1][3] * m[2][1])
                  - m[0][1] * (m[1][0] * m[2][3] - m[1][3] * m[2][0])
                  + m[0][3] * (m[1][0] * m[2][1] - m[1][1] * m[2][0]))
    ensures m[0][0] * c0 + m[1][0] * c1 + m[2][0] * c2 + m[3][0] * c3 == 0.0
  {
  }

  lemma ColumnCofactors21(m: Mat4, c0: real, c1: real, c2: real, c3: real)
    requires c0 == (m[1][0] * (m[2][1] * m[3][3] - m[2][3] * m[3][1])
                  - m[1][1] * (m[2][0] * m[3][3] - m[2][3] * m[3][0])
                  + m[1][3] * (m[2][0] * m[3][1] - m[2][1] * m[3][0]))
    requires c1 == -(m[0][0] * (m[2][1] * m[3][3] - m[2][3] * m[3][1])
                  - m[0][1] * (m[2][0] * m[3][3] - m[2][3] * m[3][0])
                  + m[0][3] * (m[2][0] * m[3][1] - m[2][1] * m[3][0]))
    requires c2 == (m[0][0] * (m[1][1] * m[3][3] - m[1][3] * m[3][1])
                  - m[0][1] * (m[1][0] * m[3][3] - m[1][3] * m[3][0])
                  + m[0][3] * (m[1][0] * m[3][1] - m[1][1] * m[3][0]))
    requires c3 == -(m[0][0] * (m[1][1] * m[2][3] - m[1][3] * m[2][1])
                  - m[0][1] * (m[1][0] * m[2][3] - m[1][3] * m[2][0])
                  + m[0][3] * (m[1][0] * m[2][1] - m[1][1] * m[2][0]))
    ensures m[0][1] * c0 + m[1][1] * c1 + m[2][1] * c2 + m[3][1] * c3 == 0.0
  {
  }

  lemma ColumnCofactors22(m: Mat4, c0: real, c1: real, c2: real, c3: real)
    requires c0 == (m[1][0] * (m[2][1] * m[3][3] - m[2][3] * m[3][1])
                  - m[1][1] * (m[2][0] * m[3][3] - m[2][3] * m[3][0])
                  + m[1][3] * (m[2][0] * m[3][1] - m[2][1] * m[3][0]))
    requires c1 == -(m[0][0] * (m[2][1] * m[3][3] - m[2][3] * m[3][1])
                  - m[0][1] * (m[2][0] * m[3][3] - m[2][3] * m[3][0])
                  + m[0][3] * (m[2][0] * m[3][1] - m[2][1] * m[3][0]))
    requires c2 == (m[0][0] * (m[1][1] * m[3][3] - m[1][3] * m[3][1])
                  - m[0][1] * (m[1][0] * m[3][3] - m[1][3] * m[3][0])
                  + m[0][3] * (m[1][0] * m[3][1] - m[1][1] * m[3][0]))
    requires c3 == -(m[0][0] * (m[1][1] * m[2][3] - m[1][3] * m[2][1])
                  - m[0][1] * (m[1][0] * m[2][3] - m[1][3] * m[2][0])
                  + m[0][3] * (m[1][0] * m[2][1] - m[1][1] * m[2][0]))
    ensures m[0][2] * c0 + m[1][2] * c1 + m[2][2] * c2 + m[3][2] * c3 == Leibniz(m)
  {
  }

  lemma ColumnCofactors23(m: Mat4, c0: real, c1: real, c2: real, c3: real)
    requires c0 == (m[1][0] * (m[2][1] * m[3][3] - m[2][3] * m[3][1])
                  - m[1][1] * (m[2][0] * m[3][3] - m[2][3] * m[3][0])
                  + m[1][3] * (m[2][0] * m[3][1] - m[2][1] * m[3][0]))
    requires c1 == -(m[0][0] * (m[2][1] * m[3][3] - m[2][3] * m[3][1])
                  - m[0][1] * (m[2][0] * m[3][3] - m[2][3] * m[3][0])
                  + m[0][3] * (m[2][0] * m[3][1] - m[2][1] * m[3][0]))
    requires c2 == (m[0][0] * (m[1][1] * m[3][3] - m[1][3] * m[3][1])
                  - m[0][1] * (m[1][0] * m[3][3] - m[1][3] * m[3][0])
                  + m[0][3] * (m[1][0] * m[3][1] - m[1][1] * m[3][0]))
    requires c3 == -(m[0][0] * (m[1][1] * m[2][3] - m[1][3] * m[2][1])
                  - m[0][1] * (m[1][0] * m[2][3] - m[1][3] * m[2][0])
                  + m[0][3] * (m[1][0] * m[2][1] - m[1][1] * m[2][0]))
    ensures m[0][3] * c0 + m[1][3] * c1 + m[2][3] * c2 + m[3][3] * c3 == 0.0
  {
  }

  lemma ColumnCofactors30(m: Mat4, c0: real, c1: real, c2: real, c3: real)
    requires c0 == -(m[1][0] * (m[2][1] * m[3][2] - m[2][2] * m[3][1])
                  - m[1][1] * (m[2][0] * m[3][2] - m[2][2] * m[3][0])
                  + m[1][2] * (m[2][0] * m[3][1] - m[2][1] * m[3][0]))
    requires c1 == (m[0][0] * (m[2][1] * m[3][2] - m[2][2] * m[3][1])
                  - m[0][1] * (m[2][0] * m[3][2] - m[2][2] * m[3][0])
                  + m[0][2] * (m[2][0] * m[3][1] - m[2][1] * m[3][0]))
    requires c2 == -(m[0][0] * (m[1][1] * m[3][2] - m[1][2] * m[3][1])
                  - m[0][1] * (m[1][0] * m[3][2] - m[1][2] * m[3][0])
                  + m[0][2] * (m[1][0] * m[3][1] - m[1][1] * m[3][0]))
    requires c3 == (m[0][0] * (m[1][1] * m[2][2] - m[1][2] * m[2][1])
                  - m[0][1] * (m[1][0] * m[2][2] - m[1][2] * m[2][0])
                  + m[0][2] * (m[1][0] * m[2][1] - m[1][1] * m[2][0]))
    ensures m[0][0] * c0 + m[1][0] * c1 + m[2][0] * c2 + m[3][0] * c3 == 0.0
  {
  }

  lemma ColumnCofactors31(m: Mat4, c0: real, c1: real, c2: real, c3: real)
    requires c0 == -(m[1][0] * (m[2][1] * m[3][2] - m[2][2] * m[3][1])
                  - m[1][1] * (m[2][0] * m[3][2] - m[2][2] * m[3][0])
                  + m[1][2] * (m[2][0] * m[3][1] - m[2][1] * m[3][0]))
    requires c1 == (m[0][0] * (m[2][1] * m[3][2] - m[2][2] * m[3][1])
                  - m[0][1] * (m[2][0] * m[3][2] - m[2][2] * m[3][0])
                  + m[0][2] * (m[2][0] * m[3][1] - m[2][1] * m[3][0]))
    requires c2 == -(m[0][0] * (m[1][1] * m[3][2] - m[1][2] * m[3][1])
                  - m[0][1] * (m[1][0] * m[3][2] - m[1][2] * m[3][0])
                  + m[0][2] * (m[1][0] * m[3][1] - m[1][1] * m[3][0]))
    requires c3 == (m[0][0] * (m[1][1] * m[2][2] - m[1][2] * m[2][1])
                  - m[0][1] * (m[1][0] * m[2][2] - m[1][2] * m[2][0])
                  + m[0][2] * (m[1][0] * m[2][1] - m[1][1] * m[2][0]))
    ensures m[0][1] * c0 + m[1][1] * c1 + m[2][1] * c2 + m[3][1] * c3 == 0.0
  {
  }

  lemma ColumnCofactors32(m: Mat4, c0: real, c1: real, c2: real, c3: real)
    requires c0 == -(m[1][0] * (m[2][1] * m[3][2] - m[2][2] * m[3][1])
                  - m[1][1] * (m[2][0] * m[3][2] - m[2][2] * m[3][0])
                  + m[1][2] * (m[2][0] * m[3][1] - m[2][1] * m[3][0]))
    requires c1 == (m[0][0] * (m[2][1] * m[3][2] - m[2][2] * m[3][1])
                  - m[0][1] * (m[2][0] * m[3][2] - m[2][2] * m[3][0])
                  + m[0][2] * (m[2][0] * m[3][1] - m[2][1] * m[3][0]))
    requires c2 == -(m[0][0] * (m[1][1] * m[3][2] - m[1][2] * m[3][1])
                  - m[0][1] * (m[1][0] * m[3][2] - m[1][2] * m[3][0])
                  + m[0][2] * (m[1][0] * m[3][1] - m[1][1] * m[3][0]))
    requires c3 == (m[0][0] * (m[1][1] * m[2][2] - m[1][2] * m[2][1])
                  - m[0][1] * (m[1][0] * m[2][2] - m[1][2] * m[2][0])
                  + m[0][2] * (m[1][0] * m[2][1] - m[1][1] * m[2][0]))
    ensures m[0][2] * c0 + m[1][2] * c1 + m[2][2] * c2 + m[3][2] * c3 == 0.0
  {
  }

  lemma ColumnCofactors33(m: Mat4, c0: real, c1: real, c2: real, c3: real)
    requires c0 == -(m[1][0] * (m[2][1] * m[3][2] - m[2][2] * m[3][1])
                  - m[1][1] * (m[2][0] * m[3][2] - m[2][2] * m[3][0])
                  + m[1][2] * (m[2][0] * m[3][1] - m[2][1] * m[3][0]))
    requires c1 == (m[0][0] * (m[2][1] * m[3][2] - m[2][2] * m[3][1])
                  - m[0][1] * (m[2][0] * m[3][2] - m[2][2] * m[3][0])
                  + m[0][2] * (m[2][0] * m[3][1] - m[2][1] * m[3][0]))
    requires c2 == -(m[0][0] * (m[1][1] * m[3][2] - m[1][2] * m[3][1])
                  - m[0][1] * (m[1][0] * m[3][2] - m[1][2] * m[3][0])
                  + m[0][2] * (m[1][0] * m[3][1] - m[1][1] * m[3][0]))
    requires c3 == (m[0][0] * (m[1][1] * m[2][2] - m[1][2] * m[2][1])
                  - m[0][1] * (m[1][0] * m[2][2] - m[1][2] * m[2][0])
                  + m[0][2] * (m[1][0] * m[2][1] - m[1][1] * m[2][0]))
    ensures m[0][3] * c0 + m[1][3] * c1 + m[2][3] * c2 + m[3][3] * c3 == Leibniz(m)
  {
  }


  // The expansions for each fixed pair (i, j), with the cofactors named for the identities above.

  lemma ColumnExpansion00(m: Mat4, i: nat, j: nat)
    requires i == 0 && j == 0
    ensures m[0][j] * Cofactor(m, 0, i).get + m[1][j] * Cofactor(m, 1, i).get
          + m[2][j] * Cofactor(m, 2, i).get + m[3][j] * Cofactor(m, 3, i).get
         == Leibniz(m)
  {
    MinorExplicit(m, 0, i);
    MinorExplicit(m, 1, i);
    MinorExplicit(m, 2, i);
    MinorExplicit(m, 3, i);
    ColumnCofactors00(m, Cofactor(m, 0, i).get, Cofactor(m, 1, i).get, Cofactor(m, 2, i).get, Cofactor(m, 3, i).get);
  }

  lemma ColumnExpansion01(m: Mat4, i: nat, j: nat)
    requires i == 0 && j == 1
    ensures m[0][j] * Cofactor(m, 0, i).get + m[1][j] * Cofactor(m, 1, i).get
          + m[2][j] * Cofactor(m, 2, i).get + m[3][j] * Cofactor(m, 3, i).get
         == 0.0
  {
    MinorExplicit(m, 0, i);
    MinorExplicit(m, 1, i);
    MinorExplicit(m, 2, i);
    MinorExplicit(m, 3, i);
    ColumnCofactors01(m, Cofactor(m, 0, i).get, Cofactor(m, 1, i).get, Cofactor(m, 2, i).get, Cofactor(m, 3, i).get);
  }

  lemma ColumnExpansion02(m: Mat4, i: nat, j: nat)
    requires i == 0 && j == 2
    ensures m[0][j] * Cofactor(m, 0, i).get + m[1][j] * Cofactor(m, 1, i).get
          + m[2][j] * Cofactor(m, 2, i).get + m[3][j] * Cofactor(m, 3, i).get
         == 0.0
  {
    MinorExplicit(m, 0, i);
    MinorExplicit(m, 1, i);
    MinorExplicit(m, 2, i);
    MinorExplicit(m, 3, i);
    ColumnCofactors02(m, Cofactor(m, 0, i).get, Cofactor(m, 1, i).get, Cofactor(m, 2, i).get, Cofactor(m, 3, i).get);
  }

  lemma ColumnExpansion03(m: Mat4, i: nat, j: nat)
    requires i == 0 && j == 3
    ensures m[0][j] * Cofactor(m, 0, i).get + m[1][j] * Cofactor(m, 1, i).get
          + m[2][j] * Cofactor(m, 2, i).get + m[3][j] * Cofactor(m, 3, i).get
         == 0.0
  {
    MinorExplicit(m, 0, i);
    MinorExplicit(m, 1, i);
    MinorExplicit(m, 2, i);
    MinorExplicit(m, 3, i);
    ColumnCofactors03(m, Cofactor(m, 0, i).get, Cofactor(m, 1, i).get, Cofactor(m, 2, i).get, Cofactor(m, 3, i).get);
  }

  lemma ColumnExpansion10(m: Mat4, i: nat, j: nat)
    requires i == 1 && j == 0
    ensures m[0][j] * Cofactor(m, 0, i).get + m[1][j] * Cofactor(m, 1, i).get
          + m[2][j] * Cofactor(m, 2, i).get + m[3][j] * Cofactor(m, 3, i).get
         == 0.0
  {
    MinorExplicit(m, 0, i);
    MinorExplicit(m, 1, i);
    MinorExplicit(m, 2, i);
    MinorExplicit(m, 3, i);
    ColumnCofactors10(m, Cofactor(m, 0, i).get, Cofactor(m, 1, i).get, Cofactor(m, 2, i).get, Cofactor(m, 3, i).get);
  }

  lemma ColumnExpansion11(m: Mat4, i: nat, j: nat)
    requires i == 1 && j == 1
    ensures m[0][j] * Cofactor(m, 0, i).get + m[1][j] * Cofactor(m, 1, i).get
          + m[2][j] * Cofactor(m, 2, i).get + m[3][j] * Cofactor(m, 3, i).get
         == Leibniz(m)
  {
    MinorExplicit(m, 0, i);
    MinorExplicit(m, 1, i);
    MinorExplicit(m, 2, i);
    MinorExplicit(m, 3, i);
    ColumnCofactors11(m, Cofactor(m, 0, i).get, Cofactor(m, 1, i).get, Cofactor(m, 2, i).get, Cofactor(m, 3, i).get);
  }

  lemma ColumnExpansion12(m: Mat4, i: nat, j: nat)
    requires i == 1 && j == 2
    ensures m[0][j] * Cofactor(m, 0, i).get + m[1][j] * Cofactor(m, 1, i).get
          + m[2][j] * Cofactor(m, 2, i).get + m[3][j] * Cofactor(m, 3, i).get
         == 0.0
  {
    MinorExplicit(m, 0, i);
    MinorExplicit(m, 1, i);
    MinorExplicit(m, 2, i);
    MinorExplicit(m, 3, i);
    ColumnCofactors12(m, Cofactor(m, 0, i).get, Cofactor(m, 1, i).get, Cofactor(m, 2, i).get, Cofactor(m, 3, i).get);
  }

  lemma ColumnExpansion13(m: Mat4, i: nat, j: nat)
    requires i == 1 && j == 3
    ensures m[0][j] * Cofactor(m, 0, i).get + m[1][j] * Cofactor(m, 1, i).get
          + m[2][j] * Cofactor(m, 2, i).get + m[3][j] * Cofactor(m, 3, i).get
         == 0.0
  {
    MinorExplicit(m, 0, i);
    MinorExplicit(m, 1, i);
    MinorExplicit(m, 2, i);
    MinorExplicit(m, 3, i);
    ColumnCofactors13(m, Cofactor(m, 0, i).get, Cofactor(m, 1, i).get, Cofactor(m, 2, i).get, Cofactor(m, 3, i).get);
  }

  lemma ColumnExpansion20(m: Mat4, i: nat, j: nat)
    requires i == 2 && j == 0
    ensures m[0][j] * Cofactor(m, 0, i).get + m[1][j] * Cofactor(m, 1, i).get
          + m[2][j] * Cofactor(m, 2, i).get + m[3][j] * Cofactor(m, 3, i).get
         == 0.0
  {
    MinorExplicit(m, 0, i);
    MinorExplicit(m, 1, i);
    MinorExplicit(m, 2, i);
    MinorExplicit(m, 3, i);
    ColumnCofactors20(m, Cofactor(m, 0, i).get, Cofactor(m, 1, i).get, Cofactor(m, 2, i).get, Cofactor(m, 3, i).get);
  }

  lemma ColumnExpansion21(m: Mat4, i: nat, j: nat)
    requires i == 2 && j == 1
    ensures m[0][j] * Cofactor(m, 0, i).get + m[1][j] * Cofactor(m, 1, i).get
          + m[2][j] * Cofactor(m, 2, i).get + m[3][j] * Cofactor(m, 3, i).get
         == 0.0
  {
    MinorExplicit(m, 0, i);
    MinorExplicit(m, 1, i);
    MinorExplicit(m, 2, i);
    MinorExplicit(m, 3, i);
    ColumnCofactors21(m, Cofactor(m, 0, i).get, Cofactor(m, 1, i).get, Cofactor(m, 2, i).get, Cofactor(m, 3, i).get);
  }

  lemma ColumnExpansion22(m: Mat4, i: nat, j: nat)
    requires i == 2 && j == 2
    ensures m[0][j] * Cofactor(m, 0, i).get + m[1][j] * Cofactor(m, 1, i).get
          + m[2][j] * Cofactor(m, 2, i).get + m[3][j] * Cofactor(m, 3, i).get
         == Leibniz(m)
  {
    MinorExplicit(m, 0, i);
    MinorExplicit(m, 1, i);
    MinorExplicit(m, 2, i);
    MinorExplicit(m, 3, i);
    ColumnCofactors22(m, Cofactor(m, 0, i).get, Cofactor(m, 1, i).get, Cofactor(m, 2, i).get, Cofactor(m, 3, i).get);
  }

  lemma ColumnExpansion23(m: Mat4, i: nat, j: nat)
    requires i == 2 && j == 3
    ensures m[0][j] * Cofactor(m, 0, i).get + m[1][j] * Cofactor(m, 1, i).get
          + m[2][j] * Cofactor(m, 2, i).get + m[3][j] * Cofactor(m, 3, i).get
         == 0.0
  {
    MinorExplicit(m, 0, i);
    MinorExplicit(m, 1, i);
    MinorExplicit(m, 2, i);
    MinorExplicit(m, 3, i);
    ColumnCofactors23(m, Cofactor(m, 0, i).get, Cofactor(m, 1, i).get, Cofactor(m, 2, i).get, Cofactor(m, 3, i).get);
  }

  lemma ColumnExpansion30(m: Mat4, i: nat, j: nat)
    requires i == 3 && j == 0
    ensures m[0][j] * Cofactor(m, 0, i).get + m[1][j] * Cofactor(m, 1, i).get
          + m[2][j] * Cofactor(m, 2, i).get + m[3][j] * Cofactor(m, 3, i).get
         == 0.0
  {
    MinorExplicit(m, 0, i);
    MinorExplicit(m, 1, i);
    MinorExplicit(m, 2, i);
    MinorExplicit(m, 3, i);
    ColumnCofactors30(m, Cofactor(m, 0, i).get, Cofactor(m, 1, i).get, Cofactor(m, 2, i).get, Cofactor(m, 3, i).get);
  }

  lemma ColumnExpansion31(m: Mat4, i: nat, j: nat)
    requires i == 3 && j == 1
    ensures m[0][j] * Cofactor(m, 0, i).get + m[1][j] * Cofactor(m, 1, i).get
          + m[2][j] * Cofactor(m, 2, i).get + m[3][j] * Cofactor(m, 3, i).get
         == 0.0
  {
    MinorExplicit(m, 0, i);
    MinorExplicit(m, 1, i);
    MinorExplicit(m, 2, i);
    MinorExplicit(m, 3, i);
    ColumnCofactors31(m, Cofactor(m, 0, i).get, Cofactor(m, 1, i).get, Cofactor(m, 2, i).get, Cofactor(m, 3, i).get);
  }

  lemma ColumnExpansion32(m: Mat4, i: nat, j: nat)
    requires i == 3 && j == 2
    ensures m[0][j] * Cofactor(m, 0, i).get + m[1][j] * Cofactor(m, 1, i).get
          + m[2][j] * Cofactor(m, 2, i).get + m[3][j] * Cofactor(m, 3, i).get
         == 0.0
  {
    MinorExplicit(m, 0, i);
    MinorExplicit(m, 1, i);
    MinorExplicit(m, 2, i);
    MinorExplicit(m, 3, i);
    ColumnCofactors32(m, Cofactor(m, 0, i).get, Cofactor(m, 1, i).get, Cofactor(m, 2, i).get, Cofactor(m, 3, i).get);
  }

  lemma ColumnExpansion33(m: Mat4, i: nat, j: nat)
    requires i == 3 && j == 3
    ensures m[0][j] * Cofactor(m, 0, i).get + m[1][j] * Cofactor(m, 1, i).get
          + m[2][j] * Cofactor(m, 2, i).get + m[3][j] * Cofactor(m, 3, i).get
         == Leibniz(m)
  {
    MinorExplicit(m, 0, i);
    MinorExplicit(m, 1, i);
    MinorExplicit(m, 2, i);
    MinorExplicit(m, 3, i);
    ColumnCofactors33(m, Cofactor(m, 0, i).get, Cofactor(m, 1, i).get, Cofactor(m, 2, i).get, Cofactor(m, 3, i).get);
  }

  /**
   * Laplace expansion along columns: column j weighted by the cofactors of column i sums to
   * the determinant when i = j and to zero otherwise.
   */
  lemma ColumnExpansion(m: Mat4, i: nat, j: nat)
    requires i < 4 && j < 4
    ensures m[0][j] * Cofactor(m, 0, i).get + m[1][j] * Cofactor(m, 1, i).get
          + m[2][j] * Cofactor(m, 2, i).get + m[3][j] * Cofactor(m, 3, i).get
         == if i == j then Leibniz(m) else 0.0
  {
    if i == 0 && j == 0 {
      ColumnExpansion00(m, i, j);
    } else if i == 0 && j == 1 {
      ColumnExpansion01(m, i, j);
    } else if i == 0 && j == 2 {
      ColumnExpansion02(m, i, j);
    } else if i == 0 && j == 3 {
      ColumnExpansion03(m, i, j);
    } else if i == 1 && j == 0 {
      ColumnExpansion10(m, i, j);
    } else if i == 1 && j == 1 {
      ColumnExpansion11(m, i, j);
    } else if i == 1 && j == 2 {
      ColumnExpansion12(m, i, j);
    } else if i == 1 && j == 3 {
      ColumnExpansion13(m, i, j);
    } else if i == 2 && j == 0 {
      ColumnExpansion20(m, i, j);
    } else if i == 2 && j == 1 {
      ColumnExpansion21(m, i, j);
    } else if i == 2 && j == 2 {
      ColumnExpansion22(m, i, j);
    } else if i == 2 && j == 3 {
      ColumnExpansion23(m, i, j);
    } else if i == 3 && j == 0 {
      ColumnExpansion30(m, i, j);
    } else if i == 3 && j == 1 {
      ColumnExpansion31(m, i, j);
    } else if i == 3 && j == 2 {
      ColumnExpansion32(m, i, j);
    } else {
      ColumnExpansion33(m, i, j);
    }
  }

  /** Striking row j and column i out of the transpose gives the transpose of striking row i and column j. */
  lemma SubmatrixTranspose(m: Mat4, i: nat, j: nat)
    requires i < 4 && j < 4
    ensures Submatrix(Matrix.Transpose(m), j, i) == Matrix.Transpose(Submatrix(m, i, j))
  {
    var t := Matrix.Transpose(m);
    SubmatrixStruckOut(m, i, j);
    SubmatrixStruckOut(t, j, i);
    var a := Submatrix(t, j, i);
    var b := Matrix.Transpose(Submatrix(m, i, j));
    forall x, y | 0 <= x < 3 && 0 <= y < 3
      ensures a[x][y] == b[x][y]
    {
      assert a[x][y] == t[Skip(x, j)][Skip(y, i)] == m[Skip(y, i)][Skip(x, j)];
      assert b[x][y] == Submatrix(m, i, j)[y][x];
    }
    Matrix3.Ext33(a, b);
  }

  /** Minor (j, i) of the transpose is minor (i, j) of `m`: the 3×3 determinant ignores the transpose. */
  lemma MinorTranspose(m: Mat4, i: nat, j: nat)
    requires i < 4 && j < 4
    ensures Minor(Matrix.Transpose(m), j, i) == Minor(m, i, j)
  {
    MinorIsDeterminant(m, i, j);
    MinorIsDeterminant(Matrix.Transpose(m), j, i);
    SubmatrixTranspose(m, i, j);
    Matrix3.DeterminantProperties(Submatrix(m, i, j));
  }

  /** Cofactor (j, i) of the transpose is cofactor (i, j) of `m`. */
  lemma CofactorTranspose(m: Mat4, i: nat, j: nat)
    requires i < 4 && j < 4
    ensures Cofactor(Matrix.Transpose(m), j, i).get == Cofactor(m, i, j).get
  {
    MinorTranspose(m, i, j);
    assert PowNegOne(j + i) == PowNegOne(i + j);
  }

  /**
   * Laplace expansion along rows: row j weighted by the cofactors of row i sums to the
   * determinant when i = j and to zero otherwise. It is the column expansion of the transpose.
   */
  lemma RowExpansion(m: Mat4, i: nat, j: nat)
    requires i < 4 && j < 4
    ensures m[j][0] * Cofactor(m, i, 0).get + m[j][1] * Cofactor(m, i, 1).get
          + m[j][2] * Cofactor(m, i, 2).get + m[j][3] * Cofactor(m, i, 3).get
         == if i == j then Leibniz(m) else 0.0
  {
    var t := Matrix.Transpose(m);
    RowIsColumnOfTranspose(m, t, i, j);
    ColumnExpansion(t, i, j);
    LeibnizTranspose(m);
  }

  /** Row j of `m` weighted by the cofactors of row i is column j of the transpose weighted by its column-i cofactors. */
  lemma RowIsColumnOfTranspose(m: Mat4, t: Mat4, i: nat, j: nat)
    requires i < 4 && j < 4 && t == Matrix.Transpose(m)
    ensures m[j][0] * Cofactor(m, i, 0).get + m[j][1] * Cofactor(m, i, 1).get
          + m[j][2] * Cofactor(m, i, 2).get + m[j][3] * Cofactor(m, i, 3).get
         == t[0][j] * Cofactor(t, 0, i).get + t[1][j] * Cofactor(t, 1, i).get
          + t[2][j] * Cofactor(t, 2, i).get + t[3][j] * Cofactor(t, 3, i).get
  {
    CofactorTranspose(m, i, 0);
    CofactorTranspose(m, i, 1);
    CofactorTranspose(m, i, 2);
    CofactorTranspose(m, i, 3);
    SameWeightedSum(t[0][j], t[1][j], t[2][j], t[3][j], m[j][0], m[j][1], m[j][2], m[j][3],
      Cofactor(t, 0, i).get, Cofactor(t, 1, i).get, Cofactor(t, 2, i).get, Cofactor(t, 3, i).get,
      Cofactor(m, i, 0).get, Cofactor(m, i, 1).get, Cofactor(m, i, 2).get, Cofactor(m, i, 3).get);
  }

  /** Transposing leaves the Leibniz determinant unchanged. */
  lemma LeibnizTranspose(m: Mat4)
    ensures Leibniz(Matrix.Transpose(m)) == Leibniz(m)
  {
    var t := Matrix.Transpose(m);
    assert t[0][0] == m[0][0] && t[0][1] == m[1][0] && t[0][2] == m[2][0] && t[0][3] == m[3][0];
    assert t[1][0] == m[0][1] && t[1][1] == m[1][1] && t[1][2] == m[2][1] && t[1][3] == m[3][1];
    assert t[2][0] == m[0][2] && t[2][1] == m[1][2] && t[2][2] == m[2][2] && t[2][3] == m[3][2];
    assert t[3][0] == m[0][3] && t[3][1] == m[1][3] && t[3][2] == m[2][3] && t[3][3] == m[3][3];
  }

  /** Two four-term weighted sums agree when their entries and weights agree pairwise. */
  lemma SameWeightedSum(x0: real, x1: real, x2: real, x3: real, y0: real, y1: real, y2: real, y3: real,
                        c0: real, c1: real, c2: real, c3: real, d0: real, d1: real, d2: real, d3: real)
    requires x0 == y0 && x1 == y1 && x2 == y2 && x3 == y3
    requires c0 == d0 && c1 == d1 && c2 == d2 && c3 == d3
    ensures x0 * c0 + x1 * c1 + x2 * c2 + x3 * c3 == y0 * d0 + y1 * d1 + y2 * d2 + y3 * d3
  {
  }

  /** The column expansion with the determinant on the right. */
  lemma ColumnExpansionDet(m: Mat4, i: nat, j: nat)
    requires i < 4 && j < 4
    ensures m[0][j] * Cofactor(m, 0, i).get + m[1][j] * Cofactor(m, 1, i).get
          + m[2][j] * Cofactor(m, 2, i).get + m[3][j] * Cofactor(m, 3, i).get
         == if i == j then Determinant(m) else 0.0
  {
    DeterminantIsLeibniz(m);
    ColumnExpansion(m, i, j);
  }

  /** The row expansion with the determinant on the right. */
  lemma RowExpansionDet(m: Mat4, i: nat, j: nat)
    requires i < 4 && j < 4
    ensures m[j][0] * Cofactor(m, i, 0).get + m[j][1] * Cofactor(m, i, 1).get
          + m[j][2] * Cofactor(m, i, 2).get + m[j][3] * Cofactor(m, i, 3).get
         == if i == j then Determinant(m) else 0.0
  {
    DeterminantIsLeibniz(m);
    RowExpansion(m, i, j);
  }

  /** `determinant`: from zero, `ret += self[i][0] * self.cofactor(i, 0)` for i in 0..4. */
  function Determinant(m: Mat4): real
  {
    Sum(seq(4, i requires 0 <= i < 4 => m[i][0] * Cofactor(m, i, 0).get))
  }

  /**
   * The column-0 expansion `determinant` computes is the Leibniz determinant; so it is
   * unchanged by the transpose, 1 on the identity and 0 on the zero matrix.
   */
  lemma DeterminantProperties(m: Mat4)
    ensures Determinant(m) == Leibniz(m)
    ensures Determinant(Matrix.Transpose(m)) == Determinant(m)
    ensures Determinant(Default()) == 1.0 && Determinant(Zero()) == 0.0
  {
    DeterminantIsLeibniz(m);
    DeterminantIsLeibniz(Matrix.Transpose(m));
    DeterminantIsLeibniz(Default());
    DeterminantIsLeibniz(Zero());
    LeibnizTranspose(m);
  }

  lemma DeterminantIsLeibniz(m: Mat4)
    ensures Determinant(m) == Leibniz(m)
  {
    Sum4(seq(4, i requires 0 <= i < 4 => m[i][0] * Cofactor(m, i, 0).get));
    ColumnExpansion(m, 0, 0);
  }

  /**
   * The loop of `inverse` that fills the adjugate, from scan position (a, b) on: it writes
   * `temp[b][a] = cofactor(a, b)` with `a` the outer and `b` the inner counter.
   */
  function AdjugateFill(m: Mat4, a: nat, b: nat, temp: Mat4): Mat4
    requires a <= 4 && b < 4 && (a == 4 ==> b == 0)
    decreases 4 - a, 4 - b
  {
    if a == 4 then temp
    else
      var next: Mat4 := temp[b := temp[b][a := Cofactor(m, a, b).get]];
      if b == 3 then AdjugateFill(m, a + 1, 0, next) else AdjugateFill(m, a, b + 1, next)
  }

  /** The adjugate `inverse` builds, starting from `Mat4::default()`. */
  function Adjugate(m: Mat4): Mat4
  {
    AdjugateFill(m, 0, 0, Default())
  }

  /** Once the fill has passed (x, y), entry [y][x] holds `cofactor(x, y)` and is not written again. */
  lemma {:induction false} AdjugateFillEntries(m: Mat4, a: nat, b: nat, temp: Mat4)
    requires a <= 4 && b < 4 && (a == 4 ==> b == 0)
    requires forall x, y :: 0 <= x < 4 && 0 <= y < 4 && 4 * x + y < 4 * a + b ==>
      temp[y][x] == Cofactor(m, x, y).get
    ensures forall x, y :: 0 <= x < 4 && 0 <= y < 4 ==>
      AdjugateFill(m, a, b, temp)[y][x] == Cofactor(m, x, y).get
    decreases 4 - a, 4 - b
  {
    if a < 4 {
      var next: Mat4 := temp[b := temp[b][a := Cofactor(m, a, b).get]];
      if b == 3 {
        AdjugateFillEntries(m, a + 1, 0, next);
      } else {
        AdjugateFillEntries(m, a, b + 1, next);
      }
    }
  }

  /** Entry [i][j] of a 4×4 product written out as its four terms. */
  lemma ProductEntry4(a: Mat4, b: Mat4, i: nat, j: nat)
    requires i < 4 && j < 4
    ensures Product(a, b)[i][j] == a[0][j] * b[i][0] + a[1][j] * b[i][1] + a[2][j] * b[i][2] + a[3][j] * b[i][3]
  {
    Sum4(Terms(a, b, i, j));
  }

  /** What an adjugate is: entry [j][i] is the cofactor of (i, j), the transposed cofactor matrix. */
  predicate IsAdjugateOf(adj: Mat4, m: Mat4)
  {
    forall i, j :: 0 <= i < 4 && 0 <= j < 4 ==> adj[j][i] == Cofactor(m, i, j).get
  }

  /** `adjugate` stores every cofactor at its transposed place. */
  lemma AdjugateIsAdjugate(m: Mat4)
    ensures IsAdjugateOf(Adjugate(m), m)
  {
    AdjugateFillEntries(m, 0, 0, Default());
  }

  /** Entry [j][i] of the adjugate is `cofactor(i, j)`. */
  lemma AdjugateEntry(m: Mat4, i: nat, j: nat)
    requires i < 4 && j < 4
    ensures Adjugate(m)[j][i] == Cofactor(m, i, j).get
  {
    AdjugateIsAdjugate(m);
  }

  /** Cofactors of column i placed in row i of `adj` weight column j of `m` to the determinant or to 0. */
  lemma CofactorColumnWeights(m: Mat4, adj: Mat4, i: nat, j: nat)
    requires i < 4 && j < 4
    requires adj[i][0] == Cofactor(m, 0, i).get && adj[i][1] == Cofactor(m, 1, i).get
    requires adj[i][2] == Cofactor(m, 2, i).get && adj[i][3] == Cofactor(m, 3, i).get
    ensures m[0][j] * adj[i][0] + m[1][j] * adj[i][1] + m[2][j] * adj[i][2] + m[3][j] * adj[i][3]
         == if i == j then Determinant(m) else 0.0
  {
    ColumnExpansionDet(m, i, j);
  }

  /** Cofactors of row j placed in column j of `adj` weight row i of `m` to the determinant or to 0. */
  lemma CofactorRowWeights(m: Mat4, adj: Mat4, i: nat, j: nat)
    requires i < 4 && j < 4
    requires adj[0][j] == Cofactor(m, j, 0).get && adj[1][j] == Cofactor(m, j, 1).get
    requires adj[2][j] == Cofactor(m, j, 2).get && adj[3][j] == Cofactor(m, j, 3).get
    ensures adj[0][j] * m[i][0] + adj[1][j] * m[i][1] + adj[2][j] * m[i][2] + adj[3][j] * m[i][3]
         == if i == j then Determinant(m) else 0.0
  {
    RowExpansionDet(m, j, i);
  }

  /** Entry [i][j] of `m * adj`, for an adjugate `adj` of `m`, is the determinant on the diagonal and 0 off it. */
  lemma AdjugateRightEntry(m: Mat4, adj: Mat4, i: nat, j: nat)
    requires i < 4 && j < 4 && IsAdjugateOf(adj, m)
    ensures Product(m, adj)[i][j] == if i == j then Determinant(m) else 0.0
  {
    ProductEntry4(m, adj, i, j);
    CofactorColumnWeights(m, adj, i, j);
  }

  /** Entry [i][j] of `adj * m`, for an adjugate `adj` of `m`, is the determinant on the diagonal and 0 off it. */
  lemma AdjugateLeftEntry(m: Mat4, adj: Mat4, i: nat, j: nat)
    requires i < 4 && j < 4 && IsAdjugateOf(adj, m)
    ensures Product(adj, m)[i][j] == if i == j then Determinant(m) else 0.0
  {
    ProductEntry4(adj, m, i, j);
    CofactorRowWeights(m, adj, i, j);
  }

  /** The adjugate identity: `m * adj(m) = adj(m) * m = det(m) I`, under the library's product. */
  lemma AdjugateProducts(m: Mat4)
    ensures Product(m, Adjugate(m)) == Matrix.Scale(Identity(4), Determinant(m))
    ensures Product(Adjugate(m), m) == Matrix.Scale(Identity(4), Determinant(m))
  {
    var adj := Adjugate(m);
    var dI := Matrix.Scale(Identity(4), Determinant(m));
    AdjugateIsAdjugate(m);
    forall i, j | 0 <= i < 4 && 0 <= j < 4
      ensures Product(m, adj)[i][j] == dI[i][j] && Product(adj, m)[i][j] == dI[i][j]
    {
      AdjugateRightEntry(m, adj, i, j);
      AdjugateLeftEntry(m, adj, i, j);
    }
    assert forall x | 0 <= x < 4 :: Product(m, adj)[x] == dI[x];
    assert forall x | 0 <= x < 4 :: Product(adj, m)[x] == dI[x];
  }

  /**
   * `inverse`: `None` exactly when the determinant is zero; otherwise the adjugate times the
   * reciprocal `1 / determinant`.
   */
  function Inverse(m: Mat4): (r: Option<Mat4>)
    ensures r.None? <==> Determinant(m) == 0.0
  {
    var d := Determinant(m);
    if d == 0.0 then None else Some(Matrix.Scale(Adjugate(m), 1.0 / d))
  }

  /** Entry [j][i] of the inverse is `cofactor(i, j) / determinant`. */
  lemma InverseEntries(m: Mat4, i: nat, j: nat)
    requires Inverse(m).Some? && i < 4 && j < 4
    ensures Inverse(m).value[j][i] == Cofactor(m, i, j).get / Determinant(m)
  {
    InverseIsScaledAdjugate(m);
    AdjugateEntry(m, i, j);
    Reciprocal(Determinant(m), Cofactor(m, i, j).get);
  }

  /** Four products each scaled by `q`: the sum scales by `q`, whichever side `q` multiplies. */
  lemma ScaledSum(a0: real, a1: real, a2: real, a3: real, b0: real, b1: real, b2: real, b3: real,
                  x0: real, x1: real, x2: real, x3: real, q: real, s: real)
    requires x0 == b0 * q && x1 == b1 * q && x2 == b2 * q && x3 == b3 * q
    requires s == a0 * b0 + a1 * b1 + a2 * b2 + a3 * b3
    ensures a0 * x0 + a1 * x1 + a2 * x2 + a3 * x3 == s * q
    ensures x0 * a0 + x1 * a1 + x2 * a2 + x3 * a3 == s * q
  {
  }

  /** Scaling the right factor scales the product: `a (b q) = (a b) q`. */
  lemma ProductScaleRight(a: Mat4, b: Mat4, q: real, i: nat, j: nat)
    requires i < 4 && j < 4
    ensures Product(a, Matrix.Scale(b, q))[i][j] == Product(a, b)[i][j] * q
  {
    var bq := Matrix.Scale(b, q);
    Sum4(Terms(a, bq, i, j));
    Sum4(Terms(a, b, i, j));
    ScaledSum(a[0][j], a[1][j], a[2][j], a[3][j], b[i][0], b[i][1], b[i][2], b[i][3],
              bq[i][0], bq[i][1], bq[i][2], bq[i][3], q, Product(a, b)[i][j]);
  }

  /** Scaling the left factor scales the product: `(a q) b = (a b) q`. */
  lemma ProductScaleLeft(a: Mat4, b: Mat4, q: real, i: nat, j: nat)
    requires i < 4 && j < 4
    ensures Product(Matrix.Scale(a, q), b)[i][j] == Product(a, b)[i][j] * q
  {
    var aq := Matrix.Scale(a, q);
    Sum4(Terms(aq, b, i, j));
    Sum4(Terms(a, b, i, j));
    ScaledSum(b[i][0], b[i][1], b[i][2], b[i][3], a[0][j], a[1][j], a[2][j], a[3][j],
              aq[0][j], aq[1][j], aq[2][j], aq[3][j], q, Product(a, b)[i][j]);
  }

  /** `x * (1 / x)` is 1 and `c * (1 / x)` is `c / x` for non-zero `x`. */
  lemma Reciprocal(x: real, c: real)
    requires x != 0.0
    ensures x * (1.0 / x) == 1.0 && c * (1.0 / x) == c / x
  {
  }

  /** The inverse is the adjugate scaled by the reciprocal of the determinant. */
  lemma InverseIsScaledAdjugate(m: Mat4)
    requires Inverse(m).Some?
    ensures Determinant(m) != 0.0
    ensures Inverse(m).value == Matrix.Scale(Adjugate(m), 1.0 / Determinant(m))
  {
  }

  /** Entry [i][j] of `m * inverse(m)` is 1 on the diagonal and 0 off it. */
  lemma InverseRightEntry(m: Mat4, i: nat, j: nat)
    requires Inverse(m).Some? && i < 4 && j < 4
    ensures Product(m, Inverse(m).value)[i][j] == if i == j then 1.0 else 0.0
  {
    InverseIsScaledAdjugate(m);
    ProductScaleRight(m, Adjugate(m), 1.0 / Determinant(m), i, j);
    AdjugateIsAdjugate(m);
    AdjugateRightEntry(m, Adjugate(m), i, j);
    Reciprocal(Determinant(m), 0.0);
  }

  /** Entry [i][j] of `inverse(m) * m` is 1 on the diagonal and 0 off it. */
  lemma InverseLeftEntry(m: Mat4, i: nat, j: nat)
    requires Inverse(m).Some? && i < 4 && j < 4
    ensures Product(Inverse(m).value, m)[i][j] == if i == j then 1.0 else 0.0
  {
    InverseIsScaledAdjugate(m);
    ProductScaleLeft(Adjugate(m), m, 1.0 / Determinant(m), i, j);
    AdjugateIsAdjugate(m);
    AdjugateLeftEntry(m, Adjugate(m), i, j);
    Reciprocal(Determinant(m), 0.0);
  }

  /** Whenever `inverse` returns a matrix, it is a two-sided inverse under the library's product. */
  lemma InverseIsTwoSided(m: Mat4)
    requires Inverse(m).Some?
    ensures Product(m, Inverse(m).value) == Identity(4)
    ensures Product(Inverse(m).value, m) == Identity(4)
  {
    var v := Inverse(m).value;
    forall i, j | 0 <= i < 4 && 0 <= j < 4
      ensures Product(m, v)[i][j] == Identity(4)[i][j] && Product(v, m)[i][j] == Identity(4)[i][j]
    {
      InverseRightEntry(m, i, j);
      InverseLeftEntry(m, i, j);
    }
    assert forall x | 0 <= x < 4 :: Product(m, v)[x] == Identity(4)[x];
    assert forall x | 0 <= x < 4 :: Product(v, m)[x] == Identity(4)[x];
  }

  /** The identity is invertible and is its own inverse. */
  lemma InverseOfIdentity()
    ensures Inverse(Identity(4)) == Some(Identity(4))
  {
    var m := Identity(4);
    DeterminantIsLeibniz(m);
    assert Determinant(m) == 1.0;
    var v := Inverse(m).value;
    InverseIsTwoSided(m);
    ProductIdentity(v);
  }

  /** `Mat4::default()` is invertible and is its own inverse. */
  lemma InverseOfDefault()
    ensures Inverse(Default()) == Some(Default())
  {
    ZeroAndDefault();
    InverseOfIdentity();
  }
}
