/**
 * `Euler` angles (src/euler.rs): yaw, pitch and roll (the field is called `row`), extracted
 * from a rotation matrix or a quaternion.
 *
 * Every extraction first computes the sine of the pitch, `sp`. Near `|sp| = 1` (gimbal lock)
 * roll is set to zero and yaw is taken from other entries. The `Float` parameter supplies
 * `asin`, `atan2` and `FRAC_PI_2`. No identity of them is assumed, except where a lemma says
 * so in its `requires` (`Atan2Doubling`).
 */
module EulerAngles {
  import opened Float
  import opened Matrix
  import Matrix3
  import Quaternions

  datatype Euler = Euler(yaw: real, pitch: real, row: real)

  /** `Euler::new`. */
  function New(yaw: real, pitch: real, row: real): (e: Euler)
    ensures e.yaw == yaw && e.pitch == pitch && e.row == row
  {
    Euler(yaw, pitch, row)
  }

  /** The pitch both matrix extractions take from its sine: `∓π/2` outside (-1, 1), `asin` inside. */
  function ClampedPitch(f: Float, sp: real): (p: real)
    ensures sp <= -1.0 ==> p == -f.fracPi2
    ensures sp >= 1.0 ==> p == f.fracPi2
    ensures -1.0 < sp < 1.0 ==> p == f.asin(sp)
  {
    if sp <= -1.0 then -f.fracPi2
    else if sp >= 1.0 then f.fracPi2
    else f.asin(sp)
  }

  /** The matrix extractions treat `|sp| > 0.9999` as gimbal lock. */
  predicate MatrixGimbal(sp: real)
  {
    Abs(sp) > 0.9999
  }

  // ----------------------------------------------------------------- from a matrix

  /** `From<Mat3>`: `sp = -m[1][2]`; in the normal case yaw is read from `m[1][2]` and `m[2][2]`. */
  function FromMat3(f: Float, m: Mat3): (e: Euler)
    ensures e.pitch == ClampedPitch(f, -m[1][2])
    ensures MatrixGimbal(-m[1][2]) ==> e.row == 0.0 && e.yaw == -f.atan2(m[2][1], m[1][1])
    ensures !MatrixGimbal(-m[1][2]) ==> e.row == f.atan2(m[1][0], m[1][1]) && e.yaw == f.atan2(m[1][2], m[2][2])
  {
    if MatrixGimbal(-m[1][2]) then
      Euler(-f.atan2(m[2][1], m[1][1]), ClampedPitch(f, -m[1][2]), 0.0)
    else
      Euler(f.atan2(m[1][2], m[2][2]), ClampedPitch(f, -m[1][2]), f.atan2(m[1][0], m[1][1]))
  }

  /** `From<Mat4>`: the same extraction, written out again over the 4×4 entries. */
  function FromMat4(f: Float, m: Mat4): (e: Euler)
    ensures e.pitch == ClampedPitch(f, -m[1][2])
    ensures MatrixGimbal(-m[1][2]) ==> e.row == 0.0 && e.yaw == -f.atan2(m[2][1], m[1][1])
    ensures !MatrixGimbal(-m[1][2]) ==> e.row == f.atan2(m[1][0], m[1][1]) && e.yaw == f.atan2(m[1][2], m[2][2])
  {
    if MatrixGimbal(-m[1][2]) then
      Euler(-f.atan2(m[2][1], m[1][1]), ClampedPitch(f, -m[1][2]), 0.0)
    else
      Euler(f.atan2(m[1][2], m[2][2]), ClampedPitch(f, -m[1][2]), f.atan2(m[1][0], m[1][1]))
  }

  /** The 4×4 extraction reads only the upper-left 3×3 block and agrees with the 3×3 one on it. */
  lemma FromMat4IsBlock(f: Float, m: Mat4)
    ensures FromMat4(f, m) == FromMat3(f, Block(m, 3))
  {
  }

  /** The 3×3 extraction depends only on the entries [1][0], [1][1], [1][2], [2][1] and [2][2]. */
  lemma FromMat3Reads(f: Float, a: Mat3, b: Mat3)
    requires a[1][0] == b[1][0] && a[1][1] == b[1][1] && a[1][2] == b[1][2]
    requires a[2][1] == b[2][1] && a[2][2] == b[2][2]
    ensures FromMat3(f, a) == FromMat3(f, b)
  {
  }

  /**
   * The written yaw ignores the heading: a rotation about the y axis has `[1][2] = 0`, so the
   * yaw of `rotation_y(a)` uses only `cos a`, and `a` and any angle with the same cosine
   * (such as `-a`) give the same Euler angles.
   */
  lemma FromMat3LosesHeading(f: Float, a: real, b: real)
    requires f.cos(a) == f.cos(b)
    ensures FromMat3(f, Matrix3.RotationY(f, a)) == FromMat3(f, Matrix3.RotationY(f, b))
    ensures FromMat3(f, Matrix3.RotationY(f, a)).yaw == f.atan2(0.0, f.cos(a))
  {
    FromMat3Reads(f, Matrix3.RotationY(f, a), Matrix3.RotationY(f, b));
  }

  /**
   * The written yaw picks up the pitch: for a rotation about the x axis away from gimbal lock,
   * yaw is `atan2(sin a, cos a)`, the pitch angle itself.
   */
  lemma FromMat3PitchInYaw(f: Float, a: real)
    requires Abs(f.sin(a)) <= 0.9999
    ensures FromMat3(f, Matrix3.RotationX(f, a)).yaw == f.atan2(f.sin(a), f.cos(a))
  {
  }

  /** The extraction with the yaw read from `[0][2]` and `[2][2]` in the normal case. */
  function FromMat3Intended(f: Float, m: Mat3): (e: Euler)
    ensures e.pitch == ClampedPitch(f, -m[1][2])
    ensures MatrixGimbal(-m[1][2]) ==> e.row == 0.0 && e.yaw == -f.atan2(m[2][1], m[1][1])
    ensures !MatrixGimbal(-m[1][2]) ==> e.row == f.atan2(m[1][0], m[1][1]) && e.yaw == f.atan2(m[0][2], m[2][2])
  {
    if MatrixGimbal(-m[1][2]) then
      Euler(-f.atan2(m[2][1], m[1][1]), ClampedPitch(f, -m[1][2]), 0.0)
    else
      Euler(f.atan2(m[0][2], m[2][2]), ClampedPitch(f, -m[1][2]), f.atan2(m[1][0], m[1][1]))
  }

  /** The corrected 4×4 extraction: the corrected 3×3 one on the upper-left block. */
  function FromMat4Intended(f: Float, m: Mat4): (e: Euler)
    ensures e == FromMat3Intended(f, Block(m, 3))
    ensures !MatrixGimbal(-m[1][2]) ==> e.yaw == f.atan2(m[0][2], m[2][2])
  {
    FromMat3Intended(f, Block(m, 3))
  }

  /**
   * With the corrected yaw each axis rotation moves only its own angle: `rotation_y(a)` only
   * the yaw and `rotation_z(a)` only the roll, both by `atan2(-sin a, cos a)`, the other two
   * angles staying those of the identity; `rotation_x(a)` away from gimbal lock gives yaw and
   * roll that see only `cos a`.
   */
  lemma IntendedSeparatesAxes(f: Float, a: real)
    ensures FromMat3Intended(f, Matrix3.RotationY(f, a)).yaw == f.atan2(-f.sin(a), f.cos(a))
    ensures FromMat3Intended(f, Matrix3.RotationY(f, a)).pitch == FromMat3Intended(f, Identity(3)).pitch
    ensures FromMat3Intended(f, Matrix3.RotationY(f, a)).row == FromMat3Intended(f, Identity(3)).row
    ensures FromMat3Intended(f, Matrix3.RotationZ(f, a)).row == f.atan2(-f.sin(a), f.cos(a))
    ensures FromMat3Intended(f, Matrix3.RotationZ(f, a)).pitch == FromMat3Intended(f, Identity(3)).pitch
    ensures FromMat3Intended(f, Matrix3.RotationZ(f, a)).yaw == FromMat3Intended(f, Identity(3)).yaw
    ensures Abs(f.sin(a)) <= 0.9999 ==>
      FromMat3Intended(f, Matrix3.RotationX(f, a)).yaw == f.atan2(0.0, f.cos(a)) &&
      FromMat3Intended(f, Matrix3.RotationX(f, a)).row == f.atan2(0.0, f.cos(a))
  {
    var i := Identity(3);
    assert i[1][2] == 0.0 && i[1][0] == 0.0 && i[1][1] == 1.0 && i[0][2] == 0.0 && i[2][2] == 1.0;
  }

  // ----------------------------------------------------------------- from a quaternion

  /** `sp = -2 (y z - w x)`. */
  function QuaternionSinPitch(q: Quaternions.Quaternion): real
  {
    -(1.0 + 1.0) * (q.v[1] * q.v[2] - q.w * q.v[0])
  }

  /** The quaternion extraction treats `|sp| > 0.99999` as gimbal lock. */
  predicate QuaternionGimbal(q: Quaternions.Quaternion)
  {
    Abs(QuaternionSinPitch(q)) > 0.99999
  }

  /** The atan2 arguments of the quaternion extraction (`powi(2)` is a square). */
  function LockedYawY(q: Quaternions.Quaternion): real { -q.v[0] * q.v[2] + q.w * q.v[1] }
  function LockedYawX(q: Quaternions.Quaternion): real { 0.5 - q.v[1] * q.v[1] - q.v[2] * q.v[2] }
  function YawY(q: Quaternions.Quaternion): real { q.v[0] * q.v[2] + q.w * q.v[1] }
  function YawX(q: Quaternions.Quaternion): real { 0.5 - q.v[0] * q.v[0] - q.v[1] * q.v[1] }
  function RowY(q: Quaternions.Quaternion): real { q.v[1] * q.v[0] + q.w * q.v[2] }
  function RowX(q: Quaternions.Quaternion): real { 0.5 - q.v[0] * q.v[0] - q.v[2] * q.v[2] }

  /** `From<Quaternion>`. */
  function FromQuaternion(f: Float, q: Quaternions.Quaternion): (e: Euler)
    ensures QuaternionGimbal(q) ==>
      e.row == 0.0 && e.pitch == f.fracPi2 * QuaternionSinPitch(q) && e.yaw == f.atan2(LockedYawY(q), LockedYawX(q))
    ensures !QuaternionGimbal(q) ==>
      e.pitch == f.asin(QuaternionSinPitch(q)) && e.yaw == f.atan2(YawY(q), YawX(q)) && e.row == f.atan2(RowY(q), RowX(q))
  {
    if QuaternionGimbal(q) then
      Euler(f.atan2(LockedYawY(q), LockedYawX(q)), f.fracPi2 * QuaternionSinPitch(q), 0.0)
    else
      Euler(f.atan2(YawY(q), YawX(q)), f.asin(QuaternionSinPitch(q)), f.atan2(RowY(q), RowX(q)))
  }

  /** `q` and `-q` are the same rotation and give the same Euler angles: every input is quadratic. */
  lemma FromQuaternionNeg(f: Float, q: Quaternions.Quaternion)
    ensures FromQuaternion(f, Quaternions.Neg(q)) == FromQuaternion(f, q)
  {
    var n := Quaternions.Neg(q);
    assert n.w == -q.w && n.v[0] == -q.v[0] && n.v[1] == -q.v[1] && n.v[2] == -q.v[2];
    assert QuaternionSinPitch(n) == QuaternionSinPitch(q);
    assert LockedYawY(n) == LockedYawY(q) && LockedYawX(n) == LockedYawX(q);
    assert YawY(n) == YawY(q) && YawX(n) == YawX(q);
    assert RowY(n) == RowY(q) && RowX(n) == RowX(q);
  }

  /** A two-argument arctangent that only sees the direction of `(x, y)`, here under doubling. */
  ghost predicate Atan2Doubling(f: Float)
  {
    forall y, x, y2, x2 {:trigger f.atan2(y2, x2), f.atan2(y, x)} ::
      y2 == 2.0 * y && x2 == 2.0 * x ==> f.atan2(y2, x2) == f.atan2(y, x)
  }

  /** The entries of the rotation matrix of the conjugate that the extraction reads, as quaternion terms. */
  lemma ConjugateMatrixEntries(q: Quaternions.Quaternion)
    ensures -Quaternions.RotationPart(Quaternions.Conjugate(q))[1][2] == QuaternionSinPitch(q)
    ensures Quaternions.RotationPart(Quaternions.Conjugate(q))[0][2] == 2.0 * YawY(q)
    ensures Quaternions.RotationPart(Quaternions.Conjugate(q))[2][2] == 2.0 * YawX(q)
    ensures Quaternions.RotationPart(Quaternions.Conjugate(q))[1][0] == 2.0 * RowY(q)
    ensures Quaternions.RotationPart(Quaternions.Conjugate(q))[1][1] == 2.0 * RowX(q)
  {
    var c := Quaternions.Conjugate(q);
    var w, x, y, z := q.w, q.v[0], q.v[1], q.v[2];
    assert c.w == w && c.v[0] == -x && c.v[1] == -y && c.v[2] == -z;
    Quaternions.Rotation3Entries(Quaternions.RotationPart(c), w, -x, -y, -z);
  }

  /**
   * Away from gimbal lock the corrected matrix extraction and the quaternion extraction agree:
   * the quaternion formulas are those of the matrix of the conjugate, every atan2 argument
   * doubled. (Neither needs a unit quaternion.)
   */
  lemma IntendedMatchesQuaternion(f: Float, q: Quaternions.Quaternion)
    requires Atan2Doubling(f)
    requires Abs(QuaternionSinPitch(q)) <= 0.9999
    ensures FromMat3Intended(f, Quaternions.RotationPart(Quaternions.Conjugate(q))) == FromQuaternion(f, q)
  {
    var m := Quaternions.RotationPart(Quaternions.Conjugate(q));
    ConjugateMatrixEntries(q);
    assert !MatrixGimbal(-m[1][2]);
    assert f.atan2(m[0][2], m[2][2]) == f.atan2(YawY(q), YawX(q));
    assert f.atan2(m[1][0], m[1][1]) == f.atan2(RowY(q), RowX(q));
  }

  /** The same agreement for `into_mat4` of the conjugate, through its 3×3 block. */
  lemma IntendedMatchesIntoMat4(f: Float, q: Quaternions.Quaternion)
    requires Atan2Doubling(f)
    requires Abs(QuaternionSinPitch(q)) <= 0.9999
    ensures FromMat4Intended(f, Quaternions.IntoMat4(Quaternions.Conjugate(q))) == FromQuaternion(f, q)
  {
    Quaternions.IntoMat4Padding(Quaternions.Conjugate(q));
    IntendedMatchesQuaternion(f, q);
  }
}
