/**
 * `Quaternion` (src/quaternions/mod.rs): a scalar part `w` and a vector part `v`, with the
 * Hamilton product, conjugate, dot product, negation, scalar product, `displacement_from`,
 * `pow`, `slerp` and the rotation matrix `into_mat4`.
 *
 * `pow` and `slerp` call the transcendental functions of the `Float` parameter; no
 * trigonometric identity is assumed, so what is proved about them is which branch runs and
 * what that branch does with the values the functions return.
 */
module Quaternions {
  import opened Core
  import opened Sums
  import opened Float
  import Vectors
  import Vector3
  import opened Matrix
  import Matrix3

  datatype Quaternion = Quaternion(w: real, v: Vectors.Vec3)

  /** The quaternion `(1, 0)`: the rotation by angle zero. */
  function One(): (q: Quaternion)
  {
    Quaternion(1.0, [0.0, 0.0, 0.0])
  }

  /** `conjugate`: the same scalar part, the vector part negated. */
  function Conjugate(self: Quaternion): (r: Quaternion)
  {
    Quaternion(self.w, Vectors.Neg(self.v))
  }

  /** `dot`: the four-component sum of products. */
  function Dot(self: Quaternion, other: Quaternion): (r: real)
  {
    self.w * other.w + Vector3.Dot(self.v, other.v)
  }

  /** `Mul<Quaternion>`: `(w1 w2 - v1·v2, w1 v2 + w2 v1 + v1 × v2)`. */
  function Mul(self: Quaternion, other: Quaternion): (r: Quaternion)
  {
    Quaternion(self.w * other.w - Vector3.Dot(self.v, other.v),
               Vectors.Add(Vectors.Add(Vectors.ScaleLeft(self.w, other.v), Vectors.ScaleLeft(other.w, self.v)),
                           Vector3.Cross(self.v, other.v)))
  }

  /** `Mul<f32>`: both parts scaled. */
  function MulScalar(self: Quaternion, other: real): (r: Quaternion)
  {
    Quaternion(self.w * other, Vectors.Scale(self.v, other))
  }

  /** `Neg`: both parts negated. */
  function Neg(self: Quaternion): (r: Quaternion)
  {
    Quaternion(-self.w, Vectors.Neg(self.v))
  }

  /** `displacement_from(other)`: `other * self.conjugate()`. */
  function DisplacementFrom(self: Quaternion, other: Quaternion): (r: Quaternion)
  {
    Mul(other, Conjugate(self))
  }

  // ----------------------------------------------------------------- the product in components

  /** Scalar part of the product of `(a0, a1, a2, a3)` and `(b0, b1, b2, b3)`, in the order the Rust code adds the terms. */
  function HW(a0: real, a1: real, a2: real, a3: real, b0: real, b1: real, b2: real, b3: real): real
  {
    a0 * b0 - (a1 * b1 + a2 * b2 + a3 * b3)
  }

  function HX(a0: real, a1: real, a2: real, a3: real, b0: real, b1: real, b2: real, b3: real): real
  {
    b1 * a0 + a1 * b0 + (a2 * b3 - a3 * b2)
  }

  function HY(a0: real, a1: real, a2: real, a3: real, b0: real, b1: real, b2: real, b3: real): real
  {
    b2 * a0 + a2 * b0 + -(a1 * b3 - a3 * b1)
  }

  function HZ(a0: real, a1: real, a2: real, a3: real, b0: real, b1: real, b2: real, b3: real): real
  {
    b3 * a0 + a3 * b0 + (a1 * b2 - a2 * b1)
  }

  /** The vector part of the product before the cross product is added: `w1 v2 + w2 v1`. */
  function MixedPart(a: Quaternion, b: Quaternion): (r: Vectors.Vec3)
  {
    Vectors.Add(Vectors.ScaleLeft(a.w, b.v), Vectors.ScaleLeft(b.w, a.v))
  }

  lemma MixedComponents(a: Quaternion, b: Quaternion)
    ensures MixedPart(a, b)[0] == b.v[0] * a.w + a.v[0] * b.w
    ensures MixedPart(a, b)[1] == b.v[1] * a.w + a.v[1] * b.w
    ensures MixedPart(a, b)[2] == b.v[2] * a.w + a.v[2] * b.w
  {
  }

  /** The vector part of the product is `w1 v2 + w2 v1` plus the cross product. */
  lemma MulVectorPart(a: Quaternion, b: Quaternion)
    ensures Mul(a, b).v == Vectors.Add(MixedPart(a, b), Vector3.Cross(a.v, b.v))
  {
  }

  /** Adding a cross product, component by component. */
  lemma AddCross(m: Vectors.Vec3, a: Vectors.Vec3, b: Vectors.Vec3)
    ensures Vectors.Add(m, Vector3.Cross(a, b))[0] == m[0] + (a[1] * b[2] - a[2] * b[1])
    ensures Vectors.Add(m, Vector3.Cross(a, b))[1] == m[1] + -(a[0] * b[2] - a[2] * b[0])
    ensures Vectors.Add(m, Vector3.Cross(a, b))[2] == m[2] + (a[0] * b[1] - a[1] * b[0])
  {
  }

  /** The product's four components, one polynomial each. */
  lemma MulComponents(a: Quaternion, b: Quaternion)
    ensures Mul(a, b) == Quaternion(HW(a.w, a.v[0], a.v[1], a.v[2], b.w, b.v[0], b.v[1], b.v[2]),
                                    [HX(a.w, a.v[0], a.v[1], a.v[2], b.w, b.v[0], b.v[1], b.v[2]),
                                     HY(a.w, a.v[0], a.v[1], a.v[2], b.w, b.v[0], b.v[1], b.v[2]),
                                     HZ(a.w, a.v[0], a.v[1], a.v[2], b.w, b.v[0], b.v[1], b.v[2])])
  {
    MixedComponents(a, b);
    MulVectorPart(a, b);
    AddCross(MixedPart(a, b), a.v, b.v);
    Matrix3.Ext3(Mul(a, b).v, [HX(a.w, a.v[0], a.v[1], a.v[2], b.w, b.v[0], b.v[1], b.v[2]),
                               HY(a.w, a.v[0], a.v[1], a.v[2], b.w, b.v[0], b.v[1], b.v[2]),
                               HZ(a.w, a.v[0], a.v[1], a.v[2], b.w, b.v[0], b.v[1], b.v[2])]);
  }


  /** Components of `(a b) c` and `a (b c)` agree: one polynomial identity per component. */
  lemma AssociativeW(a0: real, a1: real, a2: real, a3: real, b0: real, b1: real, b2: real, b3: real,
                     c0: real, c1: real, c2: real, c3: real)
    ensures HW(HW(a0, a1, a2, a3, b0, b1, b2, b3), HX(a0, a1, a2, a3, b0, b1, b2, b3),
               HY(a0, a1, a2, a3, b0, b1, b2, b3), HZ(a0, a1, a2, a3, b0, b1, b2, b3), c0, c1, c2, c3)
         == HW(a0, a1, a2, a3, HW(b0, b1, b2, b3, c0, c1, c2, c3), HX(b0, b1, b2, b3, c0, c1, c2, c3),
               HY(b0, b1, b2, b3, c0, c1, c2, c3), HZ(b0, b1, b2, b3, c0, c1, c2, c3))
  {
  }

  lemma AssociativeX(a0: real, a1: real, a2: real, a3: real, b0: real, b1: real, b2: real, b3: real,
                     c0: real, c1: real, c2: real, c3: real)
    ensures HX(HW(a0, a1, a2, a3, b0, b1, b2, b3), HX(a0, a1, a2, a3, b0, b1, b2, b3),
               HY(a0, a1, a2, a3, b0, b1, b2, b3), HZ(a0, a1, a2, a3, b0, b1, b2, b3), c0, c1, c2, c3)
         == HX(a0, a1, a2, a3, HW(b0, b1, b2, b3, c0, c1, c2, c3), HX(b0, b1, b2, b3, c0, c1, c2, c3),
               HY(b0, b1, b2, b3, c0, c1, c2, c3), HZ(b0, b1, b2, b3, c0, c1, c2, c3))
  {
  }

  lemma AssociativeY(a0: real, a1: real, a2: real, a3: real, b0: real, b1: real, b2: real, b3: real,
                     c0: real, c1: real, c2: real, c3: real)
    ensures HY(HW(a0, a1, a2, a3, b0, b1, b2, b3), HX(a0, a1, a2, a3, b0, b1, b2, b3),
               HY(a0, a1, a2, a3, b0, b1, b2, b3), HZ(a0, a1, a2, a3, b0, b1, b2, b3), c0, c1, c2, c3)
         == HY(a0, a1, a2, a3, HW(b0, b1, b2, b3, c0, c1, c2, c3), HX(b0, b1, b2, b3, c0, c1, c2, c3),
               HY(b0, b1, b2, b3, c0, c1, c2, c3), HZ(b0, b1, b2, b3, c0, c1, c2, c3))
  {
  }

  lemma AssociativeZ(a0: real, a1: real, a2: real, a3: real, b0: real, b1: real, b2: real, b3: real,
                     c0: real, c1: real, c2: real, c3: real)
    ensures HZ(HW(a0, a1, a2, a3, b0, b1, b2, b3), HX(a0, a1, a2, a3, b0, b1, b2, b3),
               HY(a0, a1, a2, a3, b0, b1, b2, b3), HZ(a0, a1, a2, a3, b0, b1, b2, b3), c0, c1, c2, c3)
         == HZ(a0, a1, a2, a3, HW(b0, b1, b2, b3, c0, c1, c2, c3), HX(b0, b1, b2, b3, c0, c1, c2, c3),
               HY(b0, b1, b2, b3, c0, c1, c2, c3), HZ(b0, b1, b2, b3, c0, c1, c2, c3))
  {
  }

  /** The Hamilton product is associative. */
  lemma MulAssociative(a: Quaternion, b: Quaternion, c: Quaternion)
    ensures Mul(Mul(a, b), c) == Mul(a, Mul(b, c))
  {
    MulComponents(a, b);
    MulComponents(Mul(a, b), c);
    MulComponents(b, c);
    MulComponents(a, Mul(b, c));
    AssociativeW(a.w, a.v[0], a.v[1], a.v[2], b.w, b.v[0], b.v[1], b.v[2], c.w, c.v[0], c.v[1], c.v[2]);
    AssociativeX(a.w, a.v[0], a.v[1], a.v[2], b.w, b.v[0], b.v[1], b.v[2], c.w, c.v[0], c.v[1], c.v[2]);
    AssociativeY(a.w, a.v[0], a.v[1], a.v[2], b.w, b.v[0], b.v[1], b.v[2], c.w, c.v[0], c.v[1], c.v[2]);
    AssociativeZ(a.w, a.v[0], a.v[1], a.v[2], b.w, b.v[0], b.v[1], b.v[2], c.w, c.v[0], c.v[1], c.v[2]);
  }

  /** `(1, 0)` is a two-sided unit of the product. */
  lemma MulOne(q: Quaternion)
    ensures Mul(One(), q) == q && Mul(q, One()) == q
  {
    MulComponents(One(), q);
    MulComponents(q, One());
    assert q.v == [q.v[0], q.v[1], q.v[2]];
  }

  /** `q` times its conjugate, either way round, is `(q·q, 0)`: a real number. */
  lemma MulConjugate(q: Quaternion)
    ensures Mul(q, Conjugate(q)) == Quaternion(Dot(q, q), [0.0, 0.0, 0.0])
    ensures Mul(Conjugate(q), q) == Quaternion(Dot(q, q), [0.0, 0.0, 0.0])
  {
    var w, x, y, z := q.w, q.v[0], q.v[1], q.v[2];
    assert Conjugate(q) == Quaternion(w, [-x, -y, -z]);
    MulComponents(q, Conjugate(q));
    MulComponents(Conjugate(q), q);
    ConjugateProducts(w, x, y, z);
  }

  /** The components of `q q*` and `q* q`. */
  lemma ConjugateProducts(w: real, x: real, y: real, z: real)
    ensures HW(w, x, y, z, w, -x, -y, -z) == w * w + (x * x + y * y + z * z)
    ensures HW(w, -x, -y, -z, w, x, y, z) == w * w + (x * x + y * y + z * z)
    ensures HX(w, x, y, z, w, -x, -y, -z) == 0.0 && HX(w, -x, -y, -z, w, x, y, z) == 0.0
    ensures HY(w, x, y, z, w, -x, -y, -z) == 0.0 && HY(w, -x, -y, -z, w, x, y, z) == 0.0
    ensures HZ(w, x, y, z, w, -x, -y, -z) == 0.0 && HZ(w, -x, -y, -z, w, x, y, z) == 0.0
  {
  }

  /** Conjugating twice gives the quaternion back; conjugation keeps `w` and negates `v`. */
  lemma ConjugateInvolution(q: Quaternion)
    ensures Conjugate(Conjugate(q)) == q
    ensures Conjugate(q).w == q.w && Vectors.Add(Conjugate(q).v, q.v) == [0.0, 0.0, 0.0]
  {
    Vectors.NegInvolution(q.v);
    Matrix3.Ext3(Vectors.Add(Conjugate(q).v, q.v), [0.0, 0.0, 0.0]);
  }

  /** The conjugate of a product is the product of the conjugates in the opposite order. */
  lemma ConjugateOfProduct(a: Quaternion, b: Quaternion)
    ensures Conjugate(Mul(a, b)) == Mul(Conjugate(b), Conjugate(a))
  {
    assert Conjugate(a) == Quaternion(a.w, [-a.v[0], -a.v[1], -a.v[2]]);
    assert Conjugate(b) == Quaternion(b.w, [-b.v[0], -b.v[1], -b.v[2]]);
    MulComponents(a, b);
    MulComponents(Conjugate(b), Conjugate(a));
    ReversedConjugates(a.w, a.v[0], a.v[1], a.v[2], b.w, b.v[0], b.v[1], b.v[2]);
    Matrix3.Ext3(Conjugate(Mul(a, b)).v, Mul(Conjugate(b), Conjugate(a)).v);
  }

  /** The components of `b* a*` against those of `a b`. */
  lemma ReversedConjugates(a0: real, a1: real, a2: real, a3: real, b0: real, b1: real, b2: real, b3: real)
    ensures HW(b0, -b1, -b2, -b3, a0, -a1, -a2, -a3) == HW(a0, a1, a2, a3, b0, b1, b2, b3)
    ensures HX(b0, -b1, -b2, -b3, a0, -a1, -a2, -a3) == -HX(a0, a1, a2, a3, b0, b1, b2, b3)
    ensures HY(b0, -b1, -b2, -b3, a0, -a1, -a2, -a3) == -HY(a0, a1, a2, a3, b0, b1, b2, b3)
    ensures HZ(b0, -b1, -b2, -b3, a0, -a1, -a2, -a3) == -HZ(a0, a1, a2, a3, b0, b1, b2, b3)
  {
  }

  /** `dot` is symmetric and `q·q` is never negative. */
  lemma DotProperties(a: Quaternion, b: Quaternion)
    ensures Dot(a, b) == Dot(b, a)
    ensures 0.0 <= Dot(a, a)
    ensures Dot(Neg(a), b) == -Dot(a, b)
  {
    Vector3.DotSymmetric(a.v, b.v);
    assert 0.0 <= a.w * a.w && 0.0 <= a.v[0] * a.v[0] && 0.0 <= a.v[1] * a.v[1] && 0.0 <= a.v[2] * a.v[2];
    assert Neg(a).v == [-a.v[0], -a.v[1], -a.v[2]];
  }

  /** Negation is the scalar product by -1, and scalar products compose. */
  lemma NegAndMulScalar(q: Quaternion, k: real, l: real)
    ensures Neg(q) == MulScalar(q, -1.0)
    ensures MulScalar(MulScalar(q, k), l) == MulScalar(q, k * l)
    ensures MulScalar(q, 1.0) == q
  {
    Matrix3.Ext3(Neg(q).v, MulScalar(q, -1.0).v);
    Matrix3.Ext3(MulScalar(MulScalar(q, k), l).v, MulScalar(q, k * l).v);
    Matrix3.Ext3(MulScalar(q, 1.0).v, q.v);
  }

  /**
   * `displacement_from` is the rotation that carries `self` to `other`: for a unit `self`,
   * multiplying the displacement by `self` gives `other` back.
   */
  lemma DisplacementCarries(self: Quaternion, other: Quaternion)
    requires Dot(self, self) == 1.0
    ensures Mul(DisplacementFrom(self, other), self) == other
  {
    MulAssociative(other, Conjugate(self), self);
    MulConjugate(self);
    MulOne(other);
  }

  // ----------------------------------------------------------------- pow and slerp

  /** The divisor `pow` uses: `sin(acos(w))`. It must be non-zero whenever that branch runs. */
  predicate PowDefined(f: Float, self: Quaternion)
  {
    Abs(self.w) > 0.99999 || f.sin(f.acos(self.w)) != 0.0
  }

  /** The half-angle `pow` rotates by: `acos(w) * exp`. */
  function PowAngle(f: Float, w: real, exp: real): real
  {
    f.acos(w) * exp
  }

  /** The factor `pow` scales the vector part by: `sin(acos(w) * exp) / sin(acos(w))`. */
  function PowFactor(f: Float, w: real, exp: real): real
    requires f.sin(f.acos(w)) != 0.0
  {
    f.sin(PowAngle(f, w, exp)) / f.sin(f.acos(w))
  }

  /**
   * `pow(exp)`: `self` unchanged when `|w| > 0.99999`; otherwise angle `acos(w) * exp`, and the
   * vector part scaled by `sin(angle) / sin(acos(w))`.
   */
  function Pow(f: Float, self: Quaternion, exp: real): (r: Quaternion)
    requires PowDefined(f, self)
  {
    if Abs(self.w) > 0.99999 then self
    else
      Quaternion(f.cos(PowAngle(f, self.w, exp)),
                 [self.v[0] * PowFactor(f, self.w, exp), self.v[1] * PowFactor(f, self.w, exp),
                  self.v[2] * PowFactor(f, self.w, exp)])
  }

  /**
   * `pow` returns a quaternion that is exactly `self` near the identity, and in every case keeps
   * the rotation axis: its vector part is parallel to `self.v`.
   */
  lemma PowKeepsAxis(f: Float, self: Quaternion, exp: real)
    requires PowDefined(f, self)
    ensures Abs(self.w) > 0.99999 ==> Pow(f, self, exp) == self
    ensures Vector3.Cross(Pow(f, self, exp).v, self.v) == [0.0, 0.0, 0.0]
  {
    if Abs(self.w) > 0.99999 {
      Vector3.CrossProperties(self.v, self.v);
    } else {
      PowBranch(f, self, exp);
      ParallelCross(self.v, PowFactor(f, self.w, exp));
    }
  }

  /** Away from the identity, `pow` scales the vector part by `PowFactor`. */
  lemma PowBranch(f: Float, self: Quaternion, exp: real)
    requires PowDefined(f, self) && Abs(self.w) <= 0.99999
    ensures Pow(f, self, exp).v == Vectors.Scale(self.v, PowFactor(f, self.w, exp))
  {
    Matrix3.Ext3(Pow(f, self, exp).v, Vectors.Scale(self.v, PowFactor(f, self.w, exp)));
  }

  /** A scaled vector is parallel to the original. */
  lemma ParallelCross(v: Vectors.Vec3, k: real)
    ensures Vector3.Cross(Vectors.Scale(v, k), v) == [0.0, 0.0, 0.0]
  {
    var c := Vector3.Cross(Vectors.Scale(v, k), v);
    var x, y, z := v[0], v[1], v[2];
    assert c[0] == (y * k) * z - (z * k) * y == 0.0;
    assert c[1] == -((x * k) * z - (z * k) * x) == 0.0;
    assert c[2] == (x * k) * y - (y * k) * x == 0.0;
    Matrix3.Ext3(c, [0.0, 0.0, 0.0]);
  }

  /** The identity raised to any power is the identity. */
  lemma PowOne(f: Float, exp: real)
    ensures PowDefined(f, One()) && Pow(f, One(), exp) == One()
  {
  }

  /** The cosine `slerp` works with: `|self·other|`, after `other` is negated when the dot is negative. */
  function SlerpCos(self: Quaternion, other: Quaternion): (c: real)
    ensures 0.0 <= c && (c == Dot(self, other) || c == -Dot(self, other))
  {
    Abs(Dot(self, other))
  }

  /** The trigonometric branch of `slerp` divides by `sqrt(1 - c²)`; it must be non-zero there. */
  predicate SlerpDefined(f: Float, self: Quaternion, other: Quaternion)
  {
    WeightsDefined(f, SlerpCos(self, other))
  }

  predicate WeightsDefined(f: Float, c: real)
  {
    c > 0.9999 || f.sqrt(1.0 - c * c) != 0.0
  }

  /** With a lawful square root the division in `slerp` is never by zero. */
  lemma SlerpDefinedWhenLawful(f: Float, self: Quaternion, other: Quaternion)
    requires Lawful(f)
    ensures SlerpDefined(f, self, other)
  {
    var c := SlerpCos(self, other);
    if c <= 0.9999 {
      assert c * c <= 0.9999 * c;
      SqrtZero(f, 1.0 - c * c);
    }
  }

  /** The weight of `self` in `slerp` for cosine `c`. */
  function SlerpWeight0(f: Float, c: real, t: real): real
    requires WeightsDefined(f, c)
  {
    if c > 0.9999 then 1.0 - t
    else f.sin((1.0 - t) * f.atan2(f.sqrt(1.0 - c * c), c)) * (1.0 / f.sqrt(1.0 - c * c))
  }

  /** The weight of `other` (or of its negation) in `slerp` for cosine `c`. */
  function SlerpWeight1(f: Float, c: real, t: real): real
    requires WeightsDefined(f, c)
  {
    if c > 0.9999 then t
    else f.sin(t * f.atan2(f.sqrt(1.0 - c * c), c)) * (1.0 / f.sqrt(1.0 - c * c))
  }

  /** The end point `slerp` heads for: `other`, or `-other` when `self·other < 0`. */
  function SlerpTarget(self: Quaternion, other: Quaternion): (r: Quaternion)
  {
    if Dot(self, other) < 0.0 then Neg(other) else other
  }

  /** `q k0 + p k1`, componentwise, as `slerp` assembles its result. */
  function Blend(q: Quaternion, p: Quaternion, k0: real, k1: real): (r: Quaternion)
  {
    Quaternion(q.w * k0 + p.w * k1,
               [q.v[0] * k0 + p.v[0] * k1, q.v[1] * k0 + p.v[1] * k1, q.v[2] * k0 + p.v[2] * k1])
  }

  /**
   * `slerp(other, t)`: `other` is negated when `self·other < 0`; weights `1 - t` and `t` when the
   * cosine exceeds 0.9999, else `sin((1 - t) ω) / sin ω` and `sin(t ω) / sin ω` with
   * `ω = atan2(sqrt(1 - c²), c)`.
   */
  function Slerp(f: Float, self: Quaternion, other: Quaternion, t: real): (r: Quaternion)
    requires SlerpDefined(f, self, other)
  {
    Blend(self, SlerpTarget(self, other),
          SlerpWeight0(f, SlerpCos(self, other), t), SlerpWeight1(f, SlerpCos(self, other), t))
  }

  /** `q + (p - q) t` componentwise: the straight-line blend of the linear branch. */
  function Lerp(q: Quaternion, p: Quaternion, t: real): (r: Quaternion)
  {
    Quaternion(q.w * (1.0 - t) + p.w * t,
               [q.v[0] * (1.0 - t) + p.v[0] * t, q.v[1] * (1.0 - t) + p.v[1] * t, q.v[2] * (1.0 - t) + p.v[2] * t])
  }

  /**
   * When the cosine exceeds 0.9999, `slerp` is the straight-line blend towards `other`, or
   * towards `-other` when the dot product is negative; at `t = 0` it is `self`.
   */
  lemma SlerpNearlyParallel(f: Float, self: Quaternion, other: Quaternion, t: real)
    requires SlerpCos(self, other) > 0.9999
    ensures SlerpDefined(f, self, other)
    ensures Dot(self, other) >= 0.0 ==> Slerp(f, self, other, t) == Lerp(self, other, t)
    ensures Dot(self, other) < 0.0 ==> Slerp(f, self, other, t) == Lerp(self, Neg(other), t)
    ensures Slerp(f, self, other, 0.0) == self
  {
    Matrix3.Ext3(Slerp(f, self, other, 0.0).v, self.v);
    if Dot(self, other) < 0.0 {
      Matrix3.Ext3(Slerp(f, self, other, t).v, Lerp(self, Neg(other), t).v);
    } else {
      Matrix3.Ext3(Slerp(f, self, other, t).v, Lerp(self, other, t).v);
    }
  }

  /** Interpolating a unit quaternion with itself gives it back, for every `t`. */
  lemma SlerpSame(f: Float, q: Quaternion, t: real)
    requires Dot(q, q) == 1.0
    ensures SlerpDefined(f, q, q) && Slerp(f, q, q, t) == q
  {
    assert SlerpCos(q, q) == 1.0;
    Matrix3.Ext3(Slerp(f, q, q, t).v, q.v);
  }

  /**
   * `q` and `-q` are the same rotation and `slerp` treats them alike: with a non-zero dot
   * product, interpolating towards `other` or towards `-other` gives the same quaternion.
   */
  lemma SlerpAntipodal(f: Float, self: Quaternion, other: Quaternion, t: real)
    requires Dot(self, other) != 0.0 && SlerpDefined(f, self, other)
    ensures SlerpDefined(f, self, Neg(other))
    ensures Slerp(f, self, other, t) == Slerp(f, self, Neg(other), t)
  {
    Vectors.NegInvolution(other.v);
    assert Neg(Neg(other)) == other;
    DotProperties(other, self);
    DotProperties(self, other);
    DotProperties(self, Neg(other));
    assert SlerpCos(self, other) == SlerpCos(self, Neg(other));
    assert SlerpTarget(self, other) == SlerpTarget(self, Neg(other));
  }

  // ----------------------------------------------------------------- the rotation matrix

  /** `into_mat4`: the quadratic rotation formula, padded with a last row and column of `(0, 0, 0, 1)`. */
  function IntoMat4(self: Quaternion): (m: Mat4)
  {
    RotationMatrix(self.w, self.v[0], self.v[1], self.v[2])
  }

  /** The matrix `into_mat4` builds from the components `w, x, y, z`. */
  function RotationMatrix(w: real, x: real, y: real, z: real): (m: Mat4)
  {
    [[1.0 - 2.0 * (y * y) - 2.0 * (z * z), 2.0 * x * y + 2.0 * w * z, 2.0 * x * z - 2.0 * w * y, 0.0],
     [2.0 * x * y - 2.0 * w * z, 1.0 - 2.0 * (x * x) - 2.0 * (z * z), 2.0 * y * z + 2.0 * w * x, 0.0],
     [2.0 * x * z + 2.0 * w * y, 2.0 * y * z - 2.0 * w * x, 1.0 - 2.0 * (x * x) - 2.0 * (y * y), 0.0],
     [0.0, 0.0, 0.0, 1.0]]
  }

  /** The upper-left 3×3 of `into_mat4`, on its own. */
  function RotationPart(self: Quaternion): (m: Mat3)
  {
    Rotation3(self.w, self.v[0], self.v[1], self.v[2])
  }

  function Rotation3(w: real, x: real, y: real, z: real): (m: Mat3)
  {
    [[1.0 - 2.0 * (y * y) - 2.0 * (z * z), 2.0 * x * y + 2.0 * w * z, 2.0 * x * z - 2.0 * w * y],
     [2.0 * x * y - 2.0 * w * z, 1.0 - 2.0 * (x * x) - 2.0 * (z * z), 2.0 * y * z + 2.0 * w * x],
     [2.0 * x * z + 2.0 * w * y, 2.0 * y * z - 2.0 * w * x, 1.0 - 2.0 * (x * x) - 2.0 * (y * y)]]
  }

  /** `into_mat4` is the 3×3 rotation part padded to 4×4 with `(0, 0, 0, 1)`. */
  lemma IntoMat4Padding(q: Quaternion)
    ensures IntoMat4(q) == Embed(RotationPart(q), 4)
  {
    var m, e := IntoMat4(q), Embed(RotationPart(q), 4);
    forall i | 0 <= i < 4
      ensures m[i] == e[i]
    {
      assert m[i][0] == e[i][0] && m[i][1] == e[i][1] && m[i][2] == e[i][2] && m[i][3] == e[i][3];
      assert e[i] == [e[i][0], e[i][1], e[i][2], e[i][3]];
    }
  }

  /** Every entry is quadratic in the components, so `q` and `-q` give the same matrix. */
  lemma IntoMat4Neg(q: Quaternion)
    ensures IntoMat4(Neg(q)) == IntoMat4(q)
  {
    assert Neg(q).v == [-q.v[0], -q.v[1], -q.v[2]];
    RotationMatrixEven(q.w, q.v[0], q.v[1], q.v[2]);
  }

  lemma RotationMatrixEven(w: real, x: real, y: real, z: real)
    ensures RotationMatrix(-w, -x, -y, -z) == RotationMatrix(w, x, y, z)
  {
    assert (-x) * (-x) == x * x && (-y) * (-y) == y * y && (-z) * (-z) == z * z;
    assert 2.0 * (-x) * (-y) == 2.0 * x * y && 2.0 * (-x) * (-z) == 2.0 * x * z;
    assert 2.0 * (-y) * (-z) == 2.0 * y * z && 2.0 * (-w) * (-x) == 2.0 * w * x;
    assert 2.0 * (-w) * (-y) == 2.0 * w * y && 2.0 * (-w) * (-z) == 2.0 * w * z;
  }

  /** `(1, 0)` gives the identity. */
  lemma IntoMat4One()
    ensures IntoMat4(One()) == Identity(4)
  {
    var m := IntoMat4(One());
    assert forall i | 0 <= i < 4 :: m[i] == Identity(4)[i];
  }

  /** The conjugate quaternion, the inverse rotation, gives the transposed matrix. */
  lemma RotationPartConjugate(q: Quaternion)
    ensures RotationPart(Conjugate(q)) == Matrix.Transpose(RotationPart(q))
  {
    assert Conjugate(q).v == [-q.v[0], -q.v[1], -q.v[2]];
    Rotation3Transposed(q.w, q.v[0], q.v[1], q.v[2]);
  }

  lemma Rotation3Transposed(w: real, x: real, y: real, z: real)
    ensures Rotation3(w, -x, -y, -z) == Matrix.Transpose(Rotation3(w, x, y, z))
  {
    assert (-x) * (-x) == x * x && (-y) * (-y) == y * y && (-z) * (-z) == z * z;
    assert 2.0 * (-x) * (-y) == 2.0 * x * y && 2.0 * (-x) * (-z) == 2.0 * x * z && 2.0 * (-y) * (-z) == 2.0 * y * z;
    assert 2.0 * w * (-x) == -(2.0 * w * x) && 2.0 * w * (-y) == -(2.0 * w * y) && 2.0 * w * (-z) == -(2.0 * w * z);
    Matrix3.Ext33(Rotation3(w, -x, -y, -z), Matrix.Transpose(Rotation3(w, x, y, z)));
  }

  /*
   * Orthonormality of the rotation part for a unit quaternion, one polynomial identity per pair
   * of columns: with `n = w² + x² + y² + z²`, each dot product equals its value plus a multiple
   * of `1 - n`. Column k of the matrix is passed as `a0, a1, a2` (or `b0, b1, b2`).
   */

  lemma Column0Unit(w: real, x: real, y: real, z: real, a0: real, a1: real, a2: real)
    requires w * w + (x * x + y * y + z * z) == 1.0
    requires a0 == 1.0 - 2.0 * (y * y) - 2.0 * (z * z) && a1 == 2.0 * x * y - 2.0 * w * z
    requires a2 == 2.0 * x * z + 2.0 * w * y
    ensures a0 * a0 + a1 * a1 + a2 * a2 == 1.0
  {
    assert a0 * a0 + a1 * a1 + a2 * a2 == 1.0 - 4.0 * (y * y + z * z) * (1.0 - (w * w + (x * x + y * y + z * z)));
  }

  lemma Column1Unit(w: real, x: real, y: real, z: real, a0: real, a1: real, a2: real)
    requires w * w + (x * x + y * y + z * z) == 1.0
    requires a0 == 2.0 * x * y + 2.0 * w * z && a1 == 1.0 - 2.0 * (x * x) - 2.0 * (z * z)
    requires a2 == 2.0 * y * z - 2.0 * w * x
    ensures a0 * a0 + a1 * a1 + a2 * a2 == 1.0
  {
    assert a0 * a0 + a1 * a1 + a2 * a2 == 1.0 - 4.0 * (x * x + z * z) * (1.0 - (w * w + (x * x + y * y + z * z)));
  }

  lemma Column2Unit(w: real, x: real, y: real, z: real, a0: real, a1: real, a2: real)
    requires w * w + (x * x + y * y + z * z) == 1.0
    requires a0 == 2.0 * x * z - 2.0 * w * y && a1 == 2.0 * y * z + 2.0 * w * x
    requires a2 == 1.0 - 2.0 * (x * x) - 2.0 * (y * y)
    ensures a0 * a0 + a1 * a1 + a2 * a2 == 1.0
  {
    assert a0 * a0 + a1 * a1 + a2 * a2 == 1.0 - 4.0 * (x * x + y * y) * (1.0 - (w * w + (x * x + y * y + z * z)));
  }

  lemma Columns01(w: real, x: real, y: real, z: real, a0: real, a1: real, a2: real, b0: real, b1: real, b2: real)
    requires w * w + (x * x + y * y + z * z) == 1.0
    requires a0 == 1.0 - 2.0 * (y * y) - 2.0 * (z * z) && a1 == 2.0 * x * y - 2.0 * w * z
    requires a2 == 2.0 * x * z + 2.0 * w * y
    requires b0 == 2.0 * x * y + 2.0 * w * z && b1 == 1.0 - 2.0 * (x * x) - 2.0 * (z * z)
    requires b2 == 2.0 * y * z - 2.0 * w * x
    ensures a0 * b0 + a1 * b1 + a2 * b2 == 0.0 && b0 * a0 + b1 * a1 + b2 * a2 == 0.0
  {
    assert a0 * b0 + a1 * b1 + a2 * b2 == 4.0 * x * y * (1.0 - (w * w + (x * x + y * y + z * z)));
  }

  lemma Columns02(w: real, x: real, y: real, z: real, a0: real, a1: real, a2: real, b0: real, b1: real, b2: real)
    requires w * w + (x * x + y * y + z * z) == 1.0
    requires a0 == 1.0 - 2.0 * (y * y) - 2.0 * (z * z) && a1 == 2.0 * x * y - 2.0 * w * z
    requires a2 == 2.0 * x * z + 2.0 * w * y
    requires b0 == 2.0 * x * z - 2.0 * w * y && b1 == 2.0 * y * z + 2.0 * w * x
    requires b2 == 1.0 - 2.0 * (x * x) - 2.0 * (y * y)
    ensures a0 * b0 + a1 * b1 + a2 * b2 == 0.0 && b0 * a0 + b1 * a1 + b2 * a2 == 0.0
  {
    assert a0 * b0 + a1 * b1 + a2 * b2 == 4.0 * x * z * (1.0 - (w * w + (x * x + y * y + z * z)));
  }

  lemma Columns12(w: real, x: real, y: real, z: real, a0: real, a1: real, a2: real, b0: real, b1: real, b2: real)
    requires w * w + (x * x + y * y + z * z) == 1.0
    requires a0 == 2.0 * x * y + 2.0 * w * z && a1 == 1.0 - 2.0 * (x * x) - 2.0 * (z * z)
    requires a2 == 2.0 * y * z - 2.0 * w * x
    requires b0 == 2.0 * x * z - 2.0 * w * y && b1 == 2.0 * y * z + 2.0 * w * x
    requires b2 == 1.0 - 2.0 * (x * x) - 2.0 * (y * y)
    ensures a0 * b0 + a1 * b1 + a2 * b2 == 0.0 && b0 * a0 + b1 * a1 + b2 * a2 == 0.0
  {
    assert a0 * b0 + a1 * b1 + a2 * b2 == 4.0 * y * z * (1.0 - (w * w + (x * x + y * y + z * z)));
  }

  /** The dot product of columns i and j of `m`. */
  function ColumnDot(m: Mat3, i: nat, j: nat): real
    requires i < 3 && j < 3
  {
    Sum([m[0][j] * m[0][i], m[1][j] * m[1][i], m[2][j] * m[2][i]])
  }

  lemma ColumnDotExplicit(m: Mat3, i: nat, j: nat)
    requires i < 3 && j < 3
    ensures ColumnDot(m, i, j) == m[0][j] * m[0][i] + m[1][j] * m[1][i] + m[2][j] * m[2][i]
  {
    Sum3([m[0][j] * m[0][i], m[1][j] * m[1][i], m[2][j] * m[2][i]]);
  }

  /** Columns i and j of `m` have dot product 1 when i = j and 0 otherwise. */
  predicate OrthonormalColumns(m: Mat3)
  {
    forall i, j :: 0 <= i < 3 && 0 <= j < 3 ==> ColumnDot(m, i, j) == if i == j then 1.0 else 0.0
  }

  /** Entry [i][j] of `m mᵀ` is the dot product of columns i and j. */
  lemma GramEntry(m: Mat3, i: nat, j: nat)
    requires i < 3 && j < 3 && OrthonormalColumns(m)
    ensures Product(m, Matrix.Transpose(m))[i][j] == if i == j then 1.0 else 0.0
  {
    var t := Matrix.Transpose(m);
    assert t[i][0] == m[0][i] && t[i][1] == m[1][i] && t[i][2] == m[2][i];
    Matrix3.ProductEntry3(m, t, i, j);
    ColumnDotExplicit(m, i, j);
    assert Product(m, t)[i][j] == m[0][j] * m[0][i] + m[1][j] * m[1][i] + m[2][j] * m[2][i];
  }

  /** A matrix with orthonormal columns has `m mᵀ = I`. */
  lemma GramIdentity(m: Mat3)
    requires OrthonormalColumns(m)
    ensures Product(m, Matrix.Transpose(m)) == Identity(3)
  {
    var p := Product(m, Matrix.Transpose(m));
    forall i, j | 0 <= i < 3 && 0 <= j < 3
      ensures p[i][j] == Identity(3)[i][j]
    {
      GramEntry(m, i, j);
    }
    assert forall x | 0 <= x < 3 :: p[x] == Identity(3)[x];
  }

  /** The nine column dot products, one by one, give `OrthonormalColumns`. */
  lemma OrthonormalFromCells(m: Mat3)
    requires ColumnDot(m, 0, 0) == 1.0
    requires ColumnDot(m, 0, 1) == 0.0
    requires ColumnDot(m, 0, 2) == 0.0
    requires ColumnDot(m, 1, 0) == 0.0
    requires ColumnDot(m, 1, 1) == 1.0
    requires ColumnDot(m, 1, 2) == 0.0
    requires ColumnDot(m, 2, 0) == 0.0
    requires ColumnDot(m, 2, 1) == 0.0
    requires ColumnDot(m, 2, 2) == 1.0
    ensures OrthonormalColumns(m)
  {
    forall i, j | 0 <= i < 3 && 0 <= j < 3
      ensures ColumnDot(m, i, j) == if i == j then 1.0 else 0.0
    {
      if i == 0 {
        if j == 0 {
        } else if j == 1 {
        } else {
          assert j == 2;
        }
      } else if i == 1 {
        if j == 0 {
        } else if j == 1 {
        } else {
          assert j == 2;
        }
      } else {
        assert i == 2;
        if j == 0 {
        } else if j == 1 {
        } else {
          assert j == 2;
        }
      }
    }
  }

  /*
   * One lemma per pair of columns: a matrix whose columns carry the rotation formula's entries,
   * for a unit `(w, x, y, z)`, has the column dot products of an orthonormal matrix.
   */

  lemma FormulaColumn0(m: Mat3, w: real, x: real, y: real, z: real)
    requires w * w + (x * x + y * y + z * z) == 1.0
    requires m[0][0] == 1.0 - 2.0 * (y * y) - 2.0 * (z * z)
    requires m[1][0] == 2.0 * x * y - 2.0 * w * z
    requires m[2][0] == 2.0 * x * z + 2.0 * w * y
    ensures ColumnDot(m, 0, 0) == 1.0
  {
    Column0Unit(w, x, y, z, m[0][0], m[1][0], m[2][0]);
    ColumnDotExplicit(m, 0, 0);
  }

  lemma FormulaColumn1(m: Mat3, w: real, x: real, y: real, z: real)
    requires w * w + (x * x + y * y + z * z) == 1.0
    requires m[0][1] == 2.0 * x * y + 2.0 * w * z
    requires m[1][1] == 1.0 - 2.0 * (x * x) - 2.0 * (z * z)
    requires m[2][1] == 2.0 * y * z - 2.0 * w * x
    ensures ColumnDot(m, 1, 1) == 1.0
  {
    Column1Unit(w, x, y, z, m[0][1], m[1][1], m[2][1]);
    ColumnDotExplicit(m, 1, 1);
  }

  lemma FormulaColumn2(m: Mat3, w: real, x: real, y: real, z: real)
    requires w * w + (x * x + y * y + z * z) == 1.0
    requires m[0][2] == 2.0 * x * z - 2.0 * w * y
    requires m[1][2] == 2.0 * y * z + 2.0 * w * x
    requires m[2][2] == 1.0 - 2.0 * (x * x) - 2.0 * (y * y)
    ensures ColumnDot(m, 2, 2) == 1.0
  {
    Column2Unit(w, x, y, z, m[0][2], m[1][2], m[2][2]);
    ColumnDotExplicit(m, 2, 2);
  }

  lemma FormulaColumns01(m: Mat3, w: real, x: real, y: real, z: real)
    requires w * w + (x * x + y * y + z * z) == 1.0
    requires m[0][0] == 1.0 - 2.0 * (y * y) - 2.0 * (z * z)
    requires m[1][0] == 2.0 * x * y - 2.0 * w * z
    requires m[2][0] == 2.0 * x * z + 2.0 * w * y
    requires m[0][1] == 2.0 * x * y + 2.0 * w * z
    requires m[1][1] == 1.0 - 2.0 * (x * x) - 2.0 * (z * z)
    requires m[2][1] == 2.0 * y * z - 2.0 * w * x
    ensures ColumnDot(m, 0, 1) == 0.0 && ColumnDot(m, 1, 0) == 0.0
  {
    Columns01(w, x, y, z, m[0][0], m[1][0], m[2][0], m[0][1], m[1][1], m[2][1]);
    ColumnDotExplicit(m, 0, 1);
    ColumnDotExplicit(m, 1, 0);
  }

  lemma FormulaColumns02(m: Mat3, w: real, x: real, y: real, z: real)
    requires w * w + (x * x + y * y + z * z) == 1.0
    requires m[0][0] == 1.0 - 2.0 * (y * y) - 2.0 * (z * z)
    requires m[1][0] == 2.0 * x * y - 2.0 * w * z
    requires m[2][0] == 2.0 * x * z + 2.0 * w * y
    requires m[0][2] == 2.0 * x * z - 2.0 * w * y
    requires m[1][2] == 2.0 * y * z + 2.0 * w * x
    requires m[2][2] == 1.0 - 2.0 * (x * x) - 2.0 * (y * y)
    ensures ColumnDot(m, 0, 2) == 0.0 && ColumnDot(m, 2, 0) == 0.0
  {
    Columns02(w, x, y, z, m[0][0], m[1][0], m[2][0], m[0][2], m[1][2], m[2][2]);
    ColumnDotExplicit(m, 0, 2);
    ColumnDotExplicit(m, 2, 0);
  }

  lemma FormulaColumns12(m: Mat3, w: real, x: real, y: real, z: real)
    requires w * w + (x * x + y * y + z * z) == 1.0
    requires m[0][1] == 2.0 * x * y + 2.0 * w * z
    requires m[1][1] == 1.0 - 2.0 * (x * x) - 2.0 * (z * z)
    requires m[2][1] == 2.0 * y * z - 2.0 * w * x
    requires m[0][2] == 2.0 * x * z - 2.0 * w * y
    requires m[1][2] == 2.0 * y * z + 2.0 * w * x
    requires m[2][2] == 1.0 - 2.0 * (x * x) - 2.0 * (y * y)
    ensures ColumnDot(m, 1, 2) == 0.0 && ColumnDot(m, 2, 1) == 0.0
  {
    Columns12(w, x, y, z, m[0][1], m[1][1], m[2][1], m[0][2], m[1][2], m[2][2]);
    ColumnDotExplicit(m, 1, 2);
    ColumnDotExplicit(m, 2, 1);
  }

  /** A matrix carrying the rotation formula's entries for a unit `(w, x, y, z)` has orthonormal columns. */
  lemma FormulaOrthonormal(m: Mat3, w: real, x: real, y: real, z: real)
    requires w * w + (x * x + y * y + z * z) == 1.0
    requires m[0][0] == 1.0 - 2.0 * (y * y) - 2.0 * (z * z)
    requires m[0][1] == 2.0 * x * y + 2.0 * w * z
    requires m[0][2] == 2.0 * x * z - 2.0 * w * y
    requires m[1][0] == 2.0 * x * y - 2.0 * w * z
    requires m[1][1] == 1.0 - 2.0 * (x * x) - 2.0 * (z * z)
    requires m[1][2] == 2.0 * y * z + 2.0 * w * x
    requires m[2][0] == 2.0 * x * z + 2.0 * w * y
    requires m[2][1] == 2.0 * y * z - 2.0 * w * x
    requires m[2][2] == 1.0 - 2.0 * (x * x) - 2.0 * (y * y)
    ensures OrthonormalColumns(m)
  {
    FormulaColumn0(m, w, x, y, z);
    FormulaColumn1(m, w, x, y, z);
    FormulaColumn2(m, w, x, y, z);
    FormulaColumns01(m, w, x, y, z);
    FormulaColumns02(m, w, x, y, z);
    FormulaColumns12(m, w, x, y, z);
    OrthonormalFromCells(m);
  }

  /** ... and so `m mᵀ` is the identity. */
  lemma FormulaGram(m: Mat3, w: real, x: real, y: real, z: real)
    requires w * w + (x * x + y * y + z * z) == 1.0
    requires m[0][0] == 1.0 - 2.0 * (y * y) - 2.0 * (z * z)
    requires m[0][1] == 2.0 * x * y + 2.0 * w * z
    requires m[0][2] == 2.0 * x * z - 2.0 * w * y
    requires m[1][0] == 2.0 * x * y - 2.0 * w * z
    requires m[1][1] == 1.0 - 2.0 * (x * x) - 2.0 * (z * z)
    requires m[1][2] == 2.0 * y * z + 2.0 * w * x
    requires m[2][0] == 2.0 * x * z + 2.0 * w * y
    requires m[2][1] == 2.0 * y * z - 2.0 * w * x
    requires m[2][2] == 1.0 - 2.0 * (x * x) - 2.0 * (y * y)
    ensures Product(m, Matrix.Transpose(m)) == Identity(3)
  {
    FormulaOrthonormal(m, w, x, y, z);
    GramIdentity(m);
  }

  /** For a unit quaternion the columns of the rotation part are orthonormal: `R Rᵀ` is the identity. */
  lemma ColumnsOrthonormal(q: Quaternion)
    requires Dot(q, q) == 1.0
    ensures Product(RotationPart(q), Matrix.Transpose(RotationPart(q))) == Identity(3)
  {
    Rotation3Entries(RotationPart(q), q.w, q.v[0], q.v[1], q.v[2]);
    FormulaGram(RotationPart(q), q.w, q.v[0], q.v[1], q.v[2]);
  }

  /** The entries of `Rotation3(w, x, y, z)`, one fact each. */
  lemma Rotation3Entries(m: Mat3, w: real, x: real, y: real, z: real)
    requires m == Rotation3(w, x, y, z)
    ensures m[0][0] == 1.0 - 2.0 * (y * y) - 2.0 * (z * z)
    ensures m[0][1] == 2.0 * x * y + 2.0 * w * z
    ensures m[0][2] == 2.0 * x * z - 2.0 * w * y
    ensures m[1][0] == 2.0 * x * y - 2.0 * w * z
    ensures m[1][1] == 1.0 - 2.0 * (x * x) - 2.0 * (z * z)
    ensures m[1][2] == 2.0 * y * z + 2.0 * w * x
    ensures m[2][0] == 2.0 * x * z + 2.0 * w * y
    ensures m[2][1] == 2.0 * y * z - 2.0 * w * x
    ensures m[2][2] == 1.0 - 2.0 * (x * x) - 2.0 * (y * y)
  {
  }

  /** ... and so are its rows: `Rᵀ R` is the identity, which is `R Rᵀ` for the conjugate. */
  lemma RowsOrthonormal(q: Quaternion)
    requires Dot(q, q) == 1.0
    ensures Product(Matrix.Transpose(RotationPart(q)), RotationPart(q)) == Identity(3)
  {
    RotationPartConjugate(q);
    assert Dot(Conjugate(q), Conjugate(q)) == Dot(q, q) by {
      assert Conjugate(q).v == [-q.v[0], -q.v[1], -q.v[2]];
    }
    ColumnsOrthonormal(Conjugate(q));
    TransposeInvolution(RotationPart(q));
  }
}
