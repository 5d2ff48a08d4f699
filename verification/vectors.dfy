/**
 * The operators every vector type gets from the `impl_vec_ops!` macro (src/vectors/macros.rs).
 *
 * A vector is the sequence of its fields in declaration order: index 0, 1, 2, 3 are
 * `x`, `y`, `z`, `w`, which is also the mapping the macro gives `Index`. The macro writes each
 * operator as one struct literal with an entry per field; `Zip` and `Map` build that literal
 * field by field.
 */
module Vectors {
  import opened Core

  type Vec2 = v: seq<real> | |v| == 2 witness [0.0, 0.0]
  type Vec3 = v: seq<real> | |v| == 3 witness [0.0, 0.0, 0.0]
  type Vec4 = v: seq<real> | |v| == 4 witness [0.0, 0.0, 0.0, 0.0]

  /** One field per field of the operands, combined by `op`. */
  function Zip(a: seq<real>, b: seq<real>, op: (real, real) -> real): (r: seq<real>)
    requires |a| == |b|
    ensures |r| == |a|
    ensures forall i :: 0 <= i < |a| ==> r[i] == op(a[i], b[i])
  {
    if |a| == 0 then [] else [op(a[0], b[0])] + Zip(a[1..], b[1..], op)
  }

  /** One field per field of the operand, transformed by `op`. */
  function Map(a: seq<real>, op: real -> real): (r: seq<real>)
    ensures |r| == |a|
    ensures forall i :: 0 <= i < |a| ==> r[i] == op(a[i])
  {
    if |a| == 0 then [] else [op(a[0])] + Map(a[1..], op)
  }

  // ----------------------------------------------------------------- binary operators

  /** `Add<VecN>`. */
  function Add(a: seq<real>, b: seq<real>): (r: seq<real>)
    requires |a| == |b|
    ensures |r| == |a| && forall i :: 0 <= i < |a| ==> r[i] == a[i] + b[i]
  {
    Zip(a, b, (x, y) => x + y)
  }

  /** `Sub<VecN>`. */
  function Sub(a: seq<real>, b: seq<real>): (r: seq<real>)
    requires |a| == |b|
    ensures |r| == |a| && forall i :: 0 <= i < |a| ==> r[i] == a[i] - b[i]
  {
    Zip(a, b, (x, y) => x - y)
  }

  /** `Mul<VecN>`: the componentwise (Hadamard) product. */
  function Mul(a: seq<real>, b: seq<real>): (r: seq<real>)
    requires |a| == |b|
    ensures |r| == |a| && forall i :: 0 <= i < |a| ==> r[i] == a[i] * b[i]
  {
    Zip(a, b, (x, y) => x * y)
  }

  /** `Mul<f32> for VecN`: `v * k`. */
  function Scale(a: seq<real>, k: real): (r: seq<real>)
    ensures |r| == |a| && forall i :: 0 <= i < |a| ==> r[i] == a[i] * k
  {
    Map(a, x => x * k)
  }

  /** `Mul<VecN> for f32`: `k * v`, whose fields the Rust code computes as `other.field * self`. */
  function ScaleLeft(k: real, a: seq<real>): (r: seq<real>)
    ensures |r| == |a| && forall i :: 0 <= i < |a| ==> r[i] == a[i] * k
  {
    Map(a, x => x * k)
  }

  /** `Div<f32>`. A zero divisor (an `f32` infinity or NaN) is excluded. */
  function Div(a: seq<real>, k: real): (r: seq<real>)
    requires k != 0.0
    ensures |r| == |a| && forall i :: 0 <= i < |a| ==> r[i] * k == a[i]
  {
    Map(a, x => x / k)
  }

  /** `Neg`. */
  function Neg(a: seq<real>): (r: seq<real>)
    ensures |r| == |a| && forall i :: 0 <= i < |a| ==> r[i] == -a[i]
  {
    Map(a, x => -x)
  }

  // ----------------------------------------------------------------- assigning operators
  // Each `*Assign` rebuilds `*self` from its own struct literal; these are those literals.

  function AddAssign(self: seq<real>, other: seq<real>): (r: seq<real>)
    requires |self| == |other|
  {
    Zip(self, other, (x, y) => x + y)
  }

  function SubAssign(self: seq<real>, other: seq<real>): (r: seq<real>)
    requires |self| == |other|
  {
    Zip(self, other, (x, y) => x - y)
  }

  function MulAssign(self: seq<real>, other: seq<real>): (r: seq<real>)
    requires |self| == |other|
  {
    Zip(self, other, (x, y) => x * y)
  }

  function MulAssignScalar(self: seq<real>, k: real): (r: seq<real>)
  {
    Map(self, x => x * k)
  }

  function DivAssign(self: seq<real>, k: real): (r: seq<real>)
    requires k != 0.0
  {
    Map(self, x => x / k)
  }

  /** Every assigning operator leaves `self` equal to its binary operator's result. */
  lemma AssignMatchesBinary(a: seq<real>, b: seq<real>, k: real)
    requires |a| == |b|
    ensures AddAssign(a, b) == Add(a, b)
    ensures SubAssign(a, b) == Sub(a, b)
    ensures MulAssign(a, b) == Mul(a, b)
    ensures MulAssignScalar(a, k) == Scale(a, k)
    ensures k != 0.0 ==> DivAssign(a, k) == Div(a, k)
  {
  }

  // ----------------------------------------------------------------- algebra

  /** Subtracting what was added gives the original vector back. */
  lemma AddSubCancel(a: seq<real>, b: seq<real>)
    requires |a| == |b|
    ensures Sub(Add(a, b), b) == a
  {
  }

  /** Negation is an involution. */
  lemma NegInvolution(a: seq<real>)
    ensures Neg(Neg(a)) == a
  {
  }

  /** The componentwise product commutes. */
  lemma MulCommutes(a: seq<real>, b: seq<real>)
    requires |a| == |b|
    ensures Mul(a, b) == Mul(b, a)
  {
  }

  /** The all-ones vector is the unit of the componentwise product, and the zero vector annihilates it. */
  lemma MulUnitAndZero(a: seq<real>)
    ensures Mul(a, seq(|a|, _ => 1.0)) == a
    ensures Mul(a, seq(|a|, _ => 0.0)) == seq(|a|, _ => 0.0)
  {
    var ones, zeros := seq(|a|, _ => 1.0), seq(|a|, _ => 0.0);
    assert forall i | 0 <= i < |a| :: Mul(a, ones)[i] == a[i] * ones[i] == a[i];
    assert forall i | 0 <= i < |a| :: Mul(a, zeros)[i] == a[i] * zeros[i] == zeros[i];
  }

  /** Scalar multiplication commutes: `k * v == v * k`. */
  lemma ScaleCommutes(k: real, a: seq<real>)
    ensures ScaleLeft(k, a) == Scale(a, k)
  {
  }
}
