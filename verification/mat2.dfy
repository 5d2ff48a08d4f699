/** `Mat2` (src/matrix/mat2.rs): constructors, builders and transposes of the 2×2 matrix. */
module Matrix2 {
  import opened Core
  import opened Float
  import opened Vectors
  import opened Matrix

  function New(s0e0: real, s0e1: real, s1e0: real, s1e1: real): (m: Mat2)
  {
    [[s0e0, s0e1], [s1e0, s1e1]]
  }

  /** `new` stores its arguments row-major: entry [r][c] is argument `2r + c`. */
  lemma NewRowMajor(s: seq<real>)
    requires |s| == 4
    ensures forall r, c :: 0 <= r < 2 && 0 <= c < 2 ==> New(s[0], s[1], s[2], s[3])[r][c] == s[2 * r + c]
  {
  }

  /** `from_array`: the array is the matrix. */
  function FromArray(arr: Mat2): (m: Mat2)
  {
    arr
  }

  /** `from_array(arr)` is `new` called with the array's entries in row order. */
  lemma FromArrayIsNew(arr: Mat2)
    ensures FromArray(arr) == New(arr[0][0], arr[0][1], arr[1][0], arr[1][1])
  {
    assert arr == [arr[0], arr[1]];
    assert arr[0] == [arr[0][0], arr[0][1]] && arr[1] == [arr[1][0], arr[1][1]];
  }

  /** `from_vec`: both rows are the vector. */
  function FromVec(v: Vec2): (m: Mat2)
  {
    [[v[0], v[1]], [v[0], v[1]]]
  }

  /** Both rows of `from_vec(v)` equal `(v.x, v.y)`. */
  lemma FromVecRows(v: Vec2)
    ensures Index(FromVec(v), 0) == Value(v) && Index(FromVec(v), 1) == Value(v)
  {
    assert v == [v[0], v[1]];
  }

  function Rotation(f: Float, ang: real): (m: Mat2)
  {
    [[f.cos(ang), -f.sin(ang)], [f.sin(ang), f.cos(ang)]]
  }

  /** `rotation(a)` has equal diagonal entries and opposite off-diagonal entries, for every `a`. */
  lemma RotationShape(f: Float, ang: real)
    ensures Rotation(f, ang)[0][0] == Rotation(f, ang)[1][1]
    ensures Rotation(f, ang)[0][1] == -Rotation(f, ang)[1][0]
  {
  }

  function Scale(k: real): (m: Mat2)
  {
    [[k, 0.0], [0.0, k]]
  }

  function Default(): (m: Mat2)
  {
    [[1.0, 0.0], [0.0, 1.0]]
  }

  /** `Default` is the identity, and `scale(k)` is `Default * k`, so `scale(1)` is the identity. */
  lemma DefaultAndScale(k: real)
    ensures Default() == Identity(2)
    ensures Scale(k) == Matrix.Scale(Default(), k)
    ensures Scale(1.0) == Default()
  {
    assert forall x | 0 <= x < 2 :: Default()[x] == Identity(2)[x];
    assert forall x | 0 <= x < 2 :: Scale(k)[x] == Matrix.Scale(Default(), k)[x];
  }

  /** `transpost`, by value. */
  function Transpost(self: Mat2): (m: Mat2)
  {
    [[self[0][0], self[1][0]], [self[0][1], self[1][1]]]
  }

  /** In-place `transpose`: `*self` is rebuilt from the same literal. */
  function Transpose(self: Mat2): (m: Mat2)
  {
    [[self[0][0], self[1][0]], [self[0][1], self[1][1]]]
  }

  /** Both transposes swap `[0][1]` and `[1][0]` (they are the true transpose), agree, and are involutions. */
  lemma TransposeProperties(m: Mat2)
    ensures Transpost(m) == Matrix.Transpose(m)
    ensures Transpose(m) == Transpost(m)
    ensures Transpost(Transpost(m)) == m
  {
    assert forall x | 0 <= x < 2 :: Transpost(m)[x] == Matrix.Transpose(m)[x];
    assert m == [m[0], m[1]];
    assert m[0] == [m[0][0], m[0][1]] && m[1] == [m[1][0], m[1][1]];
  }
}
