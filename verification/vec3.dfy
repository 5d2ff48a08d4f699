/** `Vec3` (src/vectors/vec3.rs): the 3-component vector's own methods. */
module Vector3 {
  import opened Core
  import opened Vectors
  import opened Float

  function New(x: real, y: real, z: real): (v: Vec3)
  {
    [x, y, z]
  }

  /** `new` stores its arguments as `x`, `y`, `z`. */
  lemma NewStoresFields(x: real, y: real, z: real)
    ensures Index(New(x, y, z), 0).get == x
    ensures Index(New(x, y, z), 1).get == y
    ensures Index(New(x, y, z), 2).get == z
  {
  }

  function Magnitude(f: Float, v: Vec3): real
  {
    f.sqrt(v[0] * v[0] + v[1] * v[1] + v[2] * v[2])
  }

  function SquaredLen(v: Vec3): real
  {
    v[0] * v[0] + v[1] * v[1] + v[2] * v[2]
  }

  /** The plain sum of products, read through `Index`. */
  function Dot(a: Vec3, b: Vec3): real
  {
    a[0] * b[0] + a[1] * b[1] + a[2] * b[2]
  }

  /** `dot` is symmetric, and `squared_len` is the dot product of a vector with itself. */
  lemma DotSymmetric(a: Vec3, b: Vec3)
    ensures Dot(a, b) == Dot(b, a)
    ensures SquaredLen(a) == Dot(a, a)
    ensures 0.0 <= Dot(a, a)
  {
  }

  function Cross(a: Vec3, b: Vec3): (r: Vec3)
  {
    [a[1] * b[2] - a[2] * b[1], -(a[0] * b[2] - a[2] * b[0]), a[0] * b[1] - a[1] * b[0]]
  }

  /** The cross product is perpendicular to both factors, anti-commutative, and zero on a repeated factor. */
  lemma CrossProperties(a: Vec3, b: Vec3)
    ensures Dot(Cross(a, b), a) == 0.0
    ensures Dot(Cross(a, b), b) == 0.0
    ensures Cross(b, a) == Neg(Cross(a, b))
    ensures Cross(a, a) == [0.0, 0.0, 0.0]
  {
  }

  /** `vector_to`: the displacement from `self` to `other`. */
  function VectorTo(self: Vec3, other: Vec3): (r: Vec3)
    ensures Add(self, r) == other
  {
    [other[0] - self[0], other[1] - self[1], other[2] - self[2]]
  }

  /** `vector_to(other)` is `other - self`. */
  lemma VectorToIsDifference(self: Vec3, other: Vec3)
    ensures VectorTo(self, other) == Sub(other, self)
  {
  }

  function Extend(v: Vec3, w: real): (r: Vec4)
  {
    [v[0], v[1], v[2], w]
  }

  function Truncate(v: Vec3): (r: Vec2)
  {
    [v[0], v[1]]
  }

  /** `normalized`: every field times `1 / magnitude`. A zero magnitude (an IEEE NaN) is excluded. */
  function Normalized(f: Float, v: Vec3): (r: Vec3)
    requires Magnitude(f, v) != 0.0
  {
    var k := 1.0 / Magnitude(f, v);
    [v[0] * k, v[1] * k, v[2] * k]
  }

  /** In-place `normalize`: `x *= k; y *= k; z *= k` with `k = 1 / magnitude`. */
  function Normalize(f: Float, self: Vec3): (r: Vec3)
    requires Magnitude(f, self) != 0.0
  {
    var k := 1.0 / Magnitude(f, self);
    self[0 := self[0] * k][1 := self[1] * k][2 := self[2] * k]
  }

  /** `normalize` and `normalized` scale every field by the same factor and agree. */
  lemma NormalizeAgrees(f: Float, v: Vec3)
    requires Magnitude(f, v) != 0.0
    ensures Normalize(f, v) == Normalized(f, v)
    ensures Normalized(f, v) == Scale(v, 1.0 / Magnitude(f, v))
  {
    var s := Scale(v, 1.0 / Magnitude(f, v));
    assert forall i | 0 <= i < |v| :: s[i] == Normalized(f, v)[i];
  }

  /** With a lawful square root, a normalized non-zero vector has unit length. */
  lemma NormalizedIsUnit(f: Float, v: Vec3)
    requires Lawful(f) && SquaredLen(v) != 0.0
    ensures Magnitude(f, v) != 0.0
    ensures SquaredLen(Normalized(f, v)) == 1.0
  {
    var l := SquaredLen(v);
    SqrtZero(f, l);
    var m := Magnitude(f, v);
    var k := 1.0 / m;
    assert m * m == l;
    assert k * k * l == 1.0 by {
      assert k * m == 1.0;
      assert k * k * l == (k * m) * (k * m);
    }
    var n := Normalized(f, v);
    assert SquaredLen(n) == k * k * l;
  }

  /** A vector that already has unit length is its own normalization. */
  lemma NormalizedUnit(f: Float, n: Vec3)
    requires Lawful(f) && SquaredLen(n) == 1.0
    ensures Magnitude(f, n) == 1.0 && Normalized(f, n) == n
  {
    SqrtOfSquare(f, 1.0);
  }
}

/** `Vec2` (src/vectors/vec2.rs). */
module Vector2 {
  import opened Core
  import opened Vectors
  import opened Float
  import Vector3

  function New(x: real, y: real): (v: Vec2)
  {
    [x, y]
  }

  /** `new` stores its arguments as `x` and `y`. */
  lemma NewStoresFields(x: real, y: real)
    ensures Index(New(x, y), 0).get == x && Index(New(x, y), 1).get == y
  {
  }

  function Magnitude(f: Float, v: Vec2): real
  {
    f.sqrt(v[0] * v[0] + v[1] * v[1])
  }

  /** `dot` AS WRITTEN: the square root of the sum of products. */
  function Dot(f: Float, a: Vec2, b: Vec2): real
  {
    f.sqrt(a[0] * b[0] + a[1] * b[1])
  }

  /** The written `dot` is not the inner product: `(2, 0)` dotted with itself gives 2, not 4. */
  lemma DotIsNotInnerProduct(f: Float)
    requires Lawful(f)
    ensures Dot(f, [2.0, 0.0], [2.0, 0.0]) == 2.0
    ensures DotIntended([2.0, 0.0], [2.0, 0.0]) == 4.0
  {
    SqrtOfSquare(f, 2.0);
  }

  /** `dot` as the 3- and 4-component types define it: the plain sum of products. */
  function DotIntended(a: Vec2, b: Vec2): real
  {
    a[0] * b[0] + a[1] * b[1]
  }

  /** The plain dot product is symmetric, bilinear, and `dot(v, v)` is the squared magnitude. */
  lemma DotIntendedProperties(f: Float, a: Vec2, b: Vec2, c: Vec2, k: real)
    ensures DotIntended(a, b) == DotIntended(b, a)
    ensures DotIntended(Add(a, c), b) == DotIntended(a, b) + DotIntended(c, b)
    ensures DotIntended(Scale(a, k), b) == k * DotIntended(a, b)
    ensures Magnitude(f, a) == f.sqrt(DotIntended(a, a))
  {
  }

  function Normalized(f: Float, v: Vec2): (r: Vec2)
    requires Magnitude(f, v) != 0.0
  {
    var k := 1.0 / Magnitude(f, v);
    [v[0] * k, v[1] * k]
  }

  /** In-place `normalize` AS WRITTEN: `x *= k; y += k`. */
  function Normalize(f: Float, self: Vec2): (r: Vec2)
    requires Magnitude(f, self) != 0.0
  {
    var k := 1.0 / Magnitude(f, self);
    self[0 := self[0] * k][1 := self[1] + k]
  }

  /** In-place `normalize` as the other vector types write it: `x *= k; y *= k`. */
  function NormalizeIntended(f: Float, self: Vec2): (r: Vec2)
    requires Magnitude(f, self) != 0.0
  {
    var k := 1.0 / Magnitude(f, self);
    self[0 := self[0] * k][1 := self[1] * k]
  }

  /** `normalized` multiplies both fields by `1 / magnitude`; the intended `normalize` agrees with it. */
  lemma NormalizeIntendedAgrees(f: Float, v: Vec2)
    requires Magnitude(f, v) != 0.0
    ensures Normalized(f, v) == Scale(v, 1.0 / Magnitude(f, v))
    ensures NormalizeIntended(f, v) == Normalized(f, v)
  {
    var s := Scale(v, 1.0 / Magnitude(f, v));
    assert forall i | 0 <= i < |v| :: s[i] == Normalized(f, v)[i];
  }

  /** With a lawful square root, the intended `normalize` yields a unit vector. */
  lemma NormalizeIntendedIsUnit(f: Float, v: Vec2)
    requires Lawful(f) && DotIntended(v, v) != 0.0
    ensures Magnitude(f, v) != 0.0
    ensures DotIntended(NormalizeIntended(f, v), NormalizeIntended(f, v)) == 1.0
  {
    var l := DotIntended(v, v);
    SqrtZero(f, l);
    var m := Magnitude(f, v);
    var k := 1.0 / m;
    assert m * m == l;
    assert k * k * l == 1.0 by {
      assert k * m == 1.0;
      assert k * k * l == (k * m) * (k * m);
    }
    var n := NormalizeIntended(f, v);
    assert DotIntended(n, n) == k * k * l;
  }

  /** The written `normalize` disagrees with `normalized`: on `(0, 1)` it yields `(0, 2)`. */
  lemma NormalizeDisagrees(f: Float)
    requires Lawful(f)
    ensures Magnitude(f, [0.0, 1.0]) == 1.0
    ensures Normalize(f, [0.0, 1.0]) == [0.0, 2.0]
    ensures Normalized(f, [0.0, 1.0]) == [0.0, 1.0]
  {
    SqrtOfSquare(f, 1.0);
  }

  function Extend(v: Vec2, z: real): (r: Vec3)
  {
    [v[0], v[1], z]
  }

  /** `extend(z)` keeps `x`, `y`, appends `z`, and `Vec3::truncate` undoes it. */
  lemma ExtendTruncate(v: Vec2, z: real)
    ensures Extend(v, z)[..2] == v && Extend(v, z)[2] == z
    ensures Vector3.Truncate(Extend(v, z)) == v
  {
  }
}

/** `Vec4` (src/vectors/vec4.rs). */
module Vector4 {
  import opened Core
  import opened Vectors
  import opened Float
  import Vector3

  function New(x: real, y: real, z: real, w: real): (v: Vec4)
  {
    [x, y, z, w]
  }

  /** `new` stores `x`, `y`, `z`, `w` in that order. */
  lemma NewStoresFields(x: real, y: real, z: real, w: real)
    ensures Index(New(x, y, z, w), 0).get == x && Index(New(x, y, z, w), 1).get == y
    ensures Index(New(x, y, z, w), 2).get == z && Index(New(x, y, z, w), 3).get == w
  {
  }

  function Magnitude(f: Float, v: Vec4): real
  {
    f.sqrt(v[0] * v[0] + v[1] * v[1] + v[2] * v[2] + v[3] * v[3])
  }

  function Dot(a: Vec4, b: Vec4): real
  {
    a[0] * b[0] + a[1] * b[1] + a[2] * b[2] + a[3] * b[3]
  }

  /** `dot` is symmetric and non-negative on a repeated argument. */
  lemma DotSymmetric(a: Vec4, b: Vec4)
    ensures Dot(a, b) == Dot(b, a)
    ensures 0.0 <= Dot(a, a)
  {
  }

  function Normalized(f: Float, v: Vec4): (r: Vec4)
    requires Magnitude(f, v) != 0.0
  {
    var s := 1.0 / Magnitude(f, v);
    [v[0] * s, v[1] * s, v[2] * s, v[3] * s]
  }

  function Normalize(f: Float, self: Vec4): (r: Vec4)
    requires Magnitude(f, self) != 0.0
  {
    var s := 1.0 / Magnitude(f, self);
    self[0 := self[0] * s][1 := self[1] * s][2 := self[2] * s][3 := self[3] * s]
  }

  /** `normalize` and `normalized` scale all four fields by the same factor and agree. */
  lemma NormalizeAgrees(f: Float, v: Vec4)
    requires Magnitude(f, v) != 0.0
    ensures Normalize(f, v) == Normalized(f, v)
    ensures Normalized(f, v) == Scale(v, 1.0 / Magnitude(f, v))
  {
    var s := Scale(v, 1.0 / Magnitude(f, v));
    assert forall i | 0 <= i < |v| :: s[i] == Normalized(f, v)[i];
  }

  function Truncate(v: Vec4): (r: Vec3)
  {
    [v[0], v[1], v[2]]
  }

  /** `truncate` keeps `x`, `y`, `z`, and undoes `Vec3::extend`. */
  lemma TruncateExtend(v: Vec4, u: Vec3, w: real)
    ensures Truncate(v) == v[..3]
    ensures Truncate(Vector3.Extend(u, w)) == u
    ensures Vector3.Extend(u, w)[3] == w
  {
  }
}
