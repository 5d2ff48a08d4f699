/**
 * The operators every matrix type gets from the `impl_mat_ops!` macro (src/matrix/macros.rs),
 * written once for every dimension N.
 *
 * A matrix is its array of rows, `mat[r][c]` being row r, column c. The product follows the
 * library's own convention, `(A * B)[i][j] = Σ_k A[k][j] · B[i][k]` (which is `B·A` in the
 * usual notation), and the matrix–vector product is `(M * v)[i] = Σ_j v[j] · M[j][i]`.
 */
module Matrix {
  import opened Core
  import opened Sums

  type Mat = seq<seq<real>>

  /** An n×n array of rows. */
  predicate Square(m: Mat, n: nat) {
    |m| == n && forall i :: 0 <= i < n ==> |m[i]| == n
  }

  type Mat2 = m: Mat | Square(m, 2) witness [[1.0, 0.0], [0.0, 1.0]]
  type Mat3 = m: Mat | Square(m, 3) witness [[1.0, 0.0, 0.0], [0.0, 1.0, 0.0], [0.0, 0.0, 1.0]]
  type Mat4 = m: Mat | Square(m, 4)
    witness [[1.0, 0.0, 0.0, 0.0], [0.0, 1.0, 0.0, 0.0], [0.0, 0.0, 1.0, 0.0], [0.0, 0.0, 0.0, 1.0]]

  /** Two operands of the same square type. */
  predicate Conformable(a: Mat, b: Mat) {
    Square(a, |a|) && Square(b, |a|)
  }

  /** The identity, which is every matrix type's `Default`. */
  function Identity(n: nat): (r: Mat)
    ensures Square(r, n)
    ensures forall i, j :: 0 <= i < n && 0 <= j < n ==> r[i][j] == if i == j then 1.0 else 0.0
  {
    seq(n, i requires 0 <= i < n => seq(n, j requires 0 <= j < n => if i == j then 1.0 else 0.0))
  }

  /** The all-zero matrix, every type's `zero()`. */
  function Zero(n: nat): (r: Mat)
    ensures Square(r, n)
    ensures forall i, j :: 0 <= i < n && 0 <= j < n ==> r[i][j] == 0.0
  {
    seq(n, i requires 0 <= i < n => seq(n, j requires 0 <= j < n => 0.0))
  }

  // ----------------------------------------------------------------- entrywise operators

  /** `Add`. */
  function Add(a: Mat, b: Mat): (r: Mat)
    requires Conformable(a, b)
    ensures Square(r, |a|)
    ensures forall i, j :: 0 <= i < |a| && 0 <= j < |a| ==> r[i][j] == a[i][j] + b[i][j]
  {
    seq(|a|, i requires 0 <= i < |a| => seq(|a|, j requires 0 <= j < |a| => a[i][j] + b[i][j]))
  }

  /** `Sub`. */
  function Sub(a: Mat, b: Mat): (r: Mat)
    requires Conformable(a, b)
    ensures Square(r, |a|)
    ensures forall i, j :: 0 <= i < |a| && 0 <= j < |a| ==> r[i][j] == a[i][j] - b[i][j]
  {
    seq(|a|, i requires 0 <= i < |a| => seq(|a|, j requires 0 <= j < |a| => a[i][j] - b[i][j]))
  }

  /** `Mul<T>`: every entry times the scalar. */
  function Scale(m: Mat, k: real): (r: Mat)
    requires Square(m, |m|)
    ensures Square(r, |m|)
    ensures forall i, j :: 0 <= i < |m| && 0 <= j < |m| ==> r[i][j] == m[i][j] * k
  {
    seq(|m|, i requires 0 <= i < |m| => seq(|m|, j requires 0 <= j < |m| => m[i][j] * k))
  }

  /** `AddAssign`: `self[i][j] += other[i][j]` over every entry, in place. */
  method AddAssign(self: Mat, other: Mat) returns (r: Mat)
    requires Conformable(self, other)
    ensures r == Add(self, other)
  {
    var n := |self|;
    r := self;
    for i := 0 to n
      invariant Square(r, n)
      invariant forall x, y :: 0 <= x < n && 0 <= y < n ==>
        r[x][y] == if x < i then self[x][y] + other[x][y] else self[x][y]
    {
      for j := 0 to n
        invariant Square(r, n)
        invariant forall x, y :: 0 <= x < n && 0 <= y < n ==>
          r[x][y] == if x < i || (x == i && y < j) then self[x][y] + other[x][y] else self[x][y]
      {
        r := r[i := r[i][j := r[i][j] + other[i][j]]];
      }
    }
    assert forall x | 0 <= x < n :: r[x] == Add(self, other)[x];
  }

  /** `SubAssign`: `self[i][j] -= other[i][j]` over every entry, in place. */
  method SubAssign(self: Mat, other: Mat) returns (r: Mat)
    requires Conformable(self, other)
    ensures r == Sub(self, other)
  {
    var n := |self|;
    r := self;
    for i := 0 to n
      invariant Square(r, n)
      invariant forall x, y :: 0 <= x < n && 0 <= y < n ==>
        r[x][y] == if x < i then self[x][y] - other[x][y] else self[x][y]
    {
      for j := 0 to n
        invariant Square(r, n)
        invariant forall x, y :: 0 <= x < n && 0 <= y < n ==>
          r[x][y] == if x < i || (x == i && y < j) then self[x][y] - other[x][y] else self[x][y]
      {
        r := r[i := r[i][j := r[i][j] - other[i][j]]];
      }
    }
    assert forall x | 0 <= x < n :: r[x] == Sub(self, other)[x];
  }

  /** Subtracting what was added restores the matrix. */
  lemma AddSubCancel(a: Mat, b: Mat)
    requires Conformable(a, b)
    ensures Sub(Add(a, b), b) == a
  {
    var r := Sub(Add(a, b), b);
    assert forall x | 0 <= x < |a| :: r[x] == a[x];
  }

  /** Scaling by 1 changes nothing and scaling by 0 gives the zero matrix. */
  lemma ScaleOneZero(m: Mat)
    requires Square(m, |m|)
    ensures Scale(m, 1.0) == m
    ensures Scale(m, 0.0) == Zero(|m|)
  {
    assert forall x | 0 <= x < |m| :: Scale(m, 1.0)[x] == m[x];
    assert forall x | 0 <= x < |m| :: Scale(m, 0.0)[x] == Zero(|m|)[x];
  }

  // ----------------------------------------------------------------- product

  /** The terms accumulated into entry [i][j] of `a * b`: `a[k][j] * b[i][k]` for k in 0..N. */
  function Terms(a: Mat, b: Mat, i: nat, j: nat): (t: seq<real>)
    requires Conformable(a, b) && i < |a| && j < |a|
    ensures |t| == |a| && forall k :: 0 <= k < |a| ==> t[k] == a[k][j] * b[i][k]
  {
    seq(|a|, k requires 0 <= k < |a| => a[k][j] * b[i][k])
  }

  /** `Mul<MatN>` in closed form: entry [i][j] is the sum of `Terms(a, b, i, j)`. */
  function Product(a: Mat, b: Mat): (r: Mat)
    requires Conformable(a, b)
    ensures Square(r, |a|)
    ensures forall i, j :: 0 <= i < |a| && 0 <= j < |a| ==> r[i][j] == Sum(Terms(a, b, i, j))
  {
    seq(|a|, i requires 0 <= i < |a| => seq(|a|, j requires 0 <= j < |a| => Sum(Terms(a, b, i, j))))
  }

  /** `Mul<MatN>` as the macro runs it: from `zero()`, `ret[i][j] += self[k][j] * rhs[i][k]`. */
  method ProductLoop(a: Mat, b: Mat) returns (r: Mat)
    requires Conformable(a, b)
    ensures r == Product(a, b)
  {
    var n := |a|;
    ghost var p := Product(a, b);
    r := Zero(n);
    for i := 0 to n
      invariant Square(r, n)
      invariant forall x, y :: 0 <= x < n && 0 <= y < n ==> r[x][y] == if x < i then p[x][y] else 0.0
    {
      for j := 0 to n
        invariant Square(r, n)
        invariant forall x, y :: 0 <= x < n && 0 <= y < n ==>
          r[x][y] == if x < i || (x == i && y < j) then p[x][y] else 0.0
      {
        ghost var t := Terms(a, b, i, j);
        for k := 0 to n
          invariant Square(r, n)
          invariant r[i][j] == Sum(t[..k])
          invariant forall x, y :: 0 <= x < n && 0 <= y < n && (x != i || y != j) ==>
            r[x][y] == if x < i || (x == i && y < j) then p[x][y] else 0.0
        {
          assert t[..k + 1][..k] == t[..k];
          r := r[i := r[i][j := r[i][j] + a[k][j] * b[i][k]]];
        }
        assert t[..n] == t;
      }
    }
    assert forall x | 0 <= x < n :: r[x] == p[x];
  }

  /** The identity (every type's `Default`) is a two-sided unit of the product. */
  lemma ProductIdentity(a: Mat)
    requires Square(a, |a|)
    ensures Product(a, Identity(|a|)) == a
    ensures Product(Identity(|a|), a) == a
  {
    var n := |a|;
    var id := Identity(n);
    forall i, j | 0 <= i < n && 0 <= j < n
      ensures Product(a, id)[i][j] == a[i][j] && Product(id, a)[i][j] == a[i][j]
    {
      SumOneHot(Terms(a, id, i, j), i);
      SumOneHot(Terms(id, a, i, j), j);
    }
    assert forall x | 0 <= x < n :: Product(a, id)[x] == a[x];
    assert forall x | 0 <= x < n :: Product(id, a)[x] == a[x];
  }

  /** `x·(y·z) == y·(z·x)`, stated once so that the sum proofs need no non-linear search. */
  lemma MulRotate(x: real, y: real, z: real)
    ensures x * (y * z) == y * (z * x)
  {
  }

  /** The table of `c[i][k]·(a[l][j]·b[k][l])`, whose row sums and column sums are the two
      ways of bracketing the triple product at entry [i][j]. */
  function AssocTable(a: Mat, b: Mat, c: Mat, i: nat, j: nat): (t: seq<seq<real>>)
    requires Conformable(a, b) && Conformable(a, c) && i < |a| && j < |a|
    ensures Square(t, |a|)
    ensures forall k, l :: 0 <= k < |a| && 0 <= l < |a| ==> t[k][l] == c[i][k] * (a[l][j] * b[k][l])
  {
    seq(|a|, k requires 0 <= k < |a| => seq(|a|, l requires 0 <= l < |a| => c[i][k] * (a[l][j] * b[k][l])))
  }

  lemma AssocRows(a: Mat, b: Mat, c: Mat, i: nat, j: nat)
    requires Conformable(a, b) && Conformable(a, c) && i < |a| && j < |a|
    ensures Terms(Product(a, b), c, i, j) == RowSums(AssocTable(a, b, c, i, j))
  {
    var t := AssocTable(a, b, c, i, j);
    forall k | 0 <= k < |a|
      ensures Terms(Product(a, b), c, i, j)[k] == RowSums(t)[k]
    {
      SumScale(Terms(a, b, k, j), c[i][k], t[k]);
    }
  }

  lemma AssocColumns(a: Mat, b: Mat, c: Mat, i: nat, j: nat)
    requires Conformable(a, b) && Conformable(a, c) && i < |a| && j < |a|
    ensures Terms(a, Product(b, c), i, j) == ColumnSums(AssocTable(a, b, c, i, j), |a|)
  {
    var t := AssocTable(a, b, c, i, j);
    forall l | 0 <= l < |a|
      ensures Terms(a, Product(b, c), i, j)[l] == ColumnSums(t, |a|)[l]
    {
      var col := Column(t, l);
      forall k | 0 <= k < |a|
        ensures col[k] == a[l][j] * Terms(b, c, i, l)[k]
      {
        MulRotate(c[i][k], a[l][j], b[k][l]);
      }
      SumScale(Terms(b, c, i, l), a[l][j], col);
    }
  }

  lemma ProductAssociativeEntry(a: Mat, b: Mat, c: Mat, i: nat, j: nat)
    requires Conformable(a, b) && Conformable(a, c) && i < |a| && j < |a|
    ensures Product(Product(a, b), c)[i][j] == Product(a, Product(b, c))[i][j]
  {
    AssocRows(a, b, c, i, j);
    AssocColumns(a, b, c, i, j);
    SumSwap(AssocTable(a, b, c, i, j), |a|);
  }

  /** The product is associative. */
  lemma ProductAssociative(a: Mat, b: Mat, c: Mat)
    requires Conformable(a, b) && Conformable(a, c)
    ensures Product(Product(a, b), c) == Product(a, Product(b, c))
  {
    var n := |a|;
    forall i, j | 0 <= i < n && 0 <= j < n
      ensures Product(Product(a, b), c)[i][j] == Product(a, Product(b, c))[i][j]
    {
      ProductAssociativeEntry(a, b, c, i, j);
    }
    assert forall x | 0 <= x < n :: Product(Product(a, b), c)[x] == Product(a, Product(b, c))[x];
  }

  /** Every entry off the diagonal is zero. */
  predicate Diagonal(m: Mat)
    requires Square(m, |m|)
  {
    forall i, j :: 0 <= i < |m| && 0 <= j < |m| && i != j ==> m[i][j] == 0.0
  }

  /** The product of two diagonal matrices is diagonal, with the diagonals multiplied. */
  lemma ProductDiagonal(a: Mat, b: Mat)
    requires Conformable(a, b) && Diagonal(a) && Diagonal(b)
    ensures forall i, j :: 0 <= i < |a| && 0 <= j < |a| ==>
      Product(a, b)[i][j] == if i == j then a[i][i] * b[i][i] else 0.0
  {
    forall i, j | 0 <= i < |a| && 0 <= j < |a|
      ensures Product(a, b)[i][j] == if i == j then a[i][i] * b[i][i] else 0.0
    {
      if i == j {
        SumOneHot(Terms(a, b, i, j), i);
      } else {
        SumZero(Terms(a, b, i, j));
      }
    }
  }

  /** A diagonal matrix whose diagonal holds only 0s and 1s is idempotent. */
  lemma DiagonalProjectionIdempotent(p: Mat)
    requires Square(p, |p|) && Diagonal(p)
    requires forall i :: 0 <= i < |p| ==> p[i][i] == 0.0 || p[i][i] == 1.0
    ensures Product(p, p) == p
  {
    ProductDiagonal(p, p);
    assert forall x | 0 <= x < |p| :: Product(p, p)[x] == p[x];
  }

  // ----------------------------------------------------------------- matrix × vector

  /** The terms accumulated into component i of `m * v`: `v[j] * m[j][i]` for j in 0..N. */
  function VecTerms(m: Mat, v: seq<real>, i: nat): (t: seq<real>)
    requires Square(m, |v|) && i < |v|
    ensures |t| == |v| && forall j :: 0 <= j < |v| ==> t[j] == v[j] * m[j][i]
  {
    seq(|v|, j requires 0 <= j < |v| => v[j] * m[j][i])
  }

  /** `Mul<VecN> for MatN` in closed form. */
  function MulVec(m: Mat, v: seq<real>): (r: seq<real>)
    requires Square(m, |v|)
    ensures |r| == |v| && forall i :: 0 <= i < |v| ==> r[i] == Sum(VecTerms(m, v, i))
  {
    seq(|v|, i requires 0 <= i < |v| => Sum(VecTerms(m, v, i)))
  }

  /** `Mul<VecN> for MatN` as the macro runs it: from the zero vector, `ret[i] += other[j] * self[j][i]`. */
  method MulVecLoop(m: Mat, v: seq<real>) returns (r: seq<real>)
    requires Square(m, |v|)
    ensures r == MulVec(m, v)
  {
    var n := |v|;
    ghost var p := MulVec(m, v);
    r := seq(n, i => 0.0);
    for i := 0 to n
      invariant |r| == n
      invariant forall x :: 0 <= x < n ==> r[x] == if x < i then p[x] else 0.0
    {
      ghost var t := VecTerms(m, v, i);
      for j := 0 to n
        invariant |r| == n
        invariant r[i] == Sum(t[..j])
        invariant forall x :: 0 <= x < n && x != i ==> r[x] == if x < i then p[x] else 0.0
      {
        assert t[..j + 1][..j] == t[..j];
        r := r[i := r[i] + v[j] * m[j][i]];
      }
      assert t[..n] == t;
    }
  }

  /** The identity maps every vector to itself. */
  lemma MulVecIdentity(v: seq<real>)
    ensures MulVec(Identity(|v|), v) == v
  {
    forall i | 0 <= i < |v|
      ensures MulVec(Identity(|v|), v)[i] == v[i]
    {
      SumOneHot(VecTerms(Identity(|v|), v, i), i);
    }
  }

  /** The table of `v[j]·(a[k][i]·b[j][k])` behind component i of both sides of `MulVecProduct`. */
  function MulVecTable(a: Mat, b: Mat, v: seq<real>, i: nat): (t: seq<seq<real>>)
    requires Conformable(a, b) && |v| == |a| && i < |a|
    ensures Square(t, |a|)
    ensures forall j, k :: 0 <= j < |a| && 0 <= k < |a| ==> t[j][k] == v[j] * (a[k][i] * b[j][k])
  {
    seq(|a|, j requires 0 <= j < |a| => seq(|a|, k requires 0 <= k < |a| => v[j] * (a[k][i] * b[j][k])))
  }

  lemma MulVecRows(a: Mat, b: Mat, v: seq<real>, i: nat)
    requires Conformable(a, b) && |v| == |a| && i < |a|
    ensures VecTerms(Product(a, b), v, i) == RowSums(MulVecTable(a, b, v, i))
  {
    var t := MulVecTable(a, b, v, i);
    forall j | 0 <= j < |a|
      ensures VecTerms(Product(a, b), v, i)[j] == RowSums(t)[j]
    {
      SumScale(Terms(a, b, j, i), v[j], t[j]);
    }
  }

  lemma MulVecColumns(a: Mat, b: Mat, v: seq<real>, i: nat)
    requires Conformable(a, b) && |v| == |a| && i < |a|
    ensures VecTerms(a, MulVec(b, v), i) == ColumnSums(MulVecTable(a, b, v, i), |a|)
  {
    var t := MulVecTable(a, b, v, i);
    forall k | 0 <= k < |a|
      ensures VecTerms(a, MulVec(b, v), i)[k] == ColumnSums(t, |a|)[k]
    {
      var col := Column(t, k);
      forall j | 0 <= j < |a|
        ensures col[j] == a[k][i] * VecTerms(b, v, k)[j]
      {
        MulRotate(v[j], a[k][i], b[j][k]);
      }
      SumScale(VecTerms(b, v, k), a[k][i], col);
    }
  }

  lemma MulVecProductEntry(a: Mat, b: Mat, v: seq<real>, i: nat)
    requires Conformable(a, b) && |v| == |a| && i < |a|
    ensures Sum(VecTerms(Product(a, b), v, i)) == Sum(VecTerms(a, MulVec(b, v), i))
  {
    MulVecRows(a, b, v, i);
    MulVecColumns(a, b, v, i);
    SumSwap(MulVecTable(a, b, v, i), |a|);
  }

  /** The two products agree: `(a * b) * v == a * (b * v)`. */
  lemma MulVecProduct(a: Mat, b: Mat, v: seq<real>)
    requires Conformable(a, b) && |v| == |a|
    ensures MulVec(Product(a, b), v) == MulVec(a, MulVec(b, v))
  {
    forall i | 0 <= i < |a|
      ensures MulVec(Product(a, b), v)[i] == MulVec(a, MulVec(b, v))[i]
    {
      MulVecProductEntry(a, b, v, i);
    }
  }

  // ----------------------------------------------------------------- transpose, indexing, blocks

  /** The true transpose: entry [i][j] is `m[j][i]`. */
  function Transpose(m: Mat): (r: Mat)
    requires Square(m, |m|)
    ensures Square(r, |m|)
    ensures forall i, j :: 0 <= i < |m| && 0 <= j < |m| ==> r[i][j] == m[j][i]
  {
    seq(|m|, i requires 0 <= i < |m| => seq(|m|, j requires 0 <= j < |m| => m[j][i]))
  }

  /** Transposing twice gives the matrix back; the identity is its own transpose. */
  lemma TransposeInvolution(m: Mat)
    requires Square(m, |m|)
    ensures Transpose(Transpose(m)) == m
    ensures Transpose(Identity(|m|)) == Identity(|m|)
  {
    assert forall x | 0 <= x < |m| :: Transpose(Transpose(m))[x] == m[x];
    assert forall x | 0 <= x < |m| :: Transpose(Identity(|m|))[x] == Identity(|m|)[x];
  }

  /** A row written through `IndexMut` reads back through `Index`; no other row changes. */
  lemma RowMutWritesOneRow(m: Mat, index: nat, row: seq<real>)
    requires Square(m, |m|) && index < |m| && |row| == |m|
    ensures IndexMut(m, index, row).Value? && Square(IndexMut(m, index, row).get, |m|)
    ensures Index(IndexMut(m, index, row).get, index) == Value(row)
    ensures forall x :: 0 <= x < |m| && x != index ==> Index(IndexMut(m, index, row).get, x) == Index(m, x)
  {
  }

  /** The top-left k×k block. */
  function Block(m: Mat, k: nat): (r: Mat)
    requires Square(m, |m|) && k <= |m|
    ensures Square(r, k)
    ensures forall i, j :: 0 <= i < k && 0 <= j < k ==> r[i][j] == m[i][j]
  {
    seq(k, i requires 0 <= i < k => m[i][..k])
  }

  /** The n×n identity with `m` copied into its top-left block. */
  function Embed(m: Mat, n: nat): (r: Mat)
    requires Square(m, |m|) && |m| <= n
    ensures Square(r, n) && Block(r, |m|) == m
    ensures forall i, j :: 0 <= i < n && 0 <= j < n && (|m| <= i || |m| <= j) ==>
      r[i][j] == if i == j then 1.0 else 0.0
  {
    var r := seq(n, i requires 0 <= i < n => seq(n, j requires 0 <= j < n =>
      if i < |m| && j < |m| then m[i][j] else if i == j then 1.0 else 0.0));
    assert forall x | 0 <= x < |m| :: Block(r, |m|)[x] == m[x];
    r
  }
}
