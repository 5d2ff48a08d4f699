/**
 * Finite sums, accumulated left to right from 0.0 exactly as the library's loops do
 * (`ret += term` for k in 0..N), with the algebra the matrix proofs need.
 */
module Sums {

  function Sum(s: seq<real>): real
    decreases |s|
  {
    if |s| == 0 then 0.0 else Sum(s[..|s| - 1]) + s[|s| - 1]
  }

  /** A sum whose terms are all zero is zero. */
  lemma {:induction false} SumZero(s: seq<real>)
    requires forall k :: 0 <= k < |s| ==> s[k] == 0.0
    ensures Sum(s) == 0.0
  {
    if |s| > 0 {
      SumZero(s[..|s| - 1]);
    }
  }

  /** A sum with a single non-zero term is that term. */
  lemma {:induction false} SumOneHot(s: seq<real>, i: nat)
    requires i < |s|
    requires forall k :: 0 <= k < |s| && k != i ==> s[k] == 0.0
    ensures Sum(s) == s[i]
  {
    var n := |s|;
    if i == n - 1 {
      SumZero(s[..n - 1]);
    } else {
      SumOneHot(s[..n - 1], i);
    }
  }

  /** Termwise addition adds the sums. */
  lemma {:induction false} SumAdd(u: seq<real>, v: seq<real>, w: seq<real>)
    requires |u| == |v| == |w|
    requires forall k :: 0 <= k < |w| ==> w[k] == u[k] + v[k]
    ensures Sum(w) == Sum(u) + Sum(v)
  {
    var n := |w|;
    if n > 0 {
      SumAdd(u[..n - 1], v[..n - 1], w[..n - 1]);
    }
  }

  /** A common factor moves out of a sum. */
  lemma {:induction false} SumScale(u: seq<real>, c: real, w: seq<real>)
    requires |u| == |w|
    requires forall k :: 0 <= k < |w| ==> w[k] == c * u[k]
    ensures Sum(w) == c * Sum(u)
  {
    var n := |w|;
    if n > 0 {
      SumScale(u[..n - 1], c, w[..n - 1]);
    }
  }

  /** Two terms. */
  lemma Sum2(s: seq<real>)
    requires |s| == 2
    ensures Sum(s) == s[0] + s[1]
  {
    assert s[..1][..0] == s[..0];
    assert Sum(s[..1]) == s[0];
  }

  /** Three terms. */
  lemma Sum3(s: seq<real>)
    requires |s| == 3
    ensures Sum(s) == s[0] + s[1] + s[2]
  {
    assert s[..2][..1] == s[..1];
    assert s[..1][..0] == s[..0];
    assert Sum(s[..1]) == s[0];
    assert Sum(s[..2]) == s[0] + s[1];
  }

  /** Four terms, as in every 4-wide loop of the library. */
  lemma Sum4(s: seq<real>)
    requires |s| == 4
    ensures Sum(s) == s[0] + s[1] + s[2] + s[3]
  {
    assert s[..3][..2] == s[..2];
    assert s[..2][..1] == s[..1];
    assert s[..1][..0] == s[..0];
    assert Sum(s[..1]) == s[0];
    assert Sum(s[..2]) == s[0] + s[1];
    assert Sum(s[..3]) == s[0] + s[1] + s[2];
  }

  /** The sum of each row of a table. */
  function RowSums(t: seq<seq<real>>): (r: seq<real>)
    ensures |r| == |t| && forall k :: 0 <= k < |t| ==> r[k] == Sum(t[k])
  {
    seq(|t|, k requires 0 <= k < |t| => Sum(t[k]))
  }

  /** Column `l` of a table whose rows all have more than `l` entries. */
  function Column(t: seq<seq<real>>, l: nat): (c: seq<real>)
    requires forall k :: 0 <= k < |t| ==> l < |t[k]|
    ensures |c| == |t| && forall k :: 0 <= k < |t| ==> c[k] == t[k][l]
  {
    seq(|t|, k requires 0 <= k < |t| => t[k][l])
  }

  /** The sum of each column of a table whose rows all have `m` entries. */
  function ColumnSums(t: seq<seq<real>>, m: nat): (r: seq<real>)
    requires forall k :: 0 <= k < |t| ==> |t[k]| == m
    ensures |r| == m && forall l :: 0 <= l < m ==> r[l] == Sum(Column(t, l))
  {
    seq(m, l requires 0 <= l < m => Sum(Column(t, l)))
  }

  /** Summing a table by rows or by columns gives the same total. */
  lemma {:induction false} SumSwap(t: seq<seq<real>>, m: nat)
    requires forall k :: 0 <= k < |t| ==> |t[k]| == m
    ensures Sum(RowSums(t)) == Sum(ColumnSums(t, m))
  {
    var n := |t|;
    if n == 0 {
      SumZero(ColumnSums(t, m));
    } else {
      var g := t[..n - 1];
      SumSwap(g, m);
      assert RowSums(t)[..n - 1] == RowSums(g);
      forall l | 0 <= l < m
        ensures ColumnSums(t, m)[l] == ColumnSums(g, m)[l] + t[n - 1][l]
      {
        assert Column(t, l)[..n - 1] == Column(g, l);
      }
      SumAdd(ColumnSums(g, m), t[n - 1], ColumnSums(t, m));
    }
  }
}
