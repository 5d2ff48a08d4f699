/**
 * The scalar capability the library is generic over (`FloatScalar` in src/numtrait.rs,
 * which bundles `num_traits::Float`).
 *
 * Scalars are Dafny `real`s. The transcendental operations cannot be computed in Dafny, so
 * they are fields of a `Float` value that every operation needing them takes as a parameter.
 * Only `sqrt` is constrained (`Lawful`); no trigonometric
 * identity is assumed; the two Euler agreement lemmas take `Atan2Doubling` (`atan2` ignores a
 * common factor 2) as an explicit hypothesis.
 */
module Float {

  datatype Float = Float(
    sqrt: real -> real,
    sin: real -> real,
    cos: real -> real,
    tan: real -> real,
    asin: real -> real,
    acos: real -> real,
    /** `y.atan2(x)` in Rust is `atan2(y, x)` here. */
    atan2: (real, real) -> real,
    /** `FloatConst::FRAC_PI_2`. */
    fracPi2: real)

  /** A square root that returns the non-negative root of every non-negative argument. */
  ghost predicate Lawful(f: Float) {
    forall x :: 0.0 <= x ==> 0.0 <= f.sqrt(x) && f.sqrt(x) * f.sqrt(x) == x
  }

  /** `f32::abs`. */
  function Abs(x: real): (r: real)
    ensures 0.0 <= r && (r == x || r == -x)
  {
    if x < 0.0 then -x else x
  }

  lemma SquareStrictMono(r: real, s: real)
    requires 0.0 <= r < s
    ensures r * r < s * s
  {
    var d := s - r;
    assert s * s == r * r + d * (r + s);
    assert d * (r + s) > 0.0;
  }

  /** Two non-negative numbers with equal squares are equal. */
  lemma SquareRootUnique(r: real, s: real)
    requires 0.0 <= r && 0.0 <= s && r * r == s * s
    ensures r == s
  {
    if r < s {
      SquareStrictMono(r, s);
    } else if s < r {
      SquareStrictMono(s, r);
    }
  }

  /** A lawful square root is the unique non-negative root. */
  lemma SqrtOfSquare(f: Float, r: real)
    requires Lawful(f) && 0.0 <= r
    ensures f.sqrt(r * r) == r
  {
    SquareRootUnique(f.sqrt(r * r), r);
  }

  /** A lawful square root vanishes exactly at zero. */
  lemma SqrtZero(f: Float, x: real)
    requires Lawful(f) && 0.0 <= x
    ensures f.sqrt(x) == 0.0 <==> x == 0.0
  {
    if x == 0.0 {
      SqrtOfSquare(f, 0.0);
    }
  }
}
