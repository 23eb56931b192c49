/** The three functions of the host's `Math` object that the 3D library calls.
    Their numeric values are not modelled: a `MathLib` is any choice of the three,
    and the lemmas that depend on what they compute say so through the
    predicates below, which state the only facts the library relies on. */
module HostMath {
  import opened RealArith

  /** `Math.sqrt`, `Math.sin` and `Math.cos`, passed in rather than fixed. */
  datatype MathLib = MathLib(sqrt: real -> real, sin: real -> real, cos: real -> real)

  /** `sqrt` returns the non-negative square root of every non-negative argument. */
  ghost predicate SqrtSound(m: MathLib) {
    forall x :: 0.0 <= x ==> 0.0 <= m.sqrt(x) && Sq(m.sqrt(x)) == x
  }

  /** `sin` and `cos` satisfy the Pythagorean identity at every angle. */
  ghost predicate TrigSound(m: MathLib) {
    forall a :: Sq(m.sin(a)) + Sq(m.cos(a)) == 1.0
  }

  /** A non-negative root of `x` is the one `sqrt` returns. */
  lemma SqrtUnique(m: MathLib, x: real, s: real)
    requires SqrtSound(m)
    requires 0.0 <= s && Sq(s) == x
    ensures m.sqrt(x) == s
  {
    SqNonNeg(s);
    SqInjective(m.sqrt(x), s);
  }

  /** `sqrt` is zero exactly at zero. */
  lemma SqrtZeroIff(m: MathLib, x: real)
    requires SqrtSound(m) && 0.0 <= x
    ensures m.sqrt(x) == 0.0 <==> x == 0.0
  {
    if x == 0.0 {
      SqrtUnique(m, 0.0, 0.0);
    }
  }

  /** `sqrt` is strictly monotone: a larger argument has a larger root. */
  lemma SqrtLess(m: MathLib, x: real, y: real)
    requires SqrtSound(m) && 0.0 <= x < y
    ensures m.sqrt(x) < m.sqrt(y)
  {
    var a, b := m.sqrt(x), m.sqrt(y);
    if b < a {
      SqLess(b, a);
    }
  }
}
