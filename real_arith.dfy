/** Facts about products of reals that the geometric proofs build on.
    Products and squares are named by functions so that the facts below
    are used as stated rather than rewritten by the solver. */
module RealArith {

  function Sq(a: real): real {
    a * a
  }

  function Mul(a: real, b: real): real {
    a * b
  }

  lemma MulPos(a: real, b: real)
    requires 0.0 < a && 0.0 < b
    ensures 0.0 < Mul(a, b)
  {
  }

  lemma MulDistribDiff(k: real, p: real, q: real, r: real, s: real)
    ensures p * (k * q) - r * (k * s) == k * (p * q - r * s)
  {
  }

  /** A product vanishes exactly when one of its factors does. */
  lemma MulZero(a: real, b: real)
    ensures Mul(a, b) == 0.0 <==> a == 0.0 || b == 0.0
  {
    if 0.0 < a && 0.0 < b {
      MulPos(a, b);
    } else if a < 0.0 && 0.0 < b {
      MulPos(-a, b);
      assert Mul(-a, b) == -Mul(a, b);
    } else if 0.0 < a && b < 0.0 {
      MulPos(a, -b);
      assert Mul(a, -b) == -Mul(a, b);
    } else if a < 0.0 && b < 0.0 {
      MulPos(-a, -b);
      assert Mul(-a, -b) == Mul(a, b);
    }
  }

  /** A non-zero factor can be cancelled. */
  lemma Cancel(k: real, a: real, b: real)
    requires k != 0.0 && Mul(k, a) == Mul(k, b)
    ensures a == b
  {
    MulZero(k, a - b);
    assert Mul(k, a - b) == Mul(k, a) - Mul(k, b);
  }

  /** `a / b` is the one `c` with `b·c = a`. */
  lemma DivIff(a: real, b: real, c: real)
    requires b != 0.0
    ensures a / b == c <==> Mul(b, c) == a
  {
    assert Mul(b, a / b) == a;
    if Mul(b, c) == a {
      Cancel(b, a / b, c);
    }
  }

  /** Multiplying by a positive factor keeps a strict order. */
  lemma MulLess(k: real, a: real, b: real)
    requires 0.0 < k && a < b
    ensures Mul(k, a) < Mul(k, b)
  {
    MulPos(k, b - a);
    assert Mul(k, b - a) == Mul(k, b) - Mul(k, a);
  }

  /** A positive factor can be cancelled. */
  lemma CancelPos(k: real, a: real, b: real)
    requires 0.0 < k && Mul(k, a) == Mul(k, b)
    ensures a == b
  {
    if a < b {
      MulLess(k, a, b);
    } else if b < a {
      MulLess(k, b, a);
    }
  }

  lemma SqPos(a: real)
    requires a != 0.0
    ensures 0.0 < Sq(a)
  {
    if 0.0 < a {
      MulPos(a, a);
    } else {
      MulPos(-a, -a);
    }
  }

  lemma SqNonNeg(a: real)
    ensures 0.0 <= Sq(a)
  {
    if a != 0.0 {
      SqPos(a);
    }
  }

  /** Squaring is strictly monotone on the non-negative reals. */
  lemma SqLess(a: real, b: real)
    requires 0.0 <= a < b
    ensures Sq(a) < Sq(b)
  {
    MulPos(b - a, a + b);
    assert Mul(b - a, a + b) == Sq(b) - Sq(a);
  }

  /** Two non-negative reals with equal squares are equal. */
  lemma SqInjective(a: real, b: real)
    requires 0.0 <= a && 0.0 <= b && Sq(a) == Sq(b)
    ensures a == b
  {
    if a < b {
      SqLess(a, b);
    } else if b < a {
      SqLess(b, a);
    }
  }

  /** A real whose square is at most one lies in `[-1, 1]`. */
  lemma SqAtMostOne(t: real)
    requires Sq(t) <= 1.0
    ensures -1.0 <= t <= 1.0
  {
    if 1.0 < t {
      SqLess(1.0, t);
    } else if t < -1.0 {
      SqLess(1.0, -t);
    }
  }
}
