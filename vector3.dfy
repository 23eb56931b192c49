/** `Vector3`: an immutable triple of reals in the left-handed world
    (x right, y up, z forward). Every operation builds a new vector. */
module Vectors {
  import opened RealArith
  import opened HostMath

  datatype Vec3 = Vec3(x: real, y: real, z: real)

  const Zero := Vec3(0.0, 0.0, 0.0)

  // Dot product, scaling and negation are not operations of the library;
  // they are used here to state what its operations mean.

  function Dot(a: Vec3, b: Vec3): real {
    a.x * b.x + a.y * b.y + a.z * b.z
  }

  function Scale(k: real, v: Vec3): Vec3 {
    Vec3(k * v.x, k * v.y, k * v.z)
  }

  function Neg(v: Vec3): Vec3 {
    Vec3(-v.x, -v.y, -v.z)
  }

  /** The squared length is never negative and vanishes only at the zero vector. */
  lemma DotSelf(v: Vec3)
    ensures 0.0 <= Dot(v, v)
    ensures Dot(v, v) == 0.0 <==> v == Zero
  {
    assert Dot(v, v) == Sq(v.x) + Sq(v.y) + Sq(v.z);
    SqNonNeg(v.x);
    SqNonNeg(v.y);
    SqNonNeg(v.z);
    if v.x != 0.0 {
      SqPos(v.x);
    } else if v.y != 0.0 {
      SqPos(v.y);
    } else if v.z != 0.0 {
      SqPos(v.z);
    }
  }

  lemma DotScale(k: real, a: Vec3, b: Vec3)
    ensures Dot(Scale(k, a), b) == k * Dot(a, b)
    ensures Dot(a, Scale(k, b)) == k * Dot(a, b)
  {
  }

  /** Scaling by a non-zero factor gives the zero vector only from the zero vector. */
  lemma ScaleZero(k: real, v: Vec3)
    requires k != 0.0
    ensures Scale(k, v) == Zero <==> v == Zero
  {
    assert Scale(k, v) == Vec3(Mul(k, v.x), Mul(k, v.y), Mul(k, v.z));
    MulZero(k, v.x);
    MulZero(k, v.y);
    MulZero(k, v.z);
  }

  /** `length`: the Euclidean norm, through the host's `sqrt`. */
  function Length(v: Vec3, m: MathLib): (r: real)
    ensures SqrtSound(m) ==> 0.0 <= r && Sq(r) == Dot(v, v)
  {
    DotSelf(v);
    m.sqrt(Dot(v, v))
  }

  /** The length depends on the vector only through its squared length. */
  lemma LengthOfDot(u: Vec3, v: Vec3, m: MathLib)
    requires Dot(u, u) == Dot(v, v)
    ensures Length(u, m) == Length(v, m)
  {
    assert Length(u, m) == m.sqrt(Dot(u, u));
  }

  /** With a sound `sqrt`, a vector has length zero exactly when it is the zero vector. */
  lemma LengthZeroIff(v: Vec3, m: MathLib)
    requires SqrtSound(m)
    ensures Length(v, m) == 0.0 <==> v == Zero
  {
    DotSelf(v);
    SqrtZeroIff(m, Dot(v, v));
  }

  /** `normalize`: every component divided by the length. Dividing by a zero
      length is the degenerate case the library leaves undefined. */
  function Normalize(v: Vec3, m: MathLib): (r: Vec3)
    requires Length(v, m) != 0.0
    ensures Scale(Length(v, m), r) == v
  {
    var len := Length(v, m);
    Vec3(v.x / len, v.y / len, v.z / len)
  }

  /** With a sound `sqrt`, a normalized vector has length one. */
  lemma NormalizeUnitLength(v: Vec3, m: MathLib)
    requires SqrtSound(m) && Length(v, m) != 0.0
    ensures Dot(Normalize(v, m), Normalize(v, m)) == 1.0
    ensures Length(Normalize(v, m), m) == 1.0
  {
    var len := Length(v, m);
    var u := Normalize(v, m);
    DotScale(len, u, Scale(len, u));
    DotScale(len, u, u);
    assert Dot(v, v) == Mul(Sq(len), Dot(u, u));
    SqPos(len);
    CancelPos(Sq(len), Dot(u, u), 1.0);
    SqrtUnique(m, 1.0, 1.0);
  }

  /** `add`: component-wise sum. */
  function Add(a: Vec3, b: Vec3): Vec3 {
    Vec3(a.x + b.x, a.y + b.y, a.z + b.z)
  }

  /** `subtract`: component-wise difference. */
  function Subtract(a: Vec3, b: Vec3): Vec3 {
    Vec3(a.x - b.x, a.y - b.y, a.z - b.z)
  }

  /** The difference `a - b` is what must be added to `b` to reach `a`, and
      it is `a` plus the negation of `b`. */
  lemma SubtractAdd(a: Vec3, b: Vec3)
    ensures Add(Subtract(a, b), b) == a
    ensures Subtract(a, b) == Add(a, Neg(b))
  {
  }

  /** The difference vanishes exactly when the two vectors are equal. */
  lemma SubtractZeroIff(a: Vec3, b: Vec3)
    ensures Subtract(a, b) == Zero <==> a == b
  {
    SubtractAdd(a, b);
  }

  /** Adding a vector and then subtracting it again gives back the original. */
  lemma AddSubtractCancel(a: Vec3, b: Vec3)
    ensures Subtract(Add(a, b), b) == a
  {
  }

  /** A vector minus itself is the zero vector. */
  lemma SubtractSelf(a: Vec3)
    ensures Subtract(a, a) == Zero
  {
  }

  /** `cross`: the cross product. */
  function Cross(a: Vec3, b: Vec3): Vec3 {
    Vec3(a.y * b.z - a.z * b.y, a.z * b.x - a.x * b.z, a.x * b.y - a.y * b.x)
  }

  /** The cross product is orthogonal to both operands. */
  lemma CrossOrthogonal(a: Vec3, b: Vec3)
    ensures Dot(a, Cross(a, b)) == 0.0 && Dot(b, Cross(a, b)) == 0.0
  {
  }

  /** Swapping the operands of `cross` negates the result. */
  lemma CrossAntiCommutative(a: Vec3, b: Vec3)
    ensures Cross(a, b) == Neg(Cross(b, a))
  {
  }

  /** `cross` is linear in its second operand. */
  lemma CrossScale(a: Vec3, k: real, b: Vec3)
    ensures Cross(a, Scale(k, b)) == Scale(k, Cross(a, b))
  {
    assert Cross(a, b) == Vec3(a.y * b.z - a.z * b.y, a.z * b.x - a.x * b.z, a.x * b.y - a.y * b.x);
    MulDistribDiff(k, a.y, b.z, a.z, b.y);
    MulDistribDiff(k, a.z, b.x, a.x, b.z);
    MulDistribDiff(k, a.x, b.y, a.y, b.x);
  }

  /** Lagrange's identity: the squared length of `a × b` is `|a|²|b|² − (a·b)²`. */
  lemma CrossSquaredLength(a: Vec3, b: Vec3)
    ensures Dot(Cross(a, b), Cross(a, b)) == Dot(a, a) * Dot(b, b) - Dot(a, b) * Dot(a, b)
  {
  }

  /** Cauchy–Schwarz: `(a·b)² ≤ |a|²|b|²`, from Lagrange's identity. */
  lemma CauchySchwarz(a: Vec3, b: Vec3)
    ensures Sq(Dot(a, b)) <= Mul(Dot(a, a), Dot(b, b))
  {
    CrossSquaredLength(a, b);
    DotSelf(Cross(a, b));
  }

  /** Cauchy–Schwarz for a unit vector and a vector of length at most one:
      their dot product lies in `[-1, 1]`. */
  lemma DotUnitBound(a: Vec3, b: Vec3)
    requires Dot(a, a) == 1.0 && Dot(b, b) <= 1.0
    ensures -1.0 <= Dot(a, b) <= 1.0
  {
    CauchySchwarz(a, b);
    SqAtMostOne(Dot(a, b));
  }
}
