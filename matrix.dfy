/** `Matrix`: an immutable affine transform `p' = A·p + t` of the left-handed
    world, with a 3×3 linear part `A` and a translation `t`. There is no
    perspective row: the perspective divide is a separate step (see Projection). */
module Matrices {
  import opened RealArith
  import opened HostMath
  import opened Vectors

  /** Fields in the constructor's positional order: each row of the linear
      part followed by that row's translation component. */
  datatype Matrix = Matrix(m11: real, m12: real, m13: real, tx: real,
                           m21: real, m22: real, m23: real, ty: real,
                           m31: real, m32: real, m33: real, tz: real)

  const Identity := Matrix(1.0, 0.0, 0.0, 0.0,
                           0.0, 1.0, 0.0, 0.0,
                           0.0, 0.0, 1.0, 0.0)

  /** The kinds of value a caller may hand to the factories and to `multiply`,
      which inspect the kind at run time: a number, a `Vector3`, a `Matrix`,
      or anything else. */
  datatype Operand = Number(num: real) | Vector(vec: Vec3) | Affine(mat: Matrix) | OtherValue

  /** The error each factory and `multiply` throws on an argument of the wrong kind. */
  datatype ArgumentError = ScaleArgument | RotationArgument | TranslationArgument | MultiplyArgument

  function Message(e: ArgumentError): string {
    match e
    case ScaleArgument => "Scale needs to be a Number or a Vector3"
    case RotationArgument => "Rotation needs to be a Vector3"
    case TranslationArgument => "Translation needs to be a Vector3"
    case MultiplyArgument => "Can only multiply by Matrix or Vector3"
  }

  datatype Result<T> = Ok(value: T) | Err(error: ArgumentError)

  // ---------------------------------------------------------------------------
  // multiply

  /** `multiply` with a `Vector3`: the transform applied to a point, `A·v + t`. */
  function MultiplyVector(a: Matrix, v: Vec3): Vec3 {
    Vec3(a.m11 * v.x + a.m12 * v.y + a.m13 * v.z + a.tx,
         a.m21 * v.x + a.m22 * v.y + a.m23 * v.z + a.ty,
         a.m31 * v.x + a.m32 * v.y + a.m33 * v.z + a.tz)
  }

  /** The linear part alone, without the translation. */
  function LinearPart(a: Matrix): Matrix {
    Matrix(a.m11, a.m12, a.m13, 0.0, a.m21, a.m22, a.m23, 0.0, a.m31, a.m32, a.m33, 0.0)
  }

  /** A matrix moves the origin to its translation, and moves the difference
      of two points by its linear part alone: it is an affine map. */
  lemma MultiplyVectorAffine(a: Matrix, u: Vec3, w: Vec3)
    ensures MultiplyVector(a, Zero) == Vec3(a.tx, a.ty, a.tz)
    ensures Subtract(MultiplyVector(a, u), MultiplyVector(a, w)) == MultiplyVector(LinearPart(a), Subtract(u, w))
  {
    var d := Subtract(MultiplyVector(a, u), MultiplyVector(a, w));
    var e := MultiplyVector(LinearPart(a), Subtract(u, w));
    assert d.x == e.x by { RowDifference(a.m11, a.m12, a.m13, a.tx, u, w); }
    assert d.y == e.y by { RowDifference(a.m21, a.m22, a.m23, a.ty, u, w); }
    assert d.z == e.z by { RowDifference(a.m31, a.m32, a.m33, a.tz, u, w); }
  }

  lemma RowDifference(p: real, q: real, r: real, t: real, u: Vec3, w: Vec3)
    ensures (p * u.x + q * u.y + r * u.z + t) - (p * w.x + q * w.y + r * w.z + t)
         == p * (u.x - w.x) + q * (u.y - w.y) + r * (u.z - w.z) + 0.0
  {
  }

  /** `multiply` with a `Matrix`: the product of the linear parts, and the
      translation `A₁·t₂ + t₁`. */
  function MultiplyMatrix(a: Matrix, b: Matrix): Matrix {
    Matrix(a.m11 * b.m11 + a.m12 * b.m21 + a.m13 * b.m31,
           a.m11 * b.m12 + a.m12 * b.m22 + a.m13 * b.m32,
           a.m11 * b.m13 + a.m12 * b.m23 + a.m13 * b.m33,
           a.m11 * b.tx + a.m12 * b.ty + a.m13 * b.tz + a.tx,
           a.m21 * b.m11 + a.m22 * b.m21 + a.m23 * b.m31,
           a.m21 * b.m12 + a.m22 * b.m22 + a.m23 * b.m32,
           a.m21 * b.m13 + a.m22 * b.m23 + a.m23 * b.m33,
           a.m21 * b.tx + a.m22 * b.ty + a.m23 * b.tz + a.ty,
           a.m31 * b.m11 + a.m32 * b.m21 + a.m33 * b.m31,
           a.m31 * b.m12 + a.m32 * b.m22 + a.m33 * b.m32,
           a.m31 * b.m13 + a.m32 * b.m23 + a.m33 * b.m33,
           a.m31 * b.tx + a.m32 * b.ty + a.m33 * b.tz + a.tz)
  }

  /** One row `(p₁ p₂ p₃ | pₜ)` of `a`: the matching row `c` of the product
      with `b`, applied to `v`, equals the row of `a` applied to `b·v`. */
  lemma RowCompose(p1: real, p2: real, p3: real, pt: real, b: Matrix,
                   c1: real, c2: real, c3: real, ct: real, v: Vec3, bv: Vec3)
    requires c1 == p1 * b.m11 + p2 * b.m21 + p3 * b.m31
    requires c2 == p1 * b.m12 + p2 * b.m22 + p3 * b.m32
    requires c3 == p1 * b.m13 + p2 * b.m23 + p3 * b.m33
    requires ct == p1 * b.tx + p2 * b.ty + p3 * b.tz + pt
    requires bv == MultiplyVector(b, v)
    ensures c1 * v.x + c2 * v.y + c3 * v.z + ct == p1 * bv.x + p2 * bv.y + p3 * bv.z + pt
  {
  }

  lemma MultiplyMatrixAppliesX(a: Matrix, b: Matrix, v: Vec3)
    ensures MultiplyVector(MultiplyMatrix(a, b), v).x == MultiplyVector(a, MultiplyVector(b, v)).x
  {
    var ab, bv := MultiplyMatrix(a, b), MultiplyVector(b, v);
    assert MultiplyVector(ab, v).x == ab.m11 * v.x + ab.m12 * v.y + ab.m13 * v.z + ab.tx;
    assert MultiplyVector(a, bv).x == a.m11 * bv.x + a.m12 * bv.y + a.m13 * bv.z + a.tx;
    RowCompose(a.m11, a.m12, a.m13, a.tx, b, ab.m11, ab.m12, ab.m13, ab.tx, v, bv);
  }

  lemma MultiplyMatrixAppliesY(a: Matrix, b: Matrix, v: Vec3)
    ensures MultiplyVector(MultiplyMatrix(a, b), v).y == MultiplyVector(a, MultiplyVector(b, v)).y
  {
    var ab, bv := MultiplyMatrix(a, b), MultiplyVector(b, v);
    assert MultiplyVector(ab, v).y == ab.m21 * v.x + ab.m22 * v.y + ab.m23 * v.z + ab.ty;
    assert MultiplyVector(a, bv).y == a.m21 * bv.x + a.m22 * bv.y + a.m23 * bv.z + a.ty;
    RowCompose(a.m21, a.m22, a.m23, a.ty, b, ab.m21, ab.m22, ab.m23, ab.ty, v, bv);
  }

  lemma MultiplyMatrixAppliesZ(a: Matrix, b: Matrix, v: Vec3)
    ensures MultiplyVector(MultiplyMatrix(a, b), v).z == MultiplyVector(a, MultiplyVector(b, v)).z
  {
    var ab, bv := MultiplyMatrix(a, b), MultiplyVector(b, v);
    assert MultiplyVector(ab, v).z == ab.m31 * v.x + ab.m32 * v.y + ab.m33 * v.z + ab.tz;
    assert MultiplyVector(a, bv).z == a.m31 * bv.x + a.m32 * bv.y + a.m33 * bv.z + a.tz;
    RowCompose(a.m31, a.m32, a.m33, a.tz, b, ab.m31, ab.m32, ab.m33, ab.tz, v, bv);
  }

  /** The product applies `b` first, then `a`: composition agrees with
      sequential application. */
  lemma MultiplyMatrixApplies(a: Matrix, b: Matrix, v: Vec3)
    ensures MultiplyVector(MultiplyMatrix(a, b), v) == MultiplyVector(a, MultiplyVector(b, v))
  {
    MultiplyMatrixAppliesX(a, b, v);
    MultiplyMatrixAppliesY(a, b, v);
    MultiplyMatrixAppliesZ(a, b, v);
  }

  lemma MultiplyMatrixAppliesAll(a: Matrix, b: Matrix)
    ensures forall v :: MultiplyVector(MultiplyMatrix(a, b), v) == MultiplyVector(a, MultiplyVector(b, v))
  {
    forall v {
      MultiplyMatrixApplies(a, b, v);
    }
  }

  /** A matrix is determined by what it does to points: two matrices that
      agree on every point are equal. */
  lemma Extensionality(a: Matrix, b: Matrix)
    requires forall v :: MultiplyVector(a, v) == MultiplyVector(b, v)
    ensures a == b
  {
    var o, ex, ey, ez := Zero, Vec3(1.0, 0.0, 0.0), Vec3(0.0, 1.0, 0.0), Vec3(0.0, 0.0, 1.0);
    assert MultiplyVector(a, o) == MultiplyVector(b, o);
    assert MultiplyVector(a, ex) == MultiplyVector(b, ex);
    assert MultiplyVector(a, ey) == MultiplyVector(b, ey);
    assert MultiplyVector(a, ez) == MultiplyVector(b, ez);
  }

  /** Composition of matrices is associative. */
  lemma MultiplyAssociative(a: Matrix, b: Matrix, c: Matrix)
    ensures MultiplyMatrix(MultiplyMatrix(a, b), c) == MultiplyMatrix(a, MultiplyMatrix(b, c))
  {
    var left, right := MultiplyMatrix(MultiplyMatrix(a, b), c), MultiplyMatrix(a, MultiplyMatrix(b, c));
    forall v
      ensures MultiplyVector(left, v) == MultiplyVector(right, v)
    {
      calc {
        MultiplyVector(left, v);
        { MultiplyMatrixApplies(MultiplyMatrix(a, b), c, v); }
        MultiplyVector(MultiplyMatrix(a, b), MultiplyVector(c, v));
        { MultiplyMatrixApplies(a, b, MultiplyVector(c, v)); }
        MultiplyVector(a, MultiplyVector(b, MultiplyVector(c, v)));
        { MultiplyMatrixApplies(b, c, v); }
        MultiplyVector(a, MultiplyVector(MultiplyMatrix(b, c), v));
        { MultiplyMatrixApplies(a, MultiplyMatrix(b, c), v); }
        MultiplyVector(right, v);
      }
    }
    Extensionality(left, right);
  }

  /** The identity matrix is neutral for composition and fixes every point. */
  lemma IdentityNeutral(a: Matrix, v: Vec3)
    ensures MultiplyVector(Identity, v) == v
    ensures MultiplyMatrix(Identity, a) == a && MultiplyMatrix(a, Identity) == a
  {
  }

  /** `multiply`, overloaded on its argument: a `Matrix` gives the composition,
      a `Vector3` gives the transformed point, anything else is an error. */
  function Multiply(a: Matrix, m: Operand): (r: Result<Operand>)
    ensures r.Ok? <==> m.Affine? || m.Vector?
    ensures r.Err? ==> r.error == MultiplyArgument
    ensures m.Affine? ==> r.value.Affine? && forall v :: MultiplyVector(r.value.mat, v) == MultiplyVector(a, MultiplyVector(m.mat, v))
    ensures m.Vector? ==> r.value.Vector? && r.value.vec == MultiplyVector(a, m.vec)
  {
    match m
    case Affine(b) =>
      MultiplyMatrixAppliesAll(a, b);
      Ok(Affine(MultiplyMatrix(a, b)))
    case Vector(v) => Ok(Vector(MultiplyVector(a, v)))
    case _ => Err(MultiplyArgument)
  }

  /** `A.multiply(B).multiply(v)` equals `A.multiply(B.multiply(v))`: the right
      operand of a product is applied first. */
  lemma MultiplyThenApply(a: Matrix, b: Matrix, v: Vec3)
    ensures Multiply(a, Affine(b)).Ok? && Multiply(b, Vector(v)).Ok?
    ensures Multiply(Multiply(a, Affine(b)).value.mat, Vector(v)) == Multiply(a, Multiply(b, Vector(v)).value)
  {
  }

  // ---------------------------------------------------------------------------
  // fromScale

  /** Component-wise product (not an operation of the library). */
  function Stretch(s: Vec3, v: Vec3): Vec3 {
    Vec3(s.x * v.x, s.y * v.y, s.z * v.z)
  }

  /** `fromScale`: a number scales uniformly, a `Vector3` per axis; the
      translation is zero. Any other argument is an error. */
  function FromScale(s: Operand): (r: Result<Matrix>)
    ensures r.Ok? <==> s.Number? || s.Vector?
    ensures r.Err? ==> r.error == ScaleArgument
    ensures s.Number? ==> forall v :: MultiplyVector(r.value, v) == Scale(s.num, v)
    ensures s.Vector? ==> forall v :: MultiplyVector(r.value, v) == Stretch(s.vec, v)
  {
    match s
    case Number(k) =>
      Ok(Matrix(k, 0.0, 0.0, 0.0,
                0.0, k, 0.0, 0.0,
                0.0, 0.0, k, 0.0))
    case Vector(d) =>
      Ok(Matrix(d.x, 0.0, 0.0, 0.0,
                0.0, d.y, 0.0, 0.0,
                0.0, 0.0, d.z, 0.0))
    case _ => Err(ScaleArgument)
  }

  /** A number `s` gives the same matrix as the vector `(s, s, s)`. */
  lemma FromScaleUniform(s: real)
    ensures FromScale(Number(s)) == FromScale(Vector(Vec3(s, s, s)))
  {
  }

  /** `fromScale(1)` is the identity: it leaves every point where it is. */
  lemma FromScaleOne(v: Vec3)
    ensures FromScale(Number(1.0)) == Ok(Identity)
    ensures MultiplyVector(FromScale(Number(1.0)).value, v) == v
  {
  }

  // ---------------------------------------------------------------------------
  // fromRotation

  /** Rotation by angle `a` about the x axis. */
  function RotationX(a: real, m: MathLib): Matrix {
    var c, s := m.cos(a), m.sin(a);
    Matrix(1.0, 0.0, 0.0, 0.0,
           0.0, c, -s, 0.0,
           0.0, s, c, 0.0)
  }

  /** Rotation by angle `a` about the y axis. */
  function RotationY(a: real, m: MathLib): Matrix {
    var c, s := m.cos(a), m.sin(a);
    Matrix(c, 0.0, s, 0.0,
           0.0, 1.0, 0.0, 0.0,
           -s, 0.0, c, 0.0)
  }

  /** Rotation by angle `a` about the z axis. */
  function RotationZ(a: real, m: MathLib): Matrix {
    var c, s := m.cos(a), m.sin(a);
    Matrix(c, -s, 0.0, 0.0,
           s, c, 0.0, 0.0,
           0.0, 0.0, 1.0, 0.0)
  }

  /** `fromRotation`: the closed form of the extrinsic Euler rotation that turns
      about z first, then x, then y (angles `r.z`, `r.x`, `r.y`), with zero
      translation. Any argument other than a `Vector3` is an error. */
  function FromRotation(r: Operand, m: MathLib): (res: Result<Matrix>)
    ensures res.Ok? <==> r.Vector?
    ensures res.Err? ==> res.error == RotationArgument
    ensures res.Ok? ==> res.value == MultiplyMatrix(RotationY(r.vec.y, m), MultiplyMatrix(RotationX(r.vec.x, m), RotationZ(r.vec.z, m)))
  {
    match r
    case Vector(a) =>
      var sx, cx := m.sin(a.x), m.cos(a.x);
      var sy, cy := m.sin(a.y), m.cos(a.y);
      var sz, cz := m.sin(a.z), m.cos(a.z);
      Ok(Matrix(cy * cz + sy * sx * sz,
                cz * sy * sx - cy * sz,
                cx * sy,
                0.0,
                cx * sz,
                cx * cz,
                -sx,
                0.0,
                cy * sx * sz - cz * sy,
                sy * sz + cy * cz * sx,
                cy * cx,
                0.0))
    case _ => Err(RotationArgument)
  }

  /** Each elementary rotation keeps the squared length of every vector. */
  lemma RotationXPreserves(a: real, m: MathLib, v: Vec3)
    requires TrigSound(m)
    ensures Dot(MultiplyVector(RotationX(a, m), v), MultiplyVector(RotationX(a, m), v)) == Dot(v, v)
  {
    var c, s := m.cos(a), m.sin(a);
    var w := MultiplyVector(RotationX(a, m), v);
    assert Dot(w, w) == v.x * v.x + Mul(Sq(s) + Sq(c), v.y * v.y + v.z * v.z);
  }

  lemma RotationYPreserves(a: real, m: MathLib, v: Vec3)
    requires TrigSound(m)
    ensures Dot(MultiplyVector(RotationY(a, m), v), MultiplyVector(RotationY(a, m), v)) == Dot(v, v)
  {
    var c, s := m.cos(a), m.sin(a);
    var w := MultiplyVector(RotationY(a, m), v);
    assert Dot(w, w) == v.y * v.y + Mul(Sq(s) + Sq(c), v.x * v.x + v.z * v.z);
  }

  lemma RotationZPreserves(a: real, m: MathLib, v: Vec3)
    requires TrigSound(m)
    ensures Dot(MultiplyVector(RotationZ(a, m), v), MultiplyVector(RotationZ(a, m), v)) == Dot(v, v)
  {
    var c, s := m.cos(a), m.sin(a);
    var w := MultiplyVector(RotationZ(a, m), v);
    assert Dot(w, w) == v.z * v.z + Mul(Sq(s) + Sq(c), v.x * v.x + v.y * v.y);
  }

  /** A rotation matrix preserves the length of every vector and fixes the origin. */
  lemma FromRotationPreservesLength(r: Vec3, m: MathLib, v: Vec3)
    requires TrigSound(m)
    ensures FromRotation(Vector(r), m).Ok?
    ensures Length(MultiplyVector(FromRotation(Vector(r), m).value, v), m) == Length(v, m)
    ensures MultiplyVector(FromRotation(Vector(r), m).value, Zero) == Zero
  {
    var rx, ry, rz := RotationX(r.x, m), RotationY(r.y, m), RotationZ(r.z, m);
    var v1 := MultiplyVector(rz, v);
    var v2 := MultiplyVector(rx, v1);
    var v3 := MultiplyVector(ry, v2);
    RotationZPreserves(r.z, m, v);
    RotationXPreserves(r.x, m, v1);
    RotationYPreserves(r.y, m, v2);
    MultiplyMatrixApplies(rx, rz, v);
    MultiplyMatrixApplies(ry, MultiplyMatrix(rx, rz), v);
    assert MultiplyVector(FromRotation(Vector(r), m).value, v) == v3;
    assert Dot(v3, v3) == Dot(v, v);
    LengthOfDot(v3, v, m);
  }

  // ---------------------------------------------------------------------------
  // fromTranslation

  /** `fromTranslation`: identity linear part, translation `t`, so a point is
      moved by `t`. Any argument other than a `Vector3` is an error. */
  function FromTranslation(t: Operand): (r: Result<Matrix>)
    ensures r.Ok? <==> t.Vector?
    ensures r.Err? ==> r.error == TranslationArgument
    ensures t.Vector? ==> forall v :: MultiplyVector(r.value, v) == Add(v, t.vec)
  {
    match t
    case Vector(d) =>
      Ok(Matrix(1.0, 0.0, 0.0, d.x,
                0.0, 1.0, 0.0, d.y,
                0.0, 0.0, 1.0, d.z))
    case _ => Err(TranslationArgument)
  }

  /** Translations compose by adding their offsets, and the opposite offset undoes one. */
  lemma TranslationsCompose(s: Vec3, t: Vec3)
    ensures MultiplyMatrix(FromTranslation(Vector(s)).value, FromTranslation(Vector(t)).value)
         == FromTranslation(Vector(Add(s, t))).value
    ensures MultiplyMatrix(FromTranslation(Vector(t)).value, FromTranslation(Vector(Neg(t))).value) == Identity
  {
  }

  // ---------------------------------------------------------------------------
  // lookAt

  /** The inputs `lookAt` is meant for: the target is not the eye, and `up`
      is not parallel to the line of sight. `LookAtDivisors` shows these are
      exactly the inputs for which it divides by no zero length. */
  predicate LookAtDefined(eye: Vec3, target: Vec3, up: Vec3) {
    target != eye && Cross(up, Subtract(target, eye)) != Zero
  }

  /** The camera's forward axis `z`: the unit direction from the eye to the target. */
  function Forward(eye: Vec3, target: Vec3, m: MathLib): Vec3
    requires SqrtSound(m) && target != eye
  {
    SubtractZeroIff(target, eye);
    LengthZeroIff(Subtract(target, eye), m);
    Normalize(Subtract(target, eye), m)
  }

  /** The camera's right axis `x`: `up × z`, normalized. */
  function Right(eye: Vec3, target: Vec3, up: Vec3, m: MathLib): Vec3
    requires SqrtSound(m) && LookAtDefined(eye, target, up)
  {
    LookAtDivisors(eye, target, up, m);
    Normalize(Cross(up, Forward(eye, target, m)), m)
  }

  /** The camera's computed up axis `y`: `z × x`. */
  function CameraUp(eye: Vec3, target: Vec3, up: Vec3, m: MathLib): Vec3
    requires SqrtSound(m) && LookAtDefined(eye, target, up)
  {
    Cross(Forward(eye, target, m), Right(eye, target, up, m))
  }

  /** The world-to-camera rotation: its rows are the camera axes, so it maps a
      vector to its coordinates along right, up and forward. */
  function Orientation(eye: Vec3, target: Vec3, up: Vec3, m: MathLib): (r: Matrix)
    requires SqrtSound(m) && LookAtDefined(eye, target, up)
    ensures forall u :: MultiplyVector(r, u) == Vec3(Dot(Right(eye, target, up, m), u),
                                                   Dot(CameraUp(eye, target, up, m), u),
                                                   Dot(Forward(eye, target, m), u))
  {
    var z := Forward(eye, target, m);
    var x := Right(eye, target, up, m);
    var y := CameraUp(eye, target, up, m);
    Matrix(x.x, x.y, x.z, 0.0,
           y.x, y.y, y.z, 0.0,
           z.x, z.y, z.z, 0.0)
  }

  /** `lookAt`: the orientation composed with the translation by `-eye`, so a
      point is first shifted by `-eye` and then rotated; the eye goes to the origin. */
  function LookAt(eye: Vec3, target: Vec3, up: Vec3, m: MathLib): (r: Matrix)
    requires SqrtSound(m) && LookAtDefined(eye, target, up)
    ensures forall v :: MultiplyVector(r, v) == MultiplyVector(Orientation(eye, target, up, m), Subtract(v, eye))
    ensures MultiplyVector(r, eye) == Zero
  {
    var orientation := Orientation(eye, target, up, m);
    var translation := Matrix(1.0, 0.0, 0.0, -eye.x,
                              0.0, 1.0, 0.0, -eye.y,
                              0.0, 0.0, 1.0, -eye.z);
    Multiply(orientation, Affine(translation)).value.mat
  }

  /** With a sound `sqrt`, the two lengths `lookAt` divides by are non-zero
      exactly on the inputs it is meant for. */
  lemma LookAtDivisors(eye: Vec3, target: Vec3, up: Vec3, m: MathLib)
    requires SqrtSound(m)
    ensures (&& Length(Subtract(target, eye), m) != 0.0
             && Length(Cross(up, Normalize(Subtract(target, eye), m)), m) != 0.0)
        <==> LookAtDefined(eye, target, up)
  {
    var d := Subtract(target, eye);
    SubtractZeroIff(target, eye);
    LengthZeroIff(d, m);
    if target != eye {
      CrossNormalizeZero(up, d, m);
      LengthZeroIff(Cross(up, Normalize(d, m)), m);
    }
  }

  /** Normalizing the second operand does not change whether `cross` vanishes. */
  lemma CrossNormalizeZero(up: Vec3, d: Vec3, m: MathLib)
    requires SqrtSound(m) && Length(d, m) != 0.0
    ensures Cross(up, Normalize(d, m)) == Zero <==> Cross(up, d) == Zero
  {
    var len := Length(d, m);
    var z := Normalize(d, m);
    CrossScale(up, len, z);
    ScaleZero(len, Cross(up, z));
  }

  /** The forward axis is a unit vector, and stretching it by the distance
      from the eye to the target gives back the line of sight. */
  lemma ForwardUnit(eye: Vec3, target: Vec3, m: MathLib)
    requires SqrtSound(m) && target != eye
    ensures Dot(Forward(eye, target, m), Forward(eye, target, m)) == 1.0
    ensures Scale(Length(Subtract(target, eye), m), Forward(eye, target, m)) == Subtract(target, eye)
  {
    SubtractZeroIff(target, eye);
    LengthZeroIff(Subtract(target, eye), m);
    NormalizeUnitLength(Subtract(target, eye), m);
  }

  /** The right axis is a unit vector orthogonal to the forward axis. */
  lemma RightUnit(eye: Vec3, target: Vec3, up: Vec3, m: MathLib)
    requires SqrtSound(m) && LookAtDefined(eye, target, up)
    ensures Dot(Right(eye, target, up, m), Right(eye, target, up, m)) == 1.0
    ensures Dot(Forward(eye, target, m), Right(eye, target, up, m)) == 0.0
  {
    var z := Forward(eye, target, m);
    var c := Cross(up, z);
    var x := Right(eye, target, up, m);
    LookAtDivisors(eye, target, up, m);
    NormalizeUnitLength(c, m);
    var len := Length(c, m);
    DotScale(len, z, x);
    CrossOrthogonal(up, z);
    assert Mul(len, Dot(z, x)) == Dot(z, c) == 0.0;
    MulZero(len, Dot(z, x));
  }

  /** The three camera axes are unit vectors and pairwise orthogonal. */
  lemma LookAtOrthonormal(eye: Vec3, target: Vec3, up: Vec3, m: MathLib)
    requires SqrtSound(m) && LookAtDefined(eye, target, up)
    ensures Dot(Right(eye, target, up, m), Right(eye, target, up, m)) == 1.0
    ensures Dot(CameraUp(eye, target, up, m), CameraUp(eye, target, up, m)) == 1.0
    ensures Dot(Forward(eye, target, m), Forward(eye, target, m)) == 1.0
    ensures Dot(Right(eye, target, up, m), CameraUp(eye, target, up, m)) == 0.0
    ensures Dot(CameraUp(eye, target, up, m), Forward(eye, target, m)) == 0.0
    ensures Dot(Forward(eye, target, m), Right(eye, target, up, m)) == 0.0
  {
    var z := Forward(eye, target, m);
    var x := Right(eye, target, up, m);
    ForwardUnit(eye, target, m);
    RightUnit(eye, target, up, m);
    CrossOrthogonal(z, x);
    CrossSquaredLength(z, x);
  }

  /** The camera sees the target straight ahead: `lookAt` maps it onto the
      forward axis, at its distance from the eye. */
  lemma LookAtTargetOnAxis(eye: Vec3, target: Vec3, up: Vec3, m: MathLib)
    requires SqrtSound(m) && LookAtDefined(eye, target, up)
    ensures MultiplyVector(LookAt(eye, target, up, m), target) == Vec3(0.0, 0.0, Length(Subtract(target, eye), m))
  {
    var d := Subtract(target, eye);
    var len := Length(d, m);
    var z := Forward(eye, target, m);
    var x := Right(eye, target, up, m);
    var y := CameraUp(eye, target, up, m);
    LookAtOrthonormal(eye, target, up, m);
    ForwardUnit(eye, target, m);
    DotScale(len, x, z);
    DotScale(len, y, z);
    DotScale(len, z, z);
    assert Dot(x, d) == Mul(len, Dot(x, z));
    assert Dot(y, d) == Mul(len, Dot(y, z));
    assert Dot(z, d) == Mul(len, Dot(z, z));
  }

  /** The camera-space depth of a point is its offset from the target along
      the line of sight plus the distance from the eye to the target. */
  lemma LookAtDepth(eye: Vec3, target: Vec3, up: Vec3, m: MathLib, v: Vec3)
    requires SqrtSound(m) && LookAtDefined(eye, target, up)
    ensures MultiplyVector(LookAt(eye, target, up, m), v).z
         == Dot(Forward(eye, target, m), Subtract(v, target)) + Length(Subtract(target, eye), m)
  {
    var d := Subtract(target, eye);
    var len := Length(d, m);
    var z := Forward(eye, target, m);
    ForwardUnit(eye, target, m);
    DotScale(len, z, z);
    assert Subtract(v, eye) == Add(Subtract(v, target), d);
    assert Dot(z, Add(Subtract(v, target), d)) == Dot(z, Subtract(v, target)) + Dot(z, d);
  }
}
