# frequency-sphere: 3D math and projection, modelled in Dafny

The renderer draws a sphere of points on a 2D canvas. It does this with a small
hand-written 3D library in `script.js`:

- `Vector3`, with `length`, `normalize`, `add`, `subtract` and `cross`;
- `Matrix`, an affine transform with a 3×3 linear part and a translation. It is
  built by `fromScale`, `fromRotation`, `fromTranslation` and `lookAt`, and combined
  with the overloaded `multiply`;
- the perspective pipeline: `project` divides by the camera-space depth using the
  constants `g`, `h` and `l`, and `pointToScreen` chains the camera matrix,
  `project` and a fixed map to canvas pixels and a square size.

Everything is modelled over Dafny's `real`:

- `Vec3`, `Matrix` (fields in the constructor's positional order) and `Lens` (near
  plane, far plane, focal length) are datatypes.
- Every operation is a function.
- The properties are function postconditions and lemmas.
- The arguments that `fromScale`, `fromRotation`, `fromTranslation` and `multiply`
  inspect at run time form the sum type `Operand`: `Number | Vector | Affine |
  OtherValue`.
- Each thrown error becomes `Err` of a `Result`. `Message` carries the error's
  text.
- `Math.sqrt`, `Math.sin` and `Math.cos` are the fields of a `MathLib` value, passed
  as a parameter. The lemmas that depend on what they compute require
  `SqrtSound` (`sqrt` returns the non-negative root) or `TrigSound`
  (`sin² + cos² = 1`).
- The page's globals (`camera`, `n`, `f`, `e`, `l`, canvas width and height) are
  parameters.

Modules, in dependency order:

- `RealArith` (`real_arith.dfy`): sign and cancellation facts about products and
  quotients.
- `HostMath` (`host_math.dfy`): `MathLib` and the facts about `sqrt`.
- `Vectors` (`vector3.dfy`).
- `Matrices` (`matrix.dfy`).
- `Projection` (`projection.dfy`).
- `Scene` (`scene.dfy`): the settings of `script.js:164-168`, the camera of
  `script.js:191`, and what `pointToScreen` does with them.

## Model

| member | source | states |
|---|---|---|
| Vectors.Length | script.js:18-20 | with a sound `sqrt`, the length is non-negative and its square is the vector's dot product with itself |
| Vectors.LengthZeroIff | script.js:18-20 | with a sound `sqrt`, the length is zero exactly for the zero vector |
| Vectors.Normalize | script.js:21-28 | the normalized vector stretched by the original length gives back the original vector |
| Vectors.NormalizeUnitLength | script.js:21-28 | with a sound `sqrt`, a normalized vector has squared length 1 and length 1 |
| Vectors.Add | script.js:29-35 | no contract of its own: component-wise sum; `SubtractAdd` and `AddSubtractCancel` show it is the inverse of `Subtract` |
| Vectors.Subtract | script.js:36-42 | no contract of its own: component-wise difference; `SubtractAdd`, `AddSubtractCancel`, `SubtractSelf` and `SubtractZeroIff` give its meaning |
| Vectors.SubtractAdd | script.js:29-42 | `a.subtract(b)` added to `b` is `a`, and it equals `a` plus the negation of `b` |
| Vectors.AddSubtractCancel | script.js:29-42 | adding `b` and then subtracting `b` returns the original vector |
| Vectors.SubtractSelf | script.js:36-42 | `a.subtract(a)` is the zero vector |
| Vectors.SubtractZeroIff | script.js:36-42 | a difference is the zero vector exactly when the two vectors are equal |
| Vectors.Cross | script.js:43-49 | no contract of its own: the cross product; `CrossOrthogonal`, `CrossAntiCommutative`, `CrossScale` and `CrossSquaredLength` give its meaning |
| Vectors.CrossOrthogonal | script.js:43-49 | `a.cross(b)` is orthogonal to both `a` and `b` |
| Vectors.CrossAntiCommutative | script.js:43-49 | `a.cross(b)` is the negation of `b.cross(a)` |
| Vectors.CrossScale | script.js:43-49 | `cross` is linear in its second operand: scaling `b` by `k` scales `a.cross(b)` by `k` |
| Vectors.CrossSquaredLength | script.js:43-49 | Lagrange's identity: the squared length of `a.cross(b)` is `|a|²|b|² − (a·b)²` |
| Vectors.CauchySchwarz | script.js:43-49 | from Lagrange's identity for `cross`: the squared dot product is at most the product of the squared lengths |
| Vectors.DotUnitBound | script.js:18-28 | a unit vector, as `normalize` gives, has a dot product in `[−1, 1]` with every vector of squared length at most 1 |
| Matrices.MultiplyMatrix | script.js:134-149 | no contract of its own: the twelve entries of the Matrix branch; `MultiplyMatrixApplies` and `MultiplyAssociative` give its meaning |
| Matrices.MultiplyVector | script.js:150-156 | no contract of its own: the Vector3 branch, `A·v + t`; `MultiplyVectorAffine`, `MultiplyMatrixApplies` and `IdentityNeutral` give its meaning |
| Matrices.Message | script.js:158 | no contract of its own: the text each error carries, as thrown at script.js lines 81, 102, 113 and 158 |
| Matrices.MultiplyMatrixApplies | script.js:134-156 | the matrix product applied to a point equals applying the right operand first and then the left one |
| Matrices.MultiplyVectorAffine | script.js:150-156 | applying a matrix sends the origin to its translation and moves the difference of two points by the linear part alone |
| Matrices.MultiplyAssociative | script.js:134-149 | matrix × matrix multiplication is associative |
| Matrices.IdentityNeutral | script.js:134-156 | the identity matrix fixes every point and is a two-sided unit of the product |
| Matrices.Multiply | script.js:133-159 | `multiply` succeeds exactly for a Matrix or a Vector3 operand; a Matrix gives a matrix that acts as the composition, a Vector3 gives the transformed point; any other operand is the "Can only multiply" error |
| Matrices.MultiplyThenApply | script.js:133-159 | `A.multiply(B).multiply(v)` equals `A.multiply(B.multiply(v))` |
| Matrices.FromScale | script.js:65-82 | `fromScale` succeeds exactly for a number or a Vector3; a number `s` gives a matrix that scales every point by `s`, a Vector3 one that scales each axis by its component; any other argument is the "Scale needs" error |
| Matrices.FromScaleUniform | script.js:65-79 | a number `s` gives the same matrix as `Vector3(s, s, s)` |
| Matrices.FromScaleOne | script.js:66-72 | `fromScale(1)` is the identity matrix and fixes every point |
| Matrices.FromRotation | script.js:83-103 | `fromRotation` succeeds exactly for a Vector3; its closed-form entries equal the product `Ry·Rx·Rz` of the elementary rotations, which is the extrinsic rotation about z, then x, then y; any other argument is the "Rotation needs" error |
| Matrices.FromRotationPreservesLength | script.js:83-100 | with `sin² + cos² = 1`, a rotation matrix keeps the length of every vector and fixes the origin |
| Matrices.FromTranslation | script.js:104-114 | `fromTranslation` succeeds exactly for a Vector3 `t`, and then sends every point `v` to `v.add(t)`; any other argument is the "Translation needs" error |
| Matrices.TranslationsCompose | script.js:104-111 | composing translations adds their offsets, and translating by `t` and then by `−t` gives the identity |
| Matrices.Orientation | script.js:116-124 | the orientation matrix maps a vector to its dot products with the right, up and forward axes |
| Matrices.LookAt | script.js:115-132 | `lookAt` sends every point `v` to the orientation applied to `v.subtract(eye)`, so the eye goes to the origin |
| Matrices.LookAtDivisors | script.js:116-118 | with a sound `sqrt`, the two lengths `lookAt` divides by are non-zero exactly when the target differs from the eye and `up` is not parallel to the line of sight |
| Matrices.Forward | script.js:116 | no contract of its own: `target.subtract(eye).normalize()`; `ForwardUnit` shows it is a unit vector along the line of sight |
| Matrices.Right | script.js:117 | no contract of its own: `up.cross(z).normalize()`; `RightUnit` shows it is a unit vector orthogonal to `z` |
| Matrices.CameraUp | script.js:118 | no contract of its own: `z.cross(x)`; `LookAtOrthonormal` shows it is a unit vector orthogonal to `x` and `z` |
| Matrices.ForwardUnit | script.js:116 | the forward axis `z` is a unit vector, and stretched by the eye-to-target distance it is the line of sight |
| Matrices.RightUnit | script.js:117 | the right axis `x` is a unit vector orthogonal to `z` |
| Matrices.LookAtOrthonormal | script.js:116-124 | the axes `x`, `y`, `z` of `lookAt` are unit vectors and pairwise orthogonal |
| Matrices.LookAtTargetOnAxis | script.js:115-132 | `lookAt` puts the target on the forward axis, at its distance from the eye |
| Matrices.LookAtDepth | script.js:115-132 | a point's camera-space depth is its offset from the target along the line of sight plus the eye-to-target distance |
| Projection.DepthScale | script.js:172 | no contract of its own: `g = (f + n) / (f − n)`; `DepthEquation` and `ProjectNearFar` give its meaning |
| Projection.DepthOffset | script.js:173 | no contract of its own: `h = 2fn / (f − n)`; `DepthEquation` and `ProjectNearFar` give its meaning |
| Projection.VerticalFocal | script.js:181-182 | `l = −e / ratio` with `ratio = height / width` satisfies `height · l = −e · width` |
| Projection.DepthEquation | script.js:172-173 | the depth `g − h/z` is the unique `d` with `(f − n)·z·d = (f + n)·z − 2fn` |
| Projection.Project | script.js:194-200 | the projected `x` and `y` solve `z·x' = e·x` and `z·y' = l·y`, and the depth solves the equation of `DepthEquation` |
| Projection.ProjectNearFar | script.js:194-200 | for `n ≠ f` and non-zero `n` and `f`, a point at `z = n` gets depth −1 and one at `z = f` gets depth +1 |
| Projection.ProjectDepthMonotone | script.js:194-200 | for `0 < n < f`, depth increases strictly with `z` in front of the camera |
| Projection.ProjectDepthInRange | script.js:194-200 | for `0 < n < f` and `z > 0`, the depth lies in `[−1, 1]` exactly when `n ≤ z ≤ f` |
| Projection.ProjectAlongRay | script.js:194-200 | points on one line of sight through the eye project to the same `x` and `y` |
| Projection.ToScreen | script.js:211-215 | the square size `6 − 4·(0.5·d + 0.5)` lies in `[2, 6]` exactly when `d ∈ [−1, 1]`: 6 at `d = −1`, 2 at `d = 1`; the frustum origin lands at the canvas centre |
| Projection.ToScreenSizeDecreasing | script.js:214 | a deeper point is drawn as a smaller square |
| Projection.PointToScreen | script.js:202-218 | with `c` the camera-space point, the pixel offsets from the canvas centre are `0.7·e·width·c.x/c.z` and `−0.5·e·width·c.y/c.z`, and the square size is `4 − 2d` for the projected depth `d`; for `0 < n < f` and `c.z > 0` the size is in `[2, 6]` exactly when `c` lies between the near and far planes |
| Projection.ScreenOffsets | script.js:211-213 | the pixel offsets from the canvas centre are `0.7·e·width·x/z` horizontally and `−0.5·e·width·y/z` vertically |
| Projection.ScreenOrientation | script.js:211-213 | in front of the camera, a point above the line of sight is drawn above the centre and one to its right to the right of the centre, and conversely |
| Scene.CameraDefined | script.js:191 | the scene's eye, target and up satisfy what `lookAt` needs |
| Scene.Camera | script.js:191 | no contract of its own: `lookAt(eye, (0, 0, 0), (0, 1, 0))`, whose preconditions `CameraDefined` discharges; `TargetAtCentre` and `BallInFront` state what it does |
| Scene.TargetDistance | script.js:164-168 | the eye is `√176` from the target, between 13 and 14 |
| Scene.TargetAtCentre | script.js:191-218 | the target is drawn at the canvas centre; it lies beyond the far plane `f = 13`, so its square is smaller than 2 pixels |
| Scene.BallInFront | script.js:202-218 | every point within distance 1 of the target has camera-space depth in `(12, 15)`, beyond the near plane, and is drawn with a square size in `(0, 6)` |

## Left out

- Canvas setup, `onResize`'s side effects, `fillRect` drawing and `console.log` tracing: browser I/O. The values `onResize` computes (`ratio`, `l`) are modelled by `Projection.VerticalFocal`.
- The `setInterval` animation loop, including the fading of the pixel buffer and the sampling of the sphere ring: timer-driven presentation code on floating-point pixel data.
- The colour string of `renderPoint`: presentation only.
- `Vector2`: never used.
- IEEE double rounding, NaN and Infinity: arithmetic is over exact reals. The degenerate inputs that produce NaN or Infinity are preconditions, listed below.
- The numeric values of `Math.sqrt`, `Math.sin` and `Math.cos`: they are parameters. No claim is made about the entries of a concrete rotation.
- Vectors.Length: holds only for a `sqrt` that returns the non-negative square root (`SqrtSound`), which is all the library relies on.
- Vectors.Normalize: requires a non-zero length. Normalizing the zero vector divides by zero, giving NaN components in the library.
- Matrices.LookAt: requires `SqrtSound` and that the target differs from the eye and `up` is not parallel to the line of sight. Otherwise `normalize` divides by zero. `Matrices.LookAtDivisors` shows these are exactly the inputs without a zero divisor.
- Matrices.FromRotationPreservesLength: requires `sin² + cos² = 1` (`TrigSound`).
- Projection.Project: requires `z ≠ 0` and `n ≠ f`. The library divides by both.
- Projection.VerticalFocal: requires a canvas of non-zero width and height. Otherwise `ratio` or `e / ratio` divides by zero.
- Projection.PointToScreen: requires a non-zero camera-space depth and the preconditions of `Project` and `VerticalFocal`.
- The run-time kind checks (`typeof`, `instanceof`) are modelled by the constructors of `Operand`. A Vector3-like object that is not a `Vector3`, or a subclass, is not distinguished.
