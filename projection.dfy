/** The perspective projection and the mapping to canvas pixels that the
    renderer applies to every point. */
module Projection {
  import opened RealArith
  import opened Vectors
  import opened Matrices

  /** The user settings of the view frustum: distances to the near and far
      planes and the focal length `1 / tan(FOV / 2)`. */
  datatype Lens = Lens(near: real, far: real, focal: real)

  /** `g`, fixed at start-up. */
  function DepthScale(lens: Lens): real
    requires lens.near != lens.far
  {
    (lens.far + lens.near) / (lens.far - lens.near)
  }

  /** `h`, fixed at start-up. */
  function DepthOffset(lens: Lens): real
    requires lens.near != lens.far
  {
    (2.0 * lens.far * lens.near) / (lens.far - lens.near)
  }

  /** `l`, recomputed on every resize from the aspect ratio `height / width`:
      the vertical scale is the focal length stretched to the width and negated,
      because canvas rows grow downwards. */
  function VerticalFocal(lens: Lens, width: real, height: real): (l: real)
    requires width != 0.0 && height != 0.0
    ensures Mul(height, l) == -Mul(lens.focal, width)
  {
    var ratio := height / width;
    DivIff(height, width, ratio);
    MulZero(width, ratio);
    DivIff(-lens.focal, ratio, -lens.focal / ratio);
    assert Mul(height, -lens.focal / ratio) == Mul(width, Mul(ratio, -lens.focal / ratio));
    -lens.focal / ratio
  }

  /** The depth `g - h/z` is the one value `d` with `(f - n)·z·d = (f + n)·z - 2fn`. */
  lemma DepthEquation(lens: Lens, z: real, d: real)
    requires lens.near != lens.far && z != 0.0
    ensures DepthScale(lens) - DepthOffset(lens) / z == d
        <==> Mul(Mul(lens.far - lens.near, z), d) == Mul(lens.far + lens.near, z) - 2.0 * lens.far * lens.near
  {
    var n, f := lens.near, lens.far;
    var q := f - n;
    var g, h := DepthScale(lens), DepthOffset(lens);
    DivIff(f + n, q, g);
    DivIff(2.0 * f * n, q, h);
    DivIff(h, z, h / z);
    assert Mul(Mul(q, z), g - h / z) == Mul(z, Mul(q, g)) - Mul(q, Mul(z, h / z));
    MulZero(q, z);
    DivIff(Mul(f + n, z) - 2.0 * f * n, Mul(q, z), d);
    DivIff(Mul(f + n, z) - 2.0 * f * n, Mul(q, z), g - h / z);
  }

  /** `project`: the perspective divide of a camera-space point into the view
      frustum. `x` and `y` are the focal lengths times the slopes `x/z` and
      `y/z`; the depth solves the equation of `DepthEquation`. */
  function Project(lens: Lens, l: real, v: Vec3): (r: Vec3)
    requires lens.near != lens.far && v.z != 0.0
    ensures Mul(v.z, r.x) == Mul(lens.focal, v.x)
    ensures Mul(v.z, r.y) == Mul(l, v.y)
    ensures Mul(Mul(lens.far - lens.near, v.z), r.z)
         == Mul(lens.far + lens.near, v.z) - 2.0 * lens.far * lens.near
  {
    var r := Vec3(lens.focal * v.x / v.z, l * v.y / v.z, DepthScale(lens) - DepthOffset(lens) / v.z);
    DivIff(lens.focal * v.x, v.z, r.x);
    DivIff(l * v.y, v.z, r.y);
    DepthEquation(lens, v.z, r.z);
    r
  }

  /** The near plane goes to depth -1 and the far plane to depth +1. */
  lemma ProjectNearFar(lens: Lens, l: real, x: real, y: real)
    requires lens.near != lens.far && lens.near != 0.0 && lens.far != 0.0
    ensures Project(lens, l, Vec3(x, y, lens.near)).z == -1.0
    ensures Project(lens, l, Vec3(x, y, lens.far)).z == 1.0
  {
    var n, f := lens.near, lens.far;
    var q := f - n;
    MulZero(q, n);
    MulZero(q, f);
    assert Mul(f + n, n) - 2.0 * f * n == Mul(Mul(q, n), -1.0);
    assert Mul(f + n, f) - 2.0 * f * n == Mul(Mul(q, f), 1.0);
    Cancel(Mul(q, n), Project(lens, l, Vec3(x, y, n)).z, -1.0);
    Cancel(Mul(q, f), Project(lens, l, Vec3(x, y, f)).z, 1.0);
  }

  /** In front of the camera, depth grows strictly with distance. */
  lemma ProjectDepthMonotone(lens: Lens, l: real, v: Vec3, w: Vec3)
    requires 0.0 < lens.near < lens.far && 0.0 < v.z < w.z
    ensures Project(lens, l, v).z < Project(lens, l, w).z
  {
    var h := DepthOffset(lens);
    assert 0.0 < h;
    assert h / w.z < h / v.z;
  }

  /** A point in front of the camera gets a depth in `[-1, 1]` exactly when it
      lies between the near and the far plane. */
  lemma ProjectDepthInRange(lens: Lens, l: real, v: Vec3)
    requires 0.0 < lens.near < lens.far && 0.0 < v.z
    ensures -1.0 <= Project(lens, l, v).z <= 1.0 <==> lens.near <= v.z <= lens.far
  {
    var nearPoint, farPoint := Vec3(v.x, v.y, lens.near), Vec3(v.x, v.y, lens.far);
    ProjectNearFar(lens, l, v.x, v.y);
    if v.z < lens.near {
      ProjectDepthMonotone(lens, l, v, nearPoint);
    } else if lens.near < v.z {
      ProjectDepthMonotone(lens, l, nearPoint, v);
    }
    if v.z < lens.far {
      ProjectDepthMonotone(lens, l, v, farPoint);
    } else if lens.far < v.z {
      ProjectDepthMonotone(lens, l, farPoint, v);
    }
  }

  /** Points on one line of sight through the eye project to the same spot. */
  lemma ProjectAlongRay(lens: Lens, l: real, v: Vec3, k: real)
    requires lens.near != lens.far && v.z != 0.0 && k != 0.0
    ensures Scale(k, v).z != 0.0
    ensures Project(lens, l, Scale(k, v)).x == Project(lens, l, v).x
    ensures Project(lens, l, Scale(k, v)).y == Project(lens, l, v).y
  {
    var w := Scale(k, v);
    MulZero(k, v.z);
    assert w.z == Mul(k, v.z);
    var p, q := Project(lens, l, v), Project(lens, l, w);
    assert Mul(w.z, p.x) == Mul(k, Mul(v.z, p.x)) == Mul(lens.focal, w.x);
    assert Mul(w.z, p.y) == Mul(k, Mul(v.z, p.y)) == Mul(l, w.y);
    Cancel(w.z, q.x, p.x);
    Cancel(w.z, q.y, p.y);
  }

  /** The screen mapping of `pointToScreen`: frustum `x` and `y` to canvas
      pixels around the centre, and depth to the side of the square drawn,
      which shrinks from 6 pixels at the near plane to 2 at the far plane. */
  function ToScreen(width: real, height: real, c: Vec3): (r: Vec3)
    ensures -1.0 <= c.z <= 1.0 <==> 2.0 <= r.z <= 6.0
    ensures c.z == -1.0 ==> r.z == 6.0
    ensures c.z == 1.0 ==> r.z == 2.0
    ensures c.x == 0.0 && c.y == 0.0 ==> r.x == width / 2.0 && r.y == height / 2.0
  {
    Vec3(width * (0.7 * c.x + 0.5),
         height * (0.5 * c.y + 0.5),
         6.0 - 4.0 * (0.5 * c.z + 0.5))
  }

  /** A deeper point is drawn as a smaller square. */
  lemma ToScreenSizeDecreasing(width: real, height: real, c: Vec3, d: Vec3)
    requires c.z < d.z
    ensures ToScreen(width, height, d).z < ToScreen(width, height, c).z
  {
  }

  /** `pointToScreen`: world point to camera space `c` with the camera matrix's
      `multiply`, then `project`, then the screen mapping. The point is drawn
      at pixel offsets from the canvas centre proportional to the slopes
      `c.x/c.z` and `c.y/c.z` (see `ScreenOffsets`), with a square of side
      `4 - 2d` for the projected depth `d`. A point in front of the camera is
      drawn with a side between 2 and 6 pixels exactly when it lies between the
      near and the far plane. */
  function PointToScreen(camera: Matrix, lens: Lens, width: real, height: real, v: Vec3): (r: Vec3)
    requires lens.near != lens.far && width != 0.0 && height != 0.0
    requires MultiplyVector(camera, v).z != 0.0
    ensures var c := MultiplyVector(camera, v);
            && Mul(c.z, r.x - width / 2.0) == 0.7 * Mul(Mul(lens.focal, width), c.x)
            && Mul(c.z, r.y - height / 2.0) == -0.5 * Mul(Mul(lens.focal, width), c.y)
            && Mul(Mul(lens.far - lens.near, c.z), (4.0 - r.z) / 2.0)
               == Mul(lens.far + lens.near, c.z) - 2.0 * lens.far * lens.near
    ensures 0.0 < lens.near < lens.far && 0.0 < MultiplyVector(camera, v).z ==>
              (2.0 <= r.z <= 6.0 <==> lens.near <= MultiplyVector(camera, v).z <= lens.far)
  {
    var c := Multiply(camera, Vector(v)).value.vec;
    var l := VerticalFocal(lens, width, height);
    var p := Project(lens, l, c);
    var r := ToScreen(width, height, p);
    ScreenOffsets(lens, width, height, c);
    assert (4.0 - r.z) / 2.0 == p.z;
    if 0.0 < lens.near < lens.far && 0.0 < c.z then
      ProjectDepthInRange(lens, l, c);
      r
    else
      r
  }

  /** Where a camera-space point `c` lands relative to the canvas centre: both
      offsets are proportional to the canvas width and to the slopes `x/z` and
      `y/z`, the vertical one with the sign flipped, so that a point above the
      line of sight is drawn above the centre (canvas rows grow downwards). */
  lemma ScreenOffsets(lens: Lens, width: real, height: real, c: Vec3)
    requires lens.near != lens.far && width != 0.0 && height != 0.0 && c.z != 0.0
    ensures var r := ToScreen(width, height, Project(lens, VerticalFocal(lens, width, height), c));
            && Mul(c.z, r.x - width / 2.0) == 0.7 * Mul(Mul(lens.focal, width), c.x)
            && Mul(c.z, r.y - height / 2.0) == -0.5 * Mul(Mul(lens.focal, width), c.y)
  {
    var l := VerticalFocal(lens, width, height);
    var p := Project(lens, l, c);
    var r := ToScreen(width, height, p);
    assert r.x - width / 2.0 == 0.7 * Mul(width, p.x);
    assert r.y - height / 2.0 == 0.5 * Mul(height, p.y);
    assert Mul(c.z, 0.7 * Mul(width, p.x)) == 0.7 * Mul(width, Mul(c.z, p.x));
    assert Mul(c.z, 0.5 * Mul(height, p.y)) == 0.5 * Mul(Mul(height, l), c.y);
    assert Mul(Mul(height, l), c.y) == -Mul(Mul(lens.focal, width), c.y);
  }

  /** With a positive focal length and canvas, a point in front of the camera
      and above (below) the line of sight is drawn above (below) the centre,
      and one to its right (left) to the right (left) of the centre. */
  lemma ScreenOrientation(lens: Lens, width: real, height: real, c: Vec3)
    requires lens.near != lens.far && 0.0 < lens.focal && 0.0 < width && 0.0 < height && 0.0 < c.z
    ensures var r := ToScreen(width, height, Project(lens, VerticalFocal(lens, width, height), c));
            && (0.0 < c.y <==> r.y < height / 2.0)
            && (0.0 < c.x <==> width / 2.0 < r.x)
  {
    var r := ToScreen(width, height, Project(lens, VerticalFocal(lens, width, height), c));
    ScreenOffsets(lens, width, height, c);
    var k := Mul(lens.focal, width);
    MulPos(lens.focal, width);
    SignOfProduct(c.z, r.x - width / 2.0, 0.7 * Mul(k, c.x));
    SignOfProduct(c.z, height / 2.0 - r.y, 0.5 * Mul(k, c.y));
    SignOfProduct(k, c.x, Mul(k, c.x));
    SignOfProduct(k, c.y, Mul(k, c.y));
  }

  /** A positive factor keeps the sign of the other. */
  lemma SignOfProduct(k: real, a: real, p: real)
    requires 0.0 < k && Mul(k, a) == p
    ensures 0.0 < a <==> 0.0 < p
  {
    if 0.0 < a {
      MulPos(k, a);
    } else {
      MulZero(k, a);
      if a < 0.0 {
        MulPos(k, -a);
        assert Mul(k, -a) == -Mul(k, a);
      }
    }
  }
}
