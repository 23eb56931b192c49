/** The scene the renderer draws: its user settings and the camera built
    from them, and where `pointToScreen` puts the points it is meant for. */
module Scene {
  import opened RealArith
  import opened HostMath
  import opened Vectors
  import opened Matrices
  import opened Projection

  const SceneLens := Lens(9.0, 13.0, 2.5)
  const Eye := Vec3(4.0, 4.0, -12.0)
  const Target := Vec3(0.0, 0.0, 0.0)
  const WorldUp := Vec3(0.0, 1.0, 0.0)

  /** The settings satisfy what `lookAt` needs: the target is not the eye and
      the world's up direction is not parallel to the line of sight. */
  lemma CameraDefined()
    ensures LookAtDefined(Eye, Target, WorldUp)
  {
    assert Cross(WorldUp, Subtract(Target, Eye)) == Vec3(12.0, 0.0, 4.0);
  }

  /** The camera, built once at start-up. */
  function Camera(m: MathLib): Matrix
    requires SqrtSound(m)
  {
    CameraDefined();
    LookAt(Eye, Target, WorldUp, m)
  }

  /** The eye is `√176` from the target: between 13 and 14, so the target
      lies just beyond the far plane. */
  lemma TargetDistance(m: MathLib)
    requires SqrtSound(m)
    ensures Length(Subtract(Target, Eye), m) == m.sqrt(176.0)
    ensures 13.0 < m.sqrt(176.0) < 14.0
  {
    assert Subtract(Target, Eye) == Vec3(-4.0, -4.0, 12.0);
    SqrtUnique(m, 169.0, 13.0);
    SqrtUnique(m, 196.0, 14.0);
    SqrtLess(m, 169.0, 176.0);
    SqrtLess(m, 176.0, 196.0);
  }

  /** The target is drawn at the centre of the canvas, and, lying beyond the
      far plane, as a square smaller than 2 pixels. */
  lemma TargetAtCentre(m: MathLib, width: real, height: real)
    requires SqrtSound(m) && width != 0.0 && height != 0.0
    ensures MultiplyVector(Camera(m), Target).z != 0.0
    ensures PointToScreen(Camera(m), SceneLens, width, height, Target).x == width / 2.0
    ensures PointToScreen(Camera(m), SceneLens, width, height, Target).y == height / 2.0
    ensures PointToScreen(Camera(m), SceneLens, width, height, Target).z < 2.0
  {
    CameraDefined();
    LookAtTargetOnAxis(Eye, Target, WorldUp, m);
    TargetDistance(m);
    var c := MultiplyVector(Camera(m), Target);
    assert c == Vec3(0.0, 0.0, m.sqrt(176.0));
    var l := VerticalFocal(SceneLens, width, height);
    var p := Project(SceneLens, l, c);
    MulZero(c.z, p.x);
    MulZero(c.z, p.y);
    ProjectNearFar(SceneLens, l, 0.0, 0.0);
    ProjectDepthMonotone(SceneLens, l, Vec3(0.0, 0.0, 13.0), c);
    ToScreenSizeDecreasing(width, height, Vec3(0.0, 0.0, 1.0), p);
  }

  /** Every point of the unit ball around the target lies in front of the
      camera, beyond the near plane, and is drawn as a square of positive size. */
  lemma BallInFront(m: MathLib, width: real, height: real, v: Vec3)
    requires SqrtSound(m) && width != 0.0 && height != 0.0
    requires Dot(v, v) <= 1.0
    ensures SceneLens.near < 12.0 < MultiplyVector(Camera(m), v).z < 15.0
    ensures 0.0 < PointToScreen(Camera(m), SceneLens, width, height, v).z < 6.0
  {
    CameraDefined();
    LookAtDepth(Eye, Target, WorldUp, m, v);
    TargetDistance(m);
    var z := Forward(Eye, Target, m);
    NormalizeUnitLength(Subtract(Target, Eye), m);
    assert Subtract(v, Target) == v;
    DotUnitBound(z, v);
    var c := MultiplyVector(Camera(m), v);
    var l := VerticalFocal(SceneLens, width, height);
    var p := Project(SceneLens, l, c);
    var far := Vec3(0.0, 0.0, 15.0);
    ProjectDepthMonotone(SceneLens, l, c, far);
    assert Mul(Mul(4.0, 15.0), 1.6) == Mul(22.0, 15.0) - 2.0 * 13.0 * 9.0;
    Cancel(Mul(4.0, 15.0), Project(SceneLens, l, far).z, 1.6);
    ProjectNearFar(SceneLens, l, 0.0, 0.0);
    ProjectDepthMonotone(SceneLens, l, Vec3(0.0, 0.0, 9.0), c);
  }
}
