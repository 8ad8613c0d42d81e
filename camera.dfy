/**
 * The orbit camera of the shape engine (`transformWithCamera`): a camera on a
 * sphere of radius 400 around the origin, a look-at basis with a substitute
 * up vector near the poles, and a perspective projection onto a 400 x 400
 * screen whose depth divisor never drops below 1.
 */
module Camera {
  import opened Vector

  /** Radius of the sphere the camera moves on. */
  const CamDist := 400.0
  /** Focal length of the perspective projection. */
  const Fov := 400.0
  /** Width and height of the frame. */
  const Size := 400.0
  const Center := Size / 2.0
  /** Beyond this many degrees of elevation the pole up vector is used. */
  const PoleLimit := 89.0

  function Abs(x: real): real {
    if x < 0.0 then -x else x
  }

  /** `(deg * Math.PI) / 180`. */
  function Radians(m: MathLib, deg: real): real {
    deg * m.pi / 180.0
  }

  /** Position of the camera for an azimuth and an elevation in degrees. */
  function CameraPosition(m: MathLib, azimuth: real, elevation: real): Vec3 {
    var azR := Radians(m, azimuth);
    var elR := Radians(m, elevation);
    Vec3(CamDist * m.cos(elR) * m.sin(azR), CamDist * m.sin(elR), CamDist * m.cos(elR) * m.cos(azR))
  }

  predicate AtPole(elevation: real) {
    Abs(elevation) > PoleLimit
  }

  /**
   * The reference up vector: world Y-up, except at the poles where a
   * horizontal vector pointing away from the azimuth is used instead.
   */
  function WorldUp(m: MathLib, azimuth: real, elevation: real): (r: Vec3)
    ensures r == Vec3(0.0, 1.0, 0.0) <==> !AtPole(elevation)
    ensures AtPole(elevation) ==> r.y == 0.0
  {
    if AtPole(elevation) then
      Vec3(-m.sin(Radians(m, azimuth)), 0.0, -m.cos(Radians(m, azimuth)))
    else
      Vec3(0.0, 1.0, 0.0)
  }

  /** The viewing direction: from the camera towards the origin. */
  function Forward(m: MathLib, azimuth: real, elevation: real): Vec3 {
    Normalize(m, Neg(CameraPosition(m, azimuth, elevation)))
  }

  function Right(m: MathLib, azimuth: real, elevation: real): Vec3 {
    Normalize(m, Cross(WorldUp(m, azimuth, elevation), Forward(m, azimuth, elevation)))
  }

  function Up(m: MathLib, azimuth: real, elevation: real): Vec3 {
    Cross(Forward(m, azimuth, elevation), Right(m, azimuth, elevation))
  }

  /**
   * The up vector is parallel to the viewing direction, so `right` falls
   * back to (0,0,1) instead of being perpendicular to it.
   */
  predicate Degenerate(m: MathLib, azimuth: real, elevation: real) {
    Cross(WorldUp(m, azimuth, elevation), Forward(m, azimuth, elevation)) == Zero
  }

  /** Coordinates of `p` relative to the camera in the (right, up, forward) basis. */
  function CameraSpace(m: MathLib, p: Vec3, azimuth: real, elevation: real): Vec3 {
    var rel := Sub(p, CameraPosition(m, azimuth, elevation));
    Vec3(Dot(rel, Right(m, azimuth, elevation)),
         Dot(rel, Up(m, azimuth, elevation)),
         Dot(rel, Forward(m, azimuth, elevation)))
  }

  /** `Math.max(camSpaceZ, 1)`: the perspective divisor. */
  function Depth(cz: real): (d: real)
    ensures d >= 1.0 && d >= cz
    ensures d == 1.0 || d == cz
  {
    if cz > 1.0 then cz else 1.0
  }

  /** The perspective divide of camera coordinates onto the screen; screen y grows downward. */
  function Perspective(c: Vec3): Point2D {
    var z := Depth(c.z);
    Point2D(Center + (c.x * Fov) / z, Center - (c.y * Fov) / z)
  }

  /** `transformWithCamera(p, azimuth, elevation)`. */
  function Project(m: MathLib, p: Vec3, azimuth: real, elevation: real): Point2D {
    Perspective(CameraSpace(m, p, azimuth, elevation))
  }

  /** Unless degenerate, the camera basis is pairwise orthogonal. */
  lemma BasisOrthogonal(m: MathLib, azimuth: real, elevation: real)
    requires SqrtSound(m)
    requires !Degenerate(m, azimuth, elevation)
    ensures Dot(Right(m, azimuth, elevation), Forward(m, azimuth, elevation)) == 0.0
    ensures Dot(Up(m, azimuth, elevation), Forward(m, azimuth, elevation)) == 0.0
    ensures Dot(Up(m, azimuth, elevation), Right(m, azimuth, elevation)) == 0.0
  {
    var f := Forward(m, azimuth, elevation);
    var c := Cross(WorldUp(m, azimuth, elevation), f);
    var r := Right(m, azimuth, elevation);
    NormalizeSpec(m, c);
    assert r == Scale(1.0 / Length(m, c), c);
    CrossOrthogonal(WorldUp(m, azimuth, elevation), f);
    DotScale(1.0 / Length(m, c), c, f);
    CrossOrthogonal(f, r);
  }

  /** A vector along `f` has no component along a vector orthogonal to `f`. */
  lemma AlongIsOrthogonal(a: Vec3, len: real, f: Vec3, r: Vec3)
    requires a == Scale(len, f)
    requires Dot(r, f) == 0.0
    ensures Dot(a, r) == 0.0
  {
    DotSymmetric(r, f);
    DotScale(len, f, r);
  }

  /** The origin lies on the camera's line of sight. */
  lemma OriginOnAxis(m: MathLib, azimuth: real, elevation: real)
    requires SqrtSound(m)
    requires !Degenerate(m, azimuth, elevation)
    ensures CameraSpace(m, Zero, azimuth, elevation).x == 0.0
    ensures CameraSpace(m, Zero, azimuth, elevation).y == 0.0
  {
    var cam := CameraPosition(m, azimuth, elevation);
    var rel := Sub(Zero, cam);
    assert rel == Neg(cam);
    if rel != Zero {
      NormalizeSpec(m, rel);
      BasisOrthogonal(m, azimuth, elevation);
      AlongIsOrthogonal(rel, Length(m, rel), Forward(m, azimuth, elevation), Right(m, azimuth, elevation));
      AlongIsOrthogonal(rel, Length(m, rel), Forward(m, azimuth, elevation), Up(m, azimuth, elevation));
    }
  }

  /** The origin, which the camera looks at, is drawn at the centre of the frame. */
  lemma OriginAtCenter(m: MathLib, azimuth: real, elevation: real)
    requires SqrtSound(m)
    requires !Degenerate(m, azimuth, elevation)
    ensures Project(m, Zero, azimuth, elevation) == Point2D(Center, Center)
  {
    OriginOnAxis(m, azimuth, elevation);
  }

  /**
   * With world Y-up, a camera on the vertical axis (where elevation ±90
   * puts it) has no right vector. Beyond the pole limit the substitute up
   * vector avoids this (`PoleNotDegenerate`).
   */
  lemma YUpDegenerateOnAxis(m: MathLib, azimuth: real, elevation: real)
    requires SqrtSound(m)
    requires !AtPole(elevation)
    requires CameraPosition(m, azimuth, elevation).x == 0.0
    requires CameraPosition(m, azimuth, elevation).z == 0.0
    requires CameraPosition(m, azimuth, elevation).y != 0.0
    ensures Degenerate(m, azimuth, elevation)
  {
    var cam := CameraPosition(m, azimuth, elevation);
    NormalizeSpec(m, Neg(cam));
    var f := Forward(m, azimuth, elevation);
    assert f.x == 0.0 && f.z == 0.0;
  }

  /** A product of two non-zero numbers is not zero. */
  lemma NonzeroProduct(a: real, b: real)
    requires a != 0.0 && b != 0.0
    ensures a * b != 0.0
  {
    assert (a * b) / b == a;
  }

  /** An angle with sin² + cos² = 1 has a non-zero sine or a non-zero cosine. */
  lemma SinOrCos(m: MathLib, a: real)
    requires Pythagorean(m, a)
    ensures m.sin(a) != 0.0 || m.cos(a) != 0.0
  {
  }

  /**
   * The viewing direction is the way from the camera to the origin scaled by
   * a positive factor: each non-zero coordinate of the camera position gives
   * a non-zero coordinate of forward.
   */
  lemma ForwardNonzero(m: MathLib, azimuth: real, elevation: real)
    requires SqrtSound(m)
    requires CameraPosition(m, azimuth, elevation) != Zero
    ensures CameraPosition(m, azimuth, elevation).x != 0.0 ==> Forward(m, azimuth, elevation).x != 0.0
    ensures CameraPosition(m, azimuth, elevation).y != 0.0 ==> Forward(m, azimuth, elevation).y != 0.0
    ensures CameraPosition(m, azimuth, elevation).z != 0.0 ==> Forward(m, azimuth, elevation).z != 0.0
  {
    var n := Neg(CameraPosition(m, azimuth, elevation));
    NormalizeSpec(m, n);
    var k := 1.0 / Length(m, n);
    assert Forward(m, azimuth, elevation) == Scale(k, n);
    if n.x != 0.0 {
      NonzeroProduct(k, n.x);
    }
    if n.y != 0.0 {
      NonzeroProduct(k, n.y);
    }
    if n.z != 0.0 {
      NonzeroProduct(k, n.z);
    }
  }

  /**
   * Beyond the pole limit the substitute up vector is never parallel to the
   * viewing direction, so the camera has a right vector: the camera is off the
   * horizontal plane (the sine of the elevation is not zero) and the
   * substitute vector is horizontal and of length 1.
   */
  lemma PoleNotDegenerate(m: MathLib, azimuth: real, elevation: real)
    requires SqrtSound(m)
    requires AtPole(elevation)
    requires Pythagorean(m, Radians(m, azimuth))
    requires m.sin(Radians(m, elevation)) != 0.0
    ensures !Degenerate(m, azimuth, elevation)
  {
    var s, c := m.sin(Radians(m, azimuth)), m.cos(Radians(m, azimuth));
    var cam := CameraPosition(m, azimuth, elevation);
    assert cam.y != 0.0 by {
      NonzeroProduct(CamDist, m.sin(Radians(m, elevation)));
    }
    ForwardNonzero(m, azimuth, elevation);
    var f := Forward(m, azimuth, elevation);
    var r := Cross(WorldUp(m, azimuth, elevation), f);
    assert r == Cross(Vec3(-s, 0.0, -c), f);
    SinOrCos(m, Radians(m, azimuth));
    if c != 0.0 {
      NonzeroProduct(c, f.y);
      assert r.x == c * f.y;
    } else {
      NonzeroProduct(s, f.y);
      assert r.z == -(s * f.y);
    }
  }

  /**
   * Within the pole limit world Y-up is never parallel to the viewing
   * direction as long as the camera is off the vertical axis (the cosine of
   * the elevation is not zero).
   */
  lemma YUpNotDegenerate(m: MathLib, azimuth: real, elevation: real)
    requires SqrtSound(m)
    requires !AtPole(elevation)
    requires Pythagorean(m, Radians(m, azimuth))
    requires m.cos(Radians(m, elevation)) != 0.0
    ensures !Degenerate(m, azimuth, elevation)
  {
    var s, c := m.sin(Radians(m, azimuth)), m.cos(Radians(m, azimuth));
    var ce := CamDist * m.cos(Radians(m, elevation));
    var cam := CameraPosition(m, azimuth, elevation);
    assert ce != 0.0 by {
      NonzeroProduct(CamDist, m.cos(Radians(m, elevation)));
    }
    assert cam.x == ce * s && cam.z == ce * c;
    SinOrCos(m, Radians(m, azimuth));
    if s != 0.0 {
      NonzeroProduct(ce, s);
    } else {
      NonzeroProduct(ce, c);
    }
    ForwardNonzero(m, azimuth, elevation);
    var f := Forward(m, azimuth, elevation);
    var r := Cross(WorldUp(m, azimuth, elevation), f);
    assert r == Cross(Vec3(0.0, 1.0, 0.0), f);
    assert r.x == f.z && r.z == -f.x;
  }

  /**
   * Every view whose azimuth satisfies sin² + cos² = 1 has a camera basis
   * and draws the origin at the centre of the frame, provided the camera is
   * off the vertical axis within the pole limit and off the horizontal plane
   * beyond it.
   */
  lemma ViewCentered(m: MathLib, azimuth: real, elevation: real)
    requires SqrtSound(m)
    requires Pythagorean(m, Radians(m, azimuth))
    requires AtPole(elevation) ==> m.sin(Radians(m, elevation)) != 0.0
    requires !AtPole(elevation) ==> m.cos(Radians(m, elevation)) != 0.0
    ensures !Degenerate(m, azimuth, elevation)
    ensures Project(m, Zero, azimuth, elevation) == Point2D(Center, Center)
  {
    if AtPole(elevation) {
      PoleNotDegenerate(m, azimuth, elevation);
    } else {
      YUpNotDegenerate(m, azimuth, elevation);
    }
    OriginAtCenter(m, azimuth, elevation);
  }

  /** The facts of Math the straight-ahead view needs. */
  ghost predicate FrontViewMath(m: MathLib) {
    m.sin(0.0) == 0.0 && m.cos(0.0) == 1.0 && m.sqrt(160000.0) == 400.0 && m.sqrt(1.0) == 1.0
  }

  /**
   * The camera angles look straight down the -z axis: both angles have sine
   * 0 and cosine 1 (azimuth 0 and elevation 0 are such angles) and the
   * elevation is not beyond the pole limit.
   */
  ghost predicate StraightAhead(m: MathLib, azimuth: real, elevation: real) {
    m.sin(Radians(m, azimuth)) == 0.0 && m.cos(Radians(m, azimuth)) == 1.0 &&
    m.sin(Radians(m, elevation)) == 0.0 && m.cos(Radians(m, elevation)) == 1.0 &&
    !AtPole(elevation) &&
    m.sqrt(160000.0) == 400.0 && m.sqrt(1.0) == 1.0
  }

  /** Azimuth 0 and elevation 0 look straight ahead. */
  lemma ZeroIsStraightAhead(m: MathLib)
    requires FrontViewMath(m)
    ensures StraightAhead(m, 0.0, 0.0)
  {
    assert Radians(m, 0.0) == 0.0;
  }

  /** Looking straight ahead puts the camera on the +z axis ... */
  lemma FrontPosition(m: MathLib, azimuth: real, elevation: real)
    requires StraightAhead(m, azimuth, elevation)
    ensures CameraPosition(m, azimuth, elevation) == Vec3(0.0, 0.0, CamDist)
  {
  }

  lemma NormalizeBackward(m: MathLib)
    requires m.sqrt(160000.0) == 400.0
    ensures Normalize(m, Vec3(0.0, 0.0, -400.0)) == Vec3(0.0, 0.0, -1.0)
  {
    assert Length(m, Vec3(0.0, 0.0, -400.0)) == 400.0;
  }

  lemma NormalizeLeft(m: MathLib)
    requires m.sqrt(1.0) == 1.0
    ensures Normalize(m, Vec3(-1.0, 0.0, 0.0)) == Vec3(-1.0, 0.0, 0.0)
  {
    assert Length(m, Vec3(-1.0, 0.0, 0.0)) == 1.0;
  }

  /** ... looking down -z ... */
  lemma FrontForward(m: MathLib, azimuth: real, elevation: real)
    requires StraightAhead(m, azimuth, elevation)
    ensures Forward(m, azimuth, elevation) == Vec3(0.0, 0.0, -1.0)
  {
    FrontPosition(m, azimuth, elevation);
    NormalizeBackward(m);
    var cam := CameraPosition(m, azimuth, elevation);
    assert Forward(m, azimuth, elevation) == Normalize(m, Neg(cam));
    assert Neg(cam) == Vec3(0.0, 0.0, -400.0);
  }

  /** ... with world x pointing to the left of the frame ... */
  lemma FrontRight(m: MathLib, azimuth: real, elevation: real)
    requires StraightAhead(m, azimuth, elevation)
    ensures Right(m, azimuth, elevation) == Vec3(-1.0, 0.0, 0.0)
  {
    FrontForward(m, azimuth, elevation);
    NormalizeLeft(m);
    var f := Forward(m, azimuth, elevation);
    var u := WorldUp(m, azimuth, elevation);
    assert u == Vec3(0.0, 1.0, 0.0);
    assert Cross(u, f) == Vec3(-1.0, 0.0, 0.0);
  }

  /** ... and world y pointing up. */
  lemma FrontUp(m: MathLib, azimuth: real, elevation: real)
    requires StraightAhead(m, azimuth, elevation)
    ensures Up(m, azimuth, elevation) == Vec3(0.0, 1.0, 0.0)
  {
    FrontForward(m, azimuth, elevation);
    FrontRight(m, azimuth, elevation);
  }

  /** Straight ahead, a point's camera coordinates are its (x, y) mirrored in x and its distance in z. */
  lemma FrontCameraSpace(m: MathLib, p: Vec3, azimuth: real, elevation: real)
    requires StraightAhead(m, azimuth, elevation)
    ensures CameraSpace(m, p, azimuth, elevation) == Vec3(-p.x, p.y, CamDist - p.z)
  {
    var cam, r, u, f := CameraPosition(m, azimuth, elevation), Right(m, azimuth, elevation),
                        Up(m, azimuth, elevation), Forward(m, azimuth, elevation);
    assert cam == Vec3(0.0, 0.0, CamDist) by { FrontPosition(m, azimuth, elevation); }
    assert r == Vec3(-1.0, 0.0, 0.0) by { FrontRight(m, azimuth, elevation); }
    assert u == Vec3(0.0, 1.0, 0.0) by { FrontUp(m, azimuth, elevation); }
    assert f == Vec3(0.0, 0.0, -1.0) by { FrontForward(m, azimuth, elevation); }
    FrontCoordinates(p, cam, r, u, f);
  }

  lemma FrontCoordinates(p: Vec3, cam: Vec3, r: Vec3, u: Vec3, f: Vec3)
    requires cam == Vec3(0.0, 0.0, CamDist)
    requires r == Vec3(-1.0, 0.0, 0.0) && u == Vec3(0.0, 1.0, 0.0) && f == Vec3(0.0, 0.0, -1.0)
    ensures Vec3(Dot(Sub(p, cam), r), Dot(Sub(p, cam), u), Dot(Sub(p, cam), f)) == Vec3(-p.x, p.y, CamDist - p.z)
  {
  }

  /** Straight ahead, a point is drawn at its x mirrored, its y, and its distance from the camera as depth. */
  lemma FrontView(m: MathLib, p: Vec3, azimuth: real, elevation: real)
    requires StraightAhead(m, azimuth, elevation)
    ensures Project(m, p, azimuth, elevation) == Perspective(Vec3(-p.x, p.y, CamDist - p.z))
  {
    FrontCameraSpace(m, p, azimuth, elevation);
  }
}
