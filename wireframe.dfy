/**
 * The six wireframe generators. Each draws a fixed list of lines and open
 * paths through projected points; the loops of the source are methods proved
 * equal to a frame function, and the shape of every frame (what is drawn,
 * with how many points) is proved independent of the view.
 */
module Wireframe {
  import opened Vector
  import opened Primitives

  // ---------------------------------------------------------------- ellipse

  /** The point at angle `a` of an axis-aligned horizontal ellipse around `c`. */
  function EllipsePoint(m: MathLib, c: Vec3, rx: real, ry: real, a: real): Vec3 {
    EllipseAt(c, rx, ry, m.cos(a), m.sin(a))
  }

  /** The point of the ellipse whose angle has cosine `co` and sine `si`. */
  function EllipseAt(c: Vec3, rx: real, ry: real, co: real, si: real): Vec3 {
    Vec3(c.x + co * rx, c.y, c.z + si * ry)
  }

  /** The `segments + 1` projected points of `ellipse3D`; the last repeats the first angle turned once. */
  function EllipsePath(m: MathLib, proj: Vec3 -> Point2D, c: Vec3, rx: real, ry: real, segments: nat): seq<Point2D>
    requires segments > 0
  {
    seq(segments + 1, i requires 0 <= i <= segments => proj(EllipsePoint(m, c, rx, ry, Turn(m, i, segments))))
  }

  /** `ellipse3D`: one open path through the points of the ellipse. */
  method Ellipse3D(m: MathLib, proj: Vec3 -> Point2D, c: Vec3, rx: real, ry: real, segments: nat)
    returns (path: Primitive)
    requires segments > 0
    ensures path == Path(EllipsePath(m, proj, c, rx, ry, segments))
  {
    var points: seq<Point2D> := [];
    for i := 0 to segments + 1
      invariant points == EllipsePath(m, proj, c, rx, ry, segments)[..i]
    {
      var a := Turn(m, i, segments);
      var p := EllipsePoint(m, c, rx, ry, a);
      points := points + [proj(p)];
    }
    assert points == EllipsePath(m, proj, c, rx, ry, segments);
    path := Path(points);
  }

  lemma EllipsePointPeriodic(m: MathLib, c: Vec3, rx: real, ry: real, a: real, b: real)
    requires m.cos(a) == m.cos(b) && m.sin(a) == m.sin(b)
    ensures EllipsePoint(m, c, rx, ry, a) == EllipsePoint(m, c, rx, ry, b)
  {
    assert EllipsePoint(m, c, rx, ry, a) == EllipseAt(c, rx, ry, m.cos(b), m.sin(b));
  }

  /**
   * When sin and cos repeat after one full turn, the path of an ellipse is
   * closed: its last point is its first.
   */
  lemma EllipseClosed(m: MathLib, proj: Vec3 -> Point2D, c: Vec3, rx: real, ry: real, segments: nat)
    requires segments > 0
    requires m.cos(m.pi * 2.0) == m.cos(0.0) && m.sin(m.pi * 2.0) == m.sin(0.0)
    ensures EllipsePath(m, proj, c, rx, ry, segments)[segments] == EllipsePath(m, proj, c, rx, ry, segments)[0]
  {
    var s := segments as real;
    assert s / s == 1.0;
    assert Turn(m, segments, segments) == m.pi * 2.0;
    assert Turn(m, 0, segments) == 0.0;
    EllipsePointPeriodic(m, c, rx, ry, m.pi * 2.0, 0.0);
  }

  // ------------------------------------------------------------------- cube

  const CubeHalf := 80.0

  /** The eight corners, as `generateCube` and `generateColoredCube` list them. */
  const CubeVertices: seq<Vec3> := [
    Vec3(-CubeHalf, -CubeHalf, -CubeHalf), Vec3(CubeHalf, -CubeHalf, -CubeHalf),
    Vec3(CubeHalf, CubeHalf, -CubeHalf), Vec3(-CubeHalf, CubeHalf, -CubeHalf),
    Vec3(-CubeHalf, -CubeHalf, CubeHalf), Vec3(CubeHalf, -CubeHalf, CubeHalf),
    Vec3(CubeHalf, CubeHalf, CubeHalf), Vec3(-CubeHalf, CubeHalf, CubeHalf)
  ]

  /** The twelve edges of `generateCube`, as pairs of corner indices. */
  const CubeEdges: seq<(nat, nat)> := [
    (0, 1), (1, 2), (2, 3), (3, 0), (4, 5), (5, 6), (6, 7), (7, 4), (0, 4), (1, 5), (2, 6), (3, 7)
  ]

  /** Two corners of the cube differ in exactly one coordinate. */
  predicate Adjacent(a: Vec3, b: Vec3) {
    (if a.x != b.x then 1 else 0) + (if a.y != b.y then 1 else 0) + (if a.z != b.z then 1 else 0) == 1
  }

  /** Every edge joins two of the eight corners, and those corners are adjacent. */
  lemma CubeEdgesAdjacent()
    ensures |CubeEdges| == 12
    ensures forall e :: 0 <= e < 12 ==>
              CubeEdges[e].0 < 8 && CubeEdges[e].1 < 8 &&
              Adjacent(CubeVertices[CubeEdges[e].0], CubeVertices[CubeEdges[e].1])
  {
  }

  /** No edge is listed twice, either way round. */
  lemma CubeEdgesDistinct()
    ensures forall e, f :: 0 <= e < f < |CubeEdges| ==>
              CubeEdges[e] != CubeEdges[f] && CubeEdges[e] != (CubeEdges[f].1, CubeEdges[f].0)
  {
  }

  /** Every pair of adjacent corners is an edge: the table is the cube's whole edge set. */
  lemma CubeEdgesComplete(a: nat, b: nat)
    requires a < b < 8 && Adjacent(CubeVertices[a], CubeVertices[b])
    ensures exists e :: 0 <= e < |CubeEdges| && (CubeEdges[e] == (a, b) || CubeEdges[e] == (b, a))
  {
    var e := if (a, b) == (0, 1) then 0 else if (a, b) == (1, 2) then 1 else if (a, b) == (2, 3) then 2
      else if (a, b) == (0, 3) then 3 else if (a, b) == (4, 5) then 4 else if (a, b) == (5, 6) then 5
      else if (a, b) == (6, 7) then 6 else if (a, b) == (4, 7) then 7 else if (a, b) == (0, 4) then 8
      else if (a, b) == (1, 5) then 9 else if (a, b) == (2, 6) then 10 else 11;
    assert CubeEdges[e] == (a, b) || CubeEdges[e] == (b, a);
  }

  /** `generateCube`: one line per edge. */
  function CubeFrame(proj: Vec3 -> Point2D): Frame {
    seq(|CubeEdges|, e requires 0 <= e < |CubeEdges| =>
      Line(proj(CubeVertices[CubeEdges[e].0]), proj(CubeVertices[CubeEdges[e].1])))
  }

  lemma CubeShape(proj: Vec3 -> Point2D)
    ensures Kinds(CubeFrame(proj)) == seq(12, _ => LineKind)
  {
  }

  // --------------------------------------------------------------- cylinder

  const CylinderRadius := 70.0
  const CylinderHalfHeight := 80.0

  /** The vertical strut at angle `a`. */
  function CylinderStrut(m: MathLib, proj: Vec3 -> Point2D, a: real): Primitive {
    var x := m.cos(a) * CylinderRadius;
    var z := m.sin(a) * CylinderRadius;
    Line(proj(Vec3(x, -CylinderHalfHeight, z)), proj(Vec3(x, CylinderHalfHeight, z)))
  }

  /** `generateCylinder`: the top and bottom rims, then eight vertical struts. */
  function CylinderFrame(m: MathLib, proj: Vec3 -> Point2D): Frame {
    [Path(EllipsePath(m, proj, Vec3(0.0, -CylinderHalfHeight, 0.0), CylinderRadius, CylinderRadius, 24)),
     Path(EllipsePath(m, proj, Vec3(0.0, CylinderHalfHeight, 0.0), CylinderRadius, CylinderRadius, 24))] +
    seq(8, i requires 0 <= i < 8 => CylinderStrut(m, proj, Turn(m, i, 8)))
  }

  method Cylinder(m: MathLib, proj: Vec3 -> Point2D) returns (frame: Frame)
    ensures frame == CylinderFrame(m, proj)
  {
    var top := Ellipse3D(m, proj, Vec3(0.0, -CylinderHalfHeight, 0.0), CylinderRadius, CylinderRadius, 24);
    var bottom := Ellipse3D(m, proj, Vec3(0.0, CylinderHalfHeight, 0.0), CylinderRadius, CylinderRadius, 24);
    frame := [top, bottom];
    for i := 0 to 8
      invariant frame == [top, bottom] + seq(i, k requires 0 <= k < i => CylinderStrut(m, proj, Turn(m, k, 8)))
    {
      var a := Turn(m, i, 8);
      var x, z := m.cos(a) * CylinderRadius, m.sin(a) * CylinderRadius;
      frame := frame + [Line(proj(Vec3(x, -CylinderHalfHeight, z)), proj(Vec3(x, CylinderHalfHeight, z)))];
      assert seq(i + 1, k requires 0 <= k < i + 1 => CylinderStrut(m, proj, Turn(m, k, 8))) ==
             seq(i, k requires 0 <= k < i => CylinderStrut(m, proj, Turn(m, k, 8))) +
             [CylinderStrut(m, proj, a)];
    }
  }

  lemma CylinderShape(m: MathLib, proj: Vec3 -> Point2D)
    ensures Kinds(CylinderFrame(m, proj)) == [PathKind(25), PathKind(25)] + seq(8, _ => LineKind)
  {
  }

  // ----------------------------------------------------------------- sphere

  const SphereRadius := 80.0

  /** Height of latitude circle `i` (1 to 5): evenly spaced strictly between the poles. */
  function LatitudeY(i: nat): real {
    (i as real / 6.0 - 0.5) * 2.0 * SphereRadius
  }

  /** The latitude circle at height `y`, of radius `sqrt(r*r - y*y)`, in 32 arcs. */
  function LatitudePath(m: MathLib, proj: Vec3 -> Point2D, y: real): seq<Point2D> {
    var rr := m.sqrt(SphereRadius * SphereRadius - y * y);
    EllipsePath(m, proj, Vec3(0.0, y, 0.0), rr, rr, 32)
  }

  /** The point at polar angle `phi` of the meridian at angle `a`. */
  function MeridianPoint(m: MathLib, a: real, phi: real): Vec3 {
    Vec3(m.sin(phi) * m.cos(a) * SphereRadius, -m.cos(phi) * SphereRadius, m.sin(phi) * m.sin(a) * SphereRadius)
  }

  /** The meridian at angle `a`: a half circle from pole to pole, 25 points. */
  function MeridianPath(m: MathLib, proj: Vec3 -> Point2D, a: real): seq<Point2D> {
    seq(25, j requires 0 <= j < 25 => proj(MeridianPoint(m, a, HalfTurn(m, j, 24))))
  }

  /** `generateSphere`: five latitude circles, then eight meridians. */
  function SphereFrame(m: MathLib, proj: Vec3 -> Point2D): Frame {
    seq(5, k requires 0 <= k < 5 => Path(LatitudePath(m, proj, LatitudeY(k + 1)))) +
    seq(8, i requires 0 <= i < 8 => Path(MeridianPath(m, proj, HalfTurn(m, i, 8))))
  }

  method Sphere(m: MathLib, proj: Vec3 -> Point2D) returns (frame: Frame)
    ensures frame == SphereFrame(m, proj)
  {
    frame := [];
    for i := 1 to 6
      invariant frame == seq(i - 1, k requires 0 <= k < i - 1 => Path(LatitudePath(m, proj, LatitudeY(k + 1))))
    {
      var y := LatitudeY(i);
      var rr := m.sqrt(SphereRadius * SphereRadius - y * y);
      var circle := Ellipse3D(m, proj, Vec3(0.0, y, 0.0), rr, rr, 32);
      frame := frame + [circle];
    }
    ghost var latitudes := frame;
    for i := 0 to 8
      invariant frame == latitudes + seq(i, k requires 0 <= k < i => Path(MeridianPath(m, proj, HalfTurn(m, k, 8))))
    {
      var a := HalfTurn(m, i, 8);
      var pts: seq<Point2D> := [];
      for j := 0 to 25
        invariant pts == MeridianPath(m, proj, a)[..j]
      {
        var phi := HalfTurn(m, j, 24);
        var p := MeridianPoint(m, a, phi);
        pts := pts + [proj(p)];
      }
      assert pts == MeridianPath(m, proj, a);
      frame := frame + [Path(pts)];
    }
  }

  lemma SphereShape(m: MathLib, proj: Vec3 -> Point2D)
    ensures Kinds(SphereFrame(m, proj)) == seq(5, _ => PathKind(33)) + seq(8, _ => PathKind(25))
  {
  }

  /** Every latitude circle lies strictly between the poles, so its radius is the root of a positive number. */
  lemma LatitudesInside(i: nat)
    requires 1 <= i < 6
    ensures -SphereRadius < LatitudeY(i) < SphereRadius
    ensures 0.0 < SphereRadius * SphereRadius - LatitudeY(i) * LatitudeY(i)
  {
    if i == 1 {
      assert LatitudeY(i) == -160.0 / 3.0;
    } else if i == 2 {
      assert LatitudeY(i) == -80.0 / 3.0;
    } else if i == 3 {
      assert LatitudeY(i) == 0.0;
    } else if i == 4 {
      assert LatitudeY(i) == 80.0 / 3.0;
    } else {
      assert LatitudeY(i) == 160.0 / 3.0;
    }
  }

  // ---------------------------------------------------------------- pyramid

  const PyramidHalf := 80.0
  const PyramidHeight := 100.0

  const PyramidApex := Vec3(0.0, -PyramidHeight, 0.0)

  const PyramidBase: seq<Vec3> := [
    Vec3(-PyramidHalf, PyramidHeight / 2.0, -PyramidHalf), Vec3(PyramidHalf, PyramidHeight / 2.0, -PyramidHalf),
    Vec3(PyramidHalf, PyramidHeight / 2.0, PyramidHalf), Vec3(-PyramidHalf, PyramidHeight / 2.0, PyramidHalf)
  ]

  /** `generatePyramid`: the four base edges, then the four edges up to the apex. */
  function PyramidFrame(proj: Vec3 -> Point2D): Frame {
    seq(4, i requires 0 <= i < 4 => Line(proj(PyramidBase[i]), proj(PyramidBase[(i + 1) % 4]))) +
    seq(4, i requires 0 <= i < 4 => Line(proj(PyramidBase[i]), proj(PyramidApex)))
  }

  method Pyramid(proj: Vec3 -> Point2D) returns (frame: Frame)
    ensures frame == PyramidFrame(proj)
  {
    frame := [];
    for i := 0 to 4
      invariant frame == seq(i, k requires 0 <= k < i => Line(proj(PyramidBase[k]), proj(PyramidBase[(k + 1) % 4])))
    {
      frame := frame + [Line(proj(PyramidBase[i]), proj(PyramidBase[(i + 1) % 4]))];
    }
    ghost var base := frame;
    for i := 0 to 4
      invariant frame == base + seq(i, k requires 0 <= k < i => Line(proj(PyramidBase[k]), proj(PyramidApex)))
    {
      frame := frame + [Line(proj(PyramidBase[i]), proj(PyramidApex))];
    }
  }

  lemma PyramidShape(proj: Vec3 -> Point2D)
    ensures Kinds(PyramidFrame(proj)) == seq(8, _ => LineKind)
  {
  }

  // ------------------------------------------------------------------ torus

  const TorusMajor := 70.0
  const TorusMinor := 25.0

  /** The torus point at angle `theta` around the axis and `phi` around the tube. */
  function TorusPoint(m: MathLib, theta: real, phi: real): Vec3 {
    var cx := m.cos(theta) * TorusMajor;
    var cz := m.sin(theta) * TorusMajor;
    Vec3(cx + m.cos(phi) * TorusMinor * m.cos(theta), m.sin(phi) * TorusMinor, cz + m.cos(phi) * TorusMinor * m.sin(theta))
  }

  /** The ring at angle `theta` around the axis: a circle around the tube, 17 points. */
  function TorusRing(m: MathLib, proj: Vec3 -> Point2D, theta: real): seq<Point2D> {
    seq(17, j requires 0 <= j < 17 => proj(TorusPoint(m, theta, Turn(m, j, 16))))
  }

  /** The circle at angle `phi` around the tube: a circle around the axis, 25 points. */
  function TorusTube(m: MathLib, proj: Vec3 -> Point2D, phi: real): seq<Point2D> {
    seq(25, j requires 0 <= j < 25 => proj(TorusPoint(m, Turn(m, j, 24), phi)))
  }

  /** `generateTorus`: twelve rings, then sixteen circles along the tube. */
  function TorusFrame(m: MathLib, proj: Vec3 -> Point2D): Frame {
    seq(12, i requires 0 <= i < 12 => Path(TorusRing(m, proj, Turn(m, i, 12)))) +
    seq(16, i requires 0 <= i < 16 => Path(TorusTube(m, proj, Turn(m, i, 16))))
  }

  method Torus(m: MathLib, proj: Vec3 -> Point2D) returns (frame: Frame)
    ensures frame == TorusFrame(m, proj)
  {
    frame := [];
    for i := 0 to 12
      invariant frame == seq(i, k requires 0 <= k < i => Path(TorusRing(m, proj, Turn(m, k, 12))))
    {
      var theta := Turn(m, i, 12);
      var pts: seq<Point2D> := [];
      for j := 0 to 17
        invariant pts == TorusRing(m, proj, theta)[..j]
      {
        var phi := Turn(m, j, 16);
        var p := TorusPoint(m, theta, phi);
        pts := pts + [proj(p)];
      }
      assert pts == TorusRing(m, proj, theta);
      frame := frame + [Path(pts)];
    }
    ghost var rings := frame;
    for i := 0 to 16
      invariant frame == rings + seq(i, k requires 0 <= k < i => Path(TorusTube(m, proj, Turn(m, k, 16))))
    {
      var phi := Turn(m, i, 16);
      var pts: seq<Point2D> := [];
      for j := 0 to 25
        invariant pts == TorusTube(m, proj, phi)[..j]
      {
        var theta := Turn(m, j, 24);
        var p := TorusPoint(m, theta, phi);
        pts := pts + [proj(p)];
      }
      assert pts == TorusTube(m, proj, phi);
      frame := frame + [Path(pts)];
    }
  }

  lemma TorusShape(m: MathLib, proj: Vec3 -> Point2D)
    ensures Kinds(TorusFrame(m, proj)) == seq(12, _ => PathKind(17)) + seq(16, _ => PathKind(25))
  {
  }

  // ------------------------------------------------------------------- cone

  const ConeRadius := 70.0
  const ConeHeight := 120.0

  const ConeApex := Vec3(0.0, -ConeHeight / 2.0, 0.0)

  /** The line from the rim at angle `a` up to the apex. */
  function ConeSpoke(m: MathLib, proj: Vec3 -> Point2D, a: real): Primitive {
    Line(proj(Vec3(m.cos(a) * ConeRadius, ConeHeight / 2.0, m.sin(a) * ConeRadius)), proj(ConeApex))
  }

  /** `generateCone`: the base rim, then twelve lines from the rim to the apex. */
  function ConeFrame(m: MathLib, proj: Vec3 -> Point2D): Frame {
    [Path(EllipsePath(m, proj, Vec3(0.0, ConeHeight / 2.0, 0.0), ConeRadius, ConeRadius, 24))] +
    seq(12, i requires 0 <= i < 12 => ConeSpoke(m, proj, Turn(m, i, 12)))
  }

  method Cone(m: MathLib, proj: Vec3 -> Point2D) returns (frame: Frame)
    ensures frame == ConeFrame(m, proj)
  {
    var rim := Ellipse3D(m, proj, Vec3(0.0, ConeHeight / 2.0, 0.0), ConeRadius, ConeRadius, 24);
    frame := [rim];
    for i := 0 to 12
      invariant frame == [rim] + seq(i, k requires 0 <= k < i => ConeSpoke(m, proj, Turn(m, k, 12)))
    {
      var a := Turn(m, i, 12);
      frame := frame + [Line(proj(Vec3(m.cos(a) * ConeRadius, ConeHeight / 2.0, m.sin(a) * ConeRadius)), proj(ConeApex))];
      assert seq(i + 1, k requires 0 <= k < i + 1 => ConeSpoke(m, proj, Turn(m, k, 12))) ==
             seq(i, k requires 0 <= k < i => ConeSpoke(m, proj, Turn(m, k, 12))) +
             [ConeSpoke(m, proj, a)];
    }
  }

  lemma ConeShape(m: MathLib, proj: Vec3 -> Point2D)
    ensures Kinds(ConeFrame(m, proj)) == [PathKind(25)] + seq(12, _ => LineKind)
  {
  }
}
