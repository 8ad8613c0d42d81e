/**
 * The six filled ("colored") generators. Each builds a list of faces in
 * world space, projects every face, keeps the faces that pass the
 * front-face test and fills them with a palette colour. The cube and the
 * pyramid map over a fixed face table; the curved solids emit faces from
 * loops, and those loops are methods proved to draw exactly the culled face
 * list.
 */
module Filled {
  import opened Vector
  import opened Primitives
  import Wireframe
  import Camera

  // ------------------------------------------------------------ face tables

  /** The corners `vs[idx[k]]` of a face given by vertex indices. */
  function Corners(vs: seq<Vec3>, idx: seq<nat>): seq<Vec3>
    requires forall k :: 0 <= k < |idx| ==> idx[k] < |vs|
  {
    seq(|idx|, k requires 0 <= k < |idx| => vs[idx[k]])
  }

  /** The normal of a face, from its first three corners, points away from the origin. */
  predicate Outward(f: Face)
    requires |f.pts| >= 3
  {
    Dot(Cross(Sub(f.pts[1], f.pts[0]), Sub(f.pts[2], f.pts[0])), f.pts[0]) > 0.0
  }

  /** Projecting the corners of a face is looking up the projected vertices. */
  lemma ProjectCorners(proj: Vec3 -> Point2D, vs: seq<Vec3>, idx: seq<nat>)
    requires forall k :: 0 <= k < |idx| ==> idx[k] < |vs|
    ensures ProjectAll(proj, Corners(vs, idx)) == Corners'(ProjectAll(proj, vs), idx)
  {
  }

  /** `Corners` on screen points. */
  function Corners'(ps: seq<Point2D>, idx: seq<nat>): seq<Point2D>
    requires forall k :: 0 <= k < |idx| ==> idx[k] < |ps|
  {
    seq(|idx|, k requires 0 <= k < |idx| => ps[idx[k]])
  }

  // ------------------------------------------------------------------- cube

  /** The faces of `generateColoredCube`, as corner indices into the cube's vertices. */
  const CubeFaceCorners: seq<seq<nat>> := [[0, 3, 2, 1], [4, 5, 6, 7], [0, 4, 7, 3], [1, 2, 6, 5], [3, 7, 6, 2], [0, 1, 5, 4]]

  /** Face `i` of the cube has palette colour `i`. */
  function CubeFaces(): (r: seq<Face>)
    ensures |r| == 6 && WellFormed(r)
    ensures forall i :: 0 <= i < 6 ==> |r[i].pts| == 4 && r[i].color < PaletteSize
  {
    seq(6, i requires 0 <= i < 6 => Face(Corners(Wireframe.CubeVertices, CubeFaceCorners[i]), i))
  }

  /** `generateColoredCube`: the visible faces of the cube, in table order. */
  function ColoredCube(proj: Vec3 -> Point2D): Frame {
    Cull(proj, CubeFaces())
  }

  /** Going round a face of the table walks along edges of the cube. */
  lemma CubeFacesFollowEdges(i: int, k: int)
    requires 0 <= i < 6 && 0 <= k < 4
    ensures Wireframe.Adjacent(CubeFaces()[i].pts[k], CubeFaces()[i].pts[(k + 1) % 4])
  {
    var c := CubeFaceCorners[i];
    assert CubeFaces()[i].pts[k] == Wireframe.CubeVertices[c[k]];
    assert CubeFaces()[i].pts[(k + 1) % 4] == Wireframe.CubeVertices[c[(k + 1) % 4]];
  }

  /** Every face of the table is wound so that its normal points out of the cube. */
  lemma CubeFacesOutward()
    ensures forall i :: 0 <= i < 6 ==> Outward(CubeFaces()[i])
  {
  }

  /** At most the six faces are drawn, as quadrilaterals in palette colours. */
  lemma ColoredCubeShape(proj: Vec3 -> Point2D)
    ensures |ColoredCube(proj)| <= 6
    ensures forall p :: p in ColoredCube(proj) ==> p.Polygon? && |p.pts| == 4 && p.color < PaletteSize
  {
    forall p | p in ColoredCube(proj)
      ensures p.Polygon? && |p.pts| == 4 && p.color < PaletteSize
    {
      var i := CulledFace(proj, CubeFaces(), p);
    }
  }

  /** Where the eight corners of the cube are drawn when the camera looks straight ahead. */
  const FrontCubeCorners: seq<Point2D> := [
    Point2D(800.0 / 3.0, 800.0 / 3.0), Point2D(400.0 / 3.0, 800.0 / 3.0),
    Point2D(400.0 / 3.0, 400.0 / 3.0), Point2D(800.0 / 3.0, 400.0 / 3.0),
    Point2D(300.0, 300.0), Point2D(100.0, 300.0), Point2D(100.0, 100.0), Point2D(300.0, 100.0)
  ]

  lemma FrontCubeCorner(m: MathLib, azimuth: real, elevation: real, i: int)
    requires Camera.StraightAhead(m, azimuth, elevation)
    requires 0 <= i < 8
    ensures Projector(m, azimuth, elevation)(Wireframe.CubeVertices[i]) == FrontCubeCorners[i]
  {
    var v := Wireframe.CubeVertices[i];
    assert Projector(m, azimuth, elevation)(v) == Camera.Perspective(Vec3(-v.x, v.y, Camera.CamDist - v.z)) by {
      Camera.FrontView(m, v, azimuth, elevation);
    }
    FrontCubePerspective(i);
  }

  lemma FrontCubePerspective(i: int)
    requires 0 <= i < 8
    ensures var v := Wireframe.CubeVertices[i];
            Camera.Perspective(Vec3(-v.x, v.y, Camera.CamDist - v.z)) == FrontCubeCorners[i]
  {
    if i < 4 {
      assert Camera.Depth(480.0) == 480.0;
    } else {
      assert Camera.Depth(320.0) == 320.0;
    }
  }

  /** Straight ahead, each face is drawn through the corners listed for it in the table. */
  lemma FrontCubeFaces(m: MathLib, azimuth: real, elevation: real)
    requires Camera.StraightAhead(m, azimuth, elevation)
    ensures forall i :: 0 <= i < 6 ==>
              ProjectAll(Projector(m, azimuth, elevation), CubeFaces()[i].pts) == Corners'(FrontCubeCorners, CubeFaceCorners[i])
  {
    var proj := Projector(m, azimuth, elevation);
    forall i | 0 <= i < 8
      ensures proj(Wireframe.CubeVertices[i]) == FrontCubeCorners[i]
    {
      FrontCubeCorner(m, azimuth, elevation, i);
    }
    assert ProjectAll(proj, Wireframe.CubeVertices) == FrontCubeCorners;
    forall i | 0 <= i < 6
      ensures ProjectAll(proj, CubeFaces()[i].pts) == Corners'(FrontCubeCorners, CubeFaceCorners[i])
    {
      ProjectCorners(proj, Wireframe.CubeVertices, CubeFaceCorners[i]);
    }
  }

  /** Of the six faces drawn through those corners, only face 1 turns the positive way. */
  lemma FrontCubeCulled(proj: Vec3 -> Point2D)
    requires forall i :: 0 <= i < 6 ==> ProjectAll(proj, CubeFaces()[i].pts) == Corners'(FrontCubeCorners, CubeFaceCorners[i])
    ensures Cull(proj, CubeFaces()) ==
            [Polygon([Point2D(300.0, 300.0), Point2D(100.0, 300.0), Point2D(100.0, 100.0), Point2D(300.0, 100.0)], 1)]
  {
    var faces := CubeFaces();
    forall i | 0 <= i < 6
      ensures Visible(proj, faces[i]) <==> i == 1
    {
      FrontCubeSign(i);
    }
    CullSingle(proj, faces, 1);
    assert Corners'(FrontCubeCorners, CubeFaceCorners[1]) ==
           [Point2D(300.0, 300.0), Point2D(100.0, 300.0), Point2D(100.0, 100.0), Point2D(300.0, 100.0)];
  }

  lemma FrontCubeSign(i: int)
    requires 0 <= i < 6
    ensures |Corners'(FrontCubeCorners, CubeFaceCorners[i])| == 4
    ensures FrontFacing(Corners'(FrontCubeCorners, CubeFaceCorners[i])) <==> i == 1
  {
    var c := CubeFaceCorners[i];
    var pts := Corners'(FrontCubeCorners, c);
    assert pts[0] == FrontCubeCorners[c[0]] && pts[1] == FrontCubeCorners[c[1]] && pts[2] == FrontCubeCorners[c[2]];
  }

  /**
   * Looking straight ahead (azimuth 0, elevation 0) only the face towards
   * the camera, face 1 at z = +80, passes the front-face test: the camera at
   * distance 400 is too close to see past the edges onto the side faces.
   */
  lemma CubeFromFront(m: MathLib, azimuth: real, elevation: real)
    requires Camera.StraightAhead(m, azimuth, elevation)
    ensures ColoredCube(Projector(m, azimuth, elevation)) ==
            [Polygon([Point2D(300.0, 300.0), Point2D(100.0, 300.0), Point2D(100.0, 100.0), Point2D(300.0, 100.0)], 1)]
  {
    FrontCubeFaces(m, azimuth, elevation);
    FrontCubeCulled(Projector(m, azimuth, elevation));
  }

  // ---------------------------------------------------------------- pyramid

  const PyramidHalf := 80.0
  const PyramidHeight := 100.0

  /** The apex, then the four base corners, of `generateColoredPyramid`. */
  const PyramidVertices: seq<Vec3> := [
    Vec3(0.0, PyramidHeight, 0.0),
    Vec3(-PyramidHalf, -PyramidHeight / 2.0, -PyramidHalf), Vec3(PyramidHalf, -PyramidHeight / 2.0, -PyramidHalf),
    Vec3(PyramidHalf, -PyramidHeight / 2.0, PyramidHalf), Vec3(-PyramidHalf, -PyramidHeight / 2.0, PyramidHalf)
  ]

  /** Four triangles up to the apex, then the square base. */
  const PyramidFaceCorners: seq<seq<nat>> := [[0, 2, 1], [0, 3, 2], [0, 4, 3], [0, 1, 4], [1, 2, 3, 4]]

  function PyramidFaces(): (r: seq<Face>)
    ensures |r| == 5 && WellFormed(r)
    ensures forall i :: 0 <= i < 4 ==> |r[i].pts| == 3 && r[i].pts[0] == PyramidVertices[0]
    ensures |r[4].pts| == 4
    ensures forall i :: 0 <= i < 5 ==> r[i].color < PaletteSize
  {
    seq(5, i requires 0 <= i < 5 => Face(Corners(PyramidVertices, PyramidFaceCorners[i]), i))
  }

  /**
   * Every corner index of the two face tables names a vertex (0..7 for the
   * cube, 0..4 for the pyramid), and no face repeats a corner.
   */
  lemma FaceTablesInRange()
    ensures forall i, k :: 0 <= i < 6 && 0 <= k < |CubeFaceCorners[i]| ==> CubeFaceCorners[i][k] < 8
    ensures forall i, k :: 0 <= i < 5 && 0 <= k < |PyramidFaceCorners[i]| ==> PyramidFaceCorners[i][k] < 5
    ensures forall i, k, l :: 0 <= i < 6 && 0 <= k < l < |CubeFaceCorners[i]| ==> CubeFaceCorners[i][k] != CubeFaceCorners[i][l]
    ensures forall i, k, l :: 0 <= i < 5 && 0 <= k < l < |PyramidFaceCorners[i]| ==> PyramidFaceCorners[i][k] != PyramidFaceCorners[i][l]
  {
  }

  /**
   * `generateColoredPyramid`. The source tests `pts.slice(0, 3)`, which
   * decides the same as testing the whole face (`PyramidSliceTest`).
   */
  function ColoredPyramid(proj: Vec3 -> Point2D): Frame {
    Cull(proj, PyramidFaces())
  }

  /** Testing the first three projected corners is testing the face. */
  lemma PyramidSliceTest(proj: Vec3 -> Point2D, i: int)
    requires 0 <= i < 5
    ensures FrontFacing(ProjectAll(proj, PyramidFaces()[i].pts)[..3]) == Visible(proj, PyramidFaces()[i])
  {
    FrontFacingPrefix(ProjectAll(proj, PyramidFaces()[i].pts));
  }

  /** Every face of the table is wound so that its normal points out of the pyramid. */
  lemma PyramidFacesOutward()
    ensures forall i :: 0 <= i < 5 ==> Outward(PyramidFaces()[i])
  {
  }

  /** At most the five faces are drawn: triangles and a square, in palette colours. */
  lemma ColoredPyramidShape(proj: Vec3 -> Point2D)
    ensures |ColoredPyramid(proj)| <= 5
    ensures forall p :: p in ColoredPyramid(proj) ==>
              p.Polygon? && 3 <= |p.pts| <= 4 && p.color < PaletteSize
  {
    forall p | p in ColoredPyramid(proj)
      ensures p.Polygon? && 3 <= |p.pts| <= 4 && p.color < PaletteSize
    {
      var i := CulledFace(proj, PyramidFaces(), p);
    }
  }

  // ------------------------------------------------------ building by loops

  /** Taking one more face into the list draws that face after the others, if it is visible. */
  lemma CullStep(proj: Vec3 -> Point2D, faces: seq<Face>, n: int)
    requires WellFormed(faces) && 0 <= n < |faces|
    ensures WellFormed(faces[..n]) && WellFormed(faces[..n + 1])
    ensures Cull(proj, faces[..n + 1]) == Cull(proj, faces[..n]) + CullOne(proj, faces[n])
  {
    assert faces[..n + 1][..n] == faces[..n];
    assert faces[..n + 1][n] == faces[n];
  }

  lemma Project3(proj: Vec3 -> Point2D, a: Vec3, b: Vec3, c: Vec3)
    ensures ProjectAll(proj, [a, b, c]) == [proj(a), proj(b), proj(c)]
  {
  }

  lemma Project4(proj: Vec3 -> Point2D, a: Vec3, b: Vec3, c: Vec3, d: Vec3)
    ensures ProjectAll(proj, [a, b, c, d]) == [proj(a), proj(b), proj(c), proj(d)]
  {
  }

  // ------------------------------------------------------------------- cone

  const ConeRadius := 70.0
  const ConeHeight := 100.0
  const ConeSegments := 16

  const ConeApex := Vec3(0.0, ConeHeight / 2.0, 0.0)

  /** The point of the base rim at angle `a`. */
  function ConeRimPoint(m: MathLib, a: real): Vec3 {
    Vec3(m.cos(a) * ConeRadius, -ConeHeight / 2.0, m.sin(a) * ConeRadius)
  }

  /** Side `i`: the apex and two rim points, the later angle first. */
  function ConeSide(m: MathLib, i: int): Face {
    Face([ConeApex, ConeRimPoint(m, Turn(m, i + 1, ConeSegments)), ConeRimPoint(m, Turn(m, i, ConeSegments))], i % 6)
  }

  /** The base cap: the sixteen rim points in ascending angle, colour 6. */
  function ConeCap(m: MathLib): Face {
    Face(seq(ConeSegments, i requires 0 <= i < ConeSegments => ConeRimPoint(m, Turn(m, i, ConeSegments))), 6)
  }

  /** The faces of `generateColoredCone` in the order they are tested. */
  function ConeFaces(m: MathLib): (r: seq<Face>)
    ensures |r| == 17 && WellFormed(r)
    ensures forall i :: 0 <= i < 16 ==> |r[i].pts| == 3 && r[i].pts[0] == ConeApex && r[i].color < 6
    ensures |r[16].pts| == 16 && r[16].color == 6
  {
    seq(ConeSegments, i requires 0 <= i < ConeSegments => ConeSide(m, i)) + [ConeCap(m)]
  }

  /** `generateColoredCone`. */
  method ColoredCone(m: MathLib, proj: Vec3 -> Point2D) returns (frame: Frame)
    ensures frame == Cull(proj, ConeFaces(m))
  {
    ghost var faces := ConeFaces(m);
    frame := [];
    for i := 0 to ConeSegments
      invariant frame == Cull(proj, faces[..i])
    {
      var a1 := Turn(m, i, ConeSegments);
      var a2 := Turn(m, i + 1, ConeSegments);
      var p1 := ConeRimPoint(m, a1);
      var p2 := ConeRimPoint(m, a2);
      var pts := [proj(ConeApex), proj(p2), proj(p1)];
      CullStep(proj, faces, i);
      Project3(proj, ConeApex, p2, p1);
      assert faces[i] == Face([ConeApex, p2, p1], i % 6);
      if FrontFacing(pts) {
        frame := frame + [Polygon(pts, i % 6)];
      }
    }
    var capPts: seq<Point2D> := [];
    for i := 0 to ConeSegments
      invariant capPts == ProjectAll(proj, ConeCap(m).pts)[..i]
    {
      var a := Turn(m, i, ConeSegments);
      var p := ConeRimPoint(m, a);
      capPts := capPts + [proj(p)];
    }
    assert capPts == ProjectAll(proj, ConeCap(m).pts);
    CullStep(proj, faces, ConeSegments);
    if FrontFacing(capPts) {
      frame := frame + [Polygon(capPts, 6)];
    }
    assert faces[..ConeSegments + 1] == faces;
  }

  /** Side triangles in the first six colours and the base cap, a 16-gon in colour 6. */
  lemma ColoredConeShape(m: MathLib, proj: Vec3 -> Point2D)
    ensures |Cull(proj, ConeFaces(m))| <= 17
    ensures forall p :: p in Cull(proj, ConeFaces(m)) ==>
              p.Polygon? && ((|p.pts| == 3 && p.color < 6) || (|p.pts| == 16 && p.color == 6))
  {
    var faces := ConeFaces(m);
    forall p | p in Cull(proj, faces)
      ensures p.Polygon? && ((|p.pts| == 3 && p.color < 6) || (|p.pts| == 16 && p.color == 6))
    {
      var i := CulledFace(proj, faces, p);
    }
  }

  /** Neighbouring sides share a rim point, and the cap runs through the same rim points. */
  lemma ConeWatertight(m: MathLib, i: int)
    requires 0 <= i < ConeSegments
    ensures i + 1 < ConeSegments ==> ConeFaces(m)[i].pts[1] == ConeFaces(m)[i + 1].pts[2]
    ensures ConeFaces(m)[16].pts[i] == ConeFaces(m)[i].pts[2]
  {
  }

  // --------------------------------------------------------------- cylinder

  const CylinderRadius := 70.0
  const CylinderHalfHeight := 80.0
  const CylinderSegments := 16

  /** The point at angle `a` of the rim at height `y`. */
  function CylinderRimPoint(m: MathLib, a: real, y: real): Vec3 {
    Vec3(m.cos(a) * CylinderRadius, y, m.sin(a) * CylinderRadius)
  }

  /** Side `i`: a quadrilateral up the first edge and down the next. */
  function CylinderSide(m: MathLib, i: int): Face {
    var a1 := Turn(m, i, CylinderSegments);
    var a2 := Turn(m, i + 1, CylinderSegments);
    Face([CylinderRimPoint(m, a1, -CylinderHalfHeight), CylinderRimPoint(m, a1, CylinderHalfHeight),
          CylinderRimPoint(m, a2, CylinderHalfHeight), CylinderRimPoint(m, a2, -CylinderHalfHeight)], i % 6)
  }

  /** The cap at y = -80: rim points in ascending angle, colour 6. */
  function CylinderTop(m: MathLib): Face {
    Face(seq(CylinderSegments, i requires 0 <= i < CylinderSegments =>
           CylinderRimPoint(m, Turn(m, i, CylinderSegments), -CylinderHalfHeight)), 6)
  }

  /** The cap at y = +80: rim points in descending angle, colour 7. */
  function CylinderBottom(m: MathLib): Face {
    Face(seq(CylinderSegments, k requires 0 <= k < CylinderSegments =>
           CylinderRimPoint(m, Turn(m, CylinderSegments - 1 - k, CylinderSegments), CylinderHalfHeight)), 7)
  }

  /** The faces of `generateColoredCylinder` in the order they are tested. */
  function CylinderFaces(m: MathLib): (r: seq<Face>)
    ensures |r| == 18 && WellFormed(r)
    ensures forall i :: 0 <= i < 16 ==> |r[i].pts| == 4 && r[i].color < 6
    ensures |r[16].pts| == 16 && r[16].color == 6
    ensures |r[17].pts| == 16 && r[17].color == 7
  {
    seq(CylinderSegments, i requires 0 <= i < CylinderSegments => CylinderSide(m, i)) + [CylinderTop(m), CylinderBottom(m)]
  }

  /** `generateColoredCylinder`: the sides, then the top cap, then the bottom cap. */
  method ColoredCylinder(m: MathLib, proj: Vec3 -> Point2D) returns (frame: Frame)
    ensures frame == Cull(proj, CylinderFaces(m))
  {
    ghost var faces := CylinderFaces(m);
    frame := CylinderSides(m, proj);
    var topPts := CylinderTopPoints(m, proj);
    CullStep(proj, faces, CylinderSegments);
    if FrontFacing(topPts) {
      frame := frame + [Polygon(topPts, 6)];
    }
    var botPts := CylinderBottomPoints(m, proj);
    CullStep(proj, faces, CylinderSegments + 1);
    if FrontFacing(botPts) {
      frame := frame + [Polygon(botPts, 7)];
    }
    assert faces[..CylinderSegments + 2] == faces;
  }

  /** The side loop of `generateColoredCylinder`: the first sixteen faces. */
  method CylinderSides(m: MathLib, proj: Vec3 -> Point2D) returns (frame: Frame)
    ensures frame == Cull(proj, CylinderFaces(m)[..CylinderSegments])
  {
    ghost var faces := CylinderFaces(m);
    frame := [];
    for i := 0 to CylinderSegments
      invariant frame == Cull(proj, faces[..i])
    {
      var a1 := Turn(m, i, CylinderSegments);
      var a2 := Turn(m, i + 1, CylinderSegments);
      var q1 := CylinderRimPoint(m, a1, -CylinderHalfHeight);
      var q2 := CylinderRimPoint(m, a1, CylinderHalfHeight);
      var q3 := CylinderRimPoint(m, a2, CylinderHalfHeight);
      var q4 := CylinderRimPoint(m, a2, -CylinderHalfHeight);
      var pts := [proj(q1), proj(q2), proj(q3), proj(q4)];
      assert Cull(proj, faces[..i + 1]) == frame + if FrontFacing(pts) then [Polygon(pts, i % 6)] else [] by {
        CullStep(proj, faces, i);
        Project4(proj, q1, q2, q3, q4);
        assert faces[i] == Face([q1, q2, q3, q4], i % 6);
      }
      if FrontFacing(pts) {
        frame := frame + [Polygon(pts, i % 6)];
      }
    }
  }

  /** The top-cap loop of `generateColoredCylinder`: the projected top rim, by ascending angle. */
  method CylinderTopPoints(m: MathLib, proj: Vec3 -> Point2D) returns (topPts: seq<Point2D>)
    ensures topPts == ProjectAll(proj, CylinderTop(m).pts)
  {
    topPts := [];
    for i := 0 to CylinderSegments
      invariant topPts == ProjectAll(proj, CylinderTop(m).pts)[..i]
    {
      var a := Turn(m, i, CylinderSegments);
      var p := CylinderRimPoint(m, a, -CylinderHalfHeight);
      topPts := topPts + [proj(p)];
    }
  }

  /** The bottom-cap loop of `generateColoredCylinder`: the projected bottom rim, by descending angle. */
  method CylinderBottomPoints(m: MathLib, proj: Vec3 -> Point2D) returns (botPts: seq<Point2D>)
    ensures botPts == ProjectAll(proj, CylinderBottom(m).pts)
  {
    botPts := [];
    for i := CylinderSegments downto 0
      invariant botPts == ProjectAll(proj, CylinderBottom(m).pts)[..CylinderSegments - i]
    {
      var a := Turn(m, i, CylinderSegments);
      var p := CylinderRimPoint(m, a, CylinderHalfHeight);
      botPts := botPts + [proj(p)];
    }
  }

  /** Sides are quadrilaterals in the first six colours; the caps are 16-gons in colours 6 and 7. */
  lemma ColoredCylinderShape(m: MathLib, proj: Vec3 -> Point2D)
    ensures |Cull(proj, CylinderFaces(m))| <= 18
    ensures forall p :: p in Cull(proj, CylinderFaces(m)) ==>
              p.Polygon? && ((|p.pts| == 4 && p.color < 6) || (|p.pts| == 16 && 6 <= p.color < PaletteSize))
  {
    var faces := CylinderFaces(m);
    forall p | p in Cull(proj, faces)
      ensures p.Polygon? && ((|p.pts| == 4 && p.color < 6) || (|p.pts| == 16 && 6 <= p.color < PaletteSize))
    {
      var i := CulledFace(proj, faces, p);
      if i < 16 {
        assert |p.pts| == 4 && p.color < 6;
      } else {
        assert |p.pts| == 16 && 6 <= p.color < PaletteSize;
      }
    }
  }

  /** The bottom cap is the top cap mirrored to the other rim and walked the other way round. */
  lemma CylinderCapsOpposite(m: MathLib, k: int)
    requires 0 <= k < CylinderSegments
    ensures var t := CylinderTop(m).pts[CylinderSegments - 1 - k];
            CylinderBottom(m).pts[k] == Vec3(t.x, -t.y, t.z)
  {
    var a := Turn(m, CylinderSegments - 1 - k, CylinderSegments);
    assert CylinderTop(m).pts[CylinderSegments - 1 - k] == CylinderRimPoint(m, a, -CylinderHalfHeight);
    assert CylinderBottom(m).pts[k] == CylinderRimPoint(m, a, CylinderHalfHeight);
  }

  /** Neighbouring sides share an edge, and each cap runs through the corners of the sides. */
  lemma CylinderWatertight(m: MathLib, i: int)
    requires 0 <= i < CylinderSegments
    ensures i + 1 < CylinderSegments ==>
              CylinderFaces(m)[i].pts[2] == CylinderFaces(m)[i + 1].pts[1] &&
              CylinderFaces(m)[i].pts[3] == CylinderFaces(m)[i + 1].pts[0]
    ensures CylinderFaces(m)[16].pts[i] == CylinderFaces(m)[i].pts[0]
    ensures CylinderFaces(m)[17].pts[CylinderSegments - 1 - i] == CylinderFaces(m)[i].pts[1]
  {
    var faces := CylinderFaces(m);
    assert faces[i] == CylinderSide(m, i);
    if i + 1 < CylinderSegments {
      assert faces[i + 1] == CylinderSide(m, i + 1);
    }
    assert faces[16] == CylinderTop(m);
    assert faces[17] == CylinderBottom(m);
  }

  // ----------------------------------------------------------------- sphere

  const SphereRadius := 80.0
  const LatitudeSegments := 8
  const LongitudeSegments := 12

  const NorthPole := Vec3(0.0, SphereRadius, 0.0)
  const SouthPole := Vec3(0.0, -SphereRadius, 0.0)

  /** The point at polar angle `phi` from the north pole and longitude `theta`. */
  function SpherePoint(m: MathLib, phi: real, theta: real): Vec3 {
    Vec3(m.sin(phi) * m.cos(theta) * SphereRadius, m.cos(phi) * SphereRadius, m.sin(phi) * m.sin(theta) * SphereRadius)
  }

  /** Polar angle of the first ring below the north pole, `Math.PI / latSegs`. */
  function NorthRing(m: MathLib): real {
    m.pi / LatitudeSegments as real
  }

  /** Triangle `lon` round the north pole: the pole, then the later longitude first. */
  function NorthFace(m: MathLib, lon: int): Face {
    Face([NorthPole, SpherePoint(m, NorthRing(m), Turn(m, lon + 1, LongitudeSegments)),
          SpherePoint(m, NorthRing(m), Turn(m, lon, LongitudeSegments))], lon % 6)
  }

  /** The quadrilateral of band `lat` (1 to 6) at longitude `lon`. */
  function BandFace(m: MathLib, lat: int, lon: int): Face {
    var phi1 := HalfTurn(m, lat, LatitudeSegments);
    var phi2 := HalfTurn(m, lat + 1, LatitudeSegments);
    var theta1 := Turn(m, lon, LongitudeSegments);
    var theta2 := Turn(m, lon + 1, LongitudeSegments);
    Face([SpherePoint(m, phi1, theta1), SpherePoint(m, phi1, theta2),
          SpherePoint(m, phi2, theta2), SpherePoint(m, phi2, theta1)], (lat + lon) % 6)
  }

  /** Triangle `lon` round the south pole: the pole, then the earlier longitude first. */
  function SouthFace(m: MathLib, lon: int): Face {
    var phiLast := HalfTurn(m, LatitudeSegments - 1, LatitudeSegments);
    Face([SouthPole, SpherePoint(m, phiLast, Turn(m, lon, LongitudeSegments)),
          SpherePoint(m, phiLast, Turn(m, lon + 1, LongitudeSegments))], lon % 6)
  }

  /**
   * The faces of `generateColoredSphere` in the order they are tested: 12
   * north triangles, the 6 bands of 12 quadrilaterals (face `12 * lat + lon`),
   * then 12 south triangles.
   */
  function SphereFace(m: MathLib, k: int): Face {
    if k < 12 then NorthFace(m, k)
    else if k < 84 then BandFace(m, k / 12, k % 12)
    else SouthFace(m, k - 84)
  }

  function SphereFaces(m: MathLib): (r: seq<Face>)
    ensures |r| == 96 && WellFormed(r)
    ensures forall k :: 0 <= k < 96 ==> r[k].color < 6
  {
    seq(96, k requires 0 <= k < 96 => SphereFace(m, k))
  }

  /** `generateColoredSphere`: the north cap, the six bands, then the south cap. */
  method ColoredSphere(m: MathLib, proj: Vec3 -> Point2D) returns (frame: Frame)
    ensures frame == Cull(proj, SphereFaces(m))
  {
    frame := SphereNorthCap(m, proj);
    frame := SphereBands(m, proj, frame);
    frame := SphereSouthCap(m, proj, frame);
    assert SphereFaces(m)[..96] == SphereFaces(m);
  }

  /** The six bands of `generateColoredSphere`: faces 12 to 83, drawn after the north cap. */
  method SphereBands(m: MathLib, proj: Vec3 -> Point2D, before: Frame) returns (frame: Frame)
    requires before == Cull(proj, SphereFaces(m)[..12])
    ensures frame == Cull(proj, SphereFaces(m)[..84])
  {
    frame := before;
    for lat := 1 to LatitudeSegments - 1
      invariant frame == Cull(proj, SphereFaces(m)[..12 * lat])
      invariant WellFormed(SphereFaces(m)[..12 * lat])
    {
      frame := SphereBand(m, proj, lat, frame);
    }
  }

  /** The north cap of `generateColoredSphere`: the first twelve faces. */
  method SphereNorthCap(m: MathLib, proj: Vec3 -> Point2D) returns (frame: Frame)
    ensures frame == Cull(proj, SphereFaces(m)[..12])
  {
    ghost var faces := SphereFaces(m);
    frame := [];
    var northPole := proj(NorthPole);
    var northPhi := m.pi / LatitudeSegments as real;
    for lon := 0 to LongitudeSegments
      invariant frame == Cull(proj, faces[..lon])
    {
      var theta1 := Turn(m, lon, LongitudeSegments);
      var theta2 := Turn(m, lon + 1, LongitudeSegments);
      var p1 := SpherePoint(m, northPhi, theta1);
      var p2 := SpherePoint(m, northPhi, theta2);
      var pts := [northPole, proj(p2), proj(p1)];
      CullStep(proj, faces, lon);
      Project3(proj, NorthPole, p2, p1);
      assert faces[lon] == Face([NorthPole, p2, p1], lon % 6);
      if FrontFacing(pts) {
        frame := frame + [Polygon(pts, lon % 6)];
      }
    }
  }

  /** Band `lat` of `generateColoredSphere`: faces `12 * lat` to `12 * lat + 11`, drawn after the earlier ones. */
  method SphereBand(m: MathLib, proj: Vec3 -> Point2D, lat: int, before: Frame) returns (frame: Frame)
    requires 1 <= lat < LatitudeSegments - 1
    requires before == Cull(proj, SphereFaces(m)[..12 * lat])
    ensures frame == Cull(proj, SphereFaces(m)[..12 * lat + 12])
  {
    ghost var faces := SphereFaces(m);
    frame := before;
    var phi1 := HalfTurn(m, lat, LatitudeSegments);
    var phi2 := HalfTurn(m, lat + 1, LatitudeSegments);
    for lon := 0 to LongitudeSegments
      invariant frame == Cull(proj, faces[..12 * lat + lon])
    {
      var theta1 := Turn(m, lon, LongitudeSegments);
      var theta2 := Turn(m, lon + 1, LongitudeSegments);
      var p1 := SpherePoint(m, phi1, theta1);
      var p2 := SpherePoint(m, phi1, theta2);
      var p3 := SpherePoint(m, phi2, theta2);
      var p4 := SpherePoint(m, phi2, theta1);
      var pts := [proj(p1), proj(p2), proj(p3), proj(p4)];
      ghost var k := 12 * lat + lon;
      CullStep(proj, faces, k);
      Project4(proj, p1, p2, p3, p4);
      SphereBandFace(m, lat, lon);
      assert faces[k] == Face([p1, p2, p3, p4], (lat + lon) % 6);
      if FrontFacing(pts) {
        frame := frame + [Polygon(pts, (lat + lon) % 6)];
      }
    }
  }

  /** Face `12 * lat + lon` of the sphere is the face of band `lat` at longitude `lon`. */
  lemma SphereBandFace(m: MathLib, lat: int, lon: int)
    requires 1 <= lat < LatitudeSegments - 1 && 0 <= lon < LongitudeSegments
    ensures SphereFaces(m)[12 * lat + lon] == BandFace(m, lat, lon)
  {
    var k := 12 * lat + lon;
    assert k / 12 == lat && k % 12 == lon;
  }

  /** The south cap of `generateColoredSphere`: the last twelve faces, drawn after the others. */
  method SphereSouthCap(m: MathLib, proj: Vec3 -> Point2D, before: Frame) returns (frame: Frame)
    requires before == Cull(proj, SphereFaces(m)[..84])
    ensures frame == Cull(proj, SphereFaces(m)[..96])
  {
    ghost var faces := SphereFaces(m);
    frame := before;
    var southPole := proj(SouthPole);
    var phiLast := HalfTurn(m, LatitudeSegments - 1, LatitudeSegments);
    for lon := 0 to LongitudeSegments
      invariant frame == Cull(proj, faces[..84 + lon])
    {
      var theta1 := Turn(m, lon, LongitudeSegments);
      var theta2 := Turn(m, lon + 1, LongitudeSegments);
      var p1 := SpherePoint(m, phiLast, theta1);
      var p2 := SpherePoint(m, phiLast, theta2);
      var pts := [southPole, proj(p1), proj(p2)];
      CullStep(proj, faces, 84 + lon);
      Project3(proj, SouthPole, p1, p2);
      assert faces[84 + lon] == Face([SouthPole, p1, p2], lon % 6);
      if FrontFacing(pts) {
        frame := frame + [Polygon(pts, lon % 6)];
      }
    }
  }

  /** Triangles round the poles and quadrilaterals between, all in the first six colours. */
  lemma ColoredSphereShape(m: MathLib, proj: Vec3 -> Point2D)
    ensures |Cull(proj, SphereFaces(m))| <= 96
    ensures forall p :: p in Cull(proj, SphereFaces(m)) ==> p.Polygon? && 3 <= |p.pts| <= 4 && p.color < 6
  {
    var faces := SphereFaces(m);
    forall p | p in Cull(proj, faces)
      ensures p.Polygon? && 3 <= |p.pts| <= 4 && p.color < 6
    {
      var i := CulledFace(proj, faces, p);
    }
  }

  /**
   * The mesh is closed between rings: each north triangle shares its lower
   * edge with the first band, each band shares its lower edge with the next,
   * and the last band shares its lower edge with a south triangle.
   */
  lemma SphereWatertight(m: MathLib, lat: int, lon: int)
    requires 1 <= lat < LatitudeSegments - 1 && 0 <= lon < LongitudeSegments
    ensures lat == 1 ==>
              NorthFace(m, lon).pts[1] == BandFace(m, 1, lon).pts[1] &&
              NorthFace(m, lon).pts[2] == BandFace(m, 1, lon).pts[0]
    ensures lat + 1 < LatitudeSegments - 1 ==>
              BandFace(m, lat, lon).pts[3] == BandFace(m, lat + 1, lon).pts[0] &&
              BandFace(m, lat, lon).pts[2] == BandFace(m, lat + 1, lon).pts[1]
    ensures lat == LatitudeSegments - 2 ==>
              BandFace(m, lat, lon).pts[3] == SouthFace(m, lon).pts[1] &&
              BandFace(m, lat, lon).pts[2] == SouthFace(m, lon).pts[2]
  {
    assert NorthRing(m) == HalfTurn(m, 1, LatitudeSegments);
  }

  // ------------------------------------------------------------------ torus

  const TorusMajor := 60.0
  const TorusMinor := 25.0
  const TubeSegments := 12
  const RingSegments := 16

  /** `getP(t, p)`: angle `t` around the axis, `p` around the tube. */
  function TorusPoint(m: MathLib, t: real, p: real): Vec3 {
    Vec3((TorusMajor + TorusMinor * m.cos(p)) * m.cos(t), TorusMinor * m.sin(p), (TorusMajor + TorusMinor * m.cos(p)) * m.sin(t))
  }

  /** The quadrilateral at ring step `i` and tube step `j`. */
  function TorusFace(m: MathLib, i: int, j: int): Face {
    var theta1 := Turn(m, i, RingSegments);
    var theta2 := Turn(m, i + 1, RingSegments);
    var phi1 := Turn(m, j, TubeSegments);
    var phi2 := Turn(m, j + 1, TubeSegments);
    Face([TorusPoint(m, theta1, phi1), TorusPoint(m, theta2, phi1), TorusPoint(m, theta2, phi2), TorusPoint(m, theta1, phi2)],
         (i + j) % 6)
  }

  /** The faces of `generateColoredTorus` in the order they are tested: face `12 * i + j`. */
  function TorusFaces(m: MathLib): (r: seq<Face>)
    ensures |r| == 192 && WellFormed(r)
    ensures forall k :: 0 <= k < 192 ==> |r[k].pts| == 4 && r[k].color < 6
  {
    seq(192, k requires 0 <= k < 192 => TorusFace(m, k / 12, k % 12))
  }

  /** Face `12 * i + j` of the torus is the one at ring step `i` and tube step `j`. */
  lemma TorusFaceAt(m: MathLib, i: int, j: int)
    requires 0 <= i < RingSegments && 0 <= j < TubeSegments
    ensures TorusFaces(m)[12 * i + j] == TorusFace(m, i, j)
  {
    var k := 12 * i + j;
    assert k / 12 == i && k % 12 == j;
  }

  /** `generateColoredTorus`: one ring of twelve faces per step around the axis. */
  method ColoredTorus(m: MathLib, proj: Vec3 -> Point2D) returns (frame: Frame)
    ensures frame == Cull(proj, TorusFaces(m))
  {
    frame := [];
    for i := 0 to RingSegments
      invariant frame == Cull(proj, TorusFaces(m)[..12 * i])
    {
      frame := TorusRing(m, proj, i, frame);
    }
    assert TorusFaces(m)[..192] == TorusFaces(m);
  }

  /** Ring `i` of `generateColoredTorus`: faces `12 * i` to `12 * i + 11`, drawn after the earlier ones. */
  method TorusRing(m: MathLib, proj: Vec3 -> Point2D, i: int, before: Frame) returns (frame: Frame)
    requires 0 <= i < RingSegments
    requires before == Cull(proj, TorusFaces(m)[..12 * i])
    ensures frame == Cull(proj, TorusFaces(m)[..12 * i + 12])
  {
    ghost var faces := TorusFaces(m);
    frame := before;
    var theta1 := Turn(m, i, RingSegments);
    var theta2 := Turn(m, i + 1, RingSegments);
    for j := 0 to TubeSegments
      invariant frame == Cull(proj, faces[..12 * i + j])
    {
      var phi1 := Turn(m, j, TubeSegments);
      var phi2 := Turn(m, j + 1, TubeSegments);
      var q1 := TorusPoint(m, theta1, phi1);
      var q2 := TorusPoint(m, theta2, phi1);
      var q3 := TorusPoint(m, theta2, phi2);
      var q4 := TorusPoint(m, theta1, phi2);
      var pts := [proj(q1), proj(q2), proj(q3), proj(q4)];
      ghost var k := 12 * i + j;
      CullStep(proj, faces, k);
      Project4(proj, q1, q2, q3, q4);
      TorusFaceAt(m, i, j);
      assert faces[k] == Face([q1, q2, q3, q4], (i + j) % 6);
      if FrontFacing(pts) {
        frame := frame + [Polygon(pts, (i + j) % 6)];
      }
    }
  }

  /** Quadrilaterals only, in the first six colours. */
  lemma ColoredTorusShape(m: MathLib, proj: Vec3 -> Point2D)
    ensures |Cull(proj, TorusFaces(m))| <= 192
    ensures forall p :: p in Cull(proj, TorusFaces(m)) ==> p.Polygon? && |p.pts| == 4 && p.color < 6
  {
    var faces := TorusFaces(m);
    forall p | p in Cull(proj, faces)
      ensures p.Polygon? && |p.pts| == 4 && p.color < 6
    {
      var i := CulledFace(proj, faces, p);
    }
  }

  /** Neighbouring quadrilaterals share edges, around the axis and around the tube. */
  lemma TorusWatertight(m: MathLib, i: int, j: int)
    ensures TorusFace(m, i, j).pts[1] == TorusFace(m, i + 1, j).pts[0]
    ensures TorusFace(m, i, j).pts[2] == TorusFace(m, i + 1, j).pts[3]
    ensures TorusFace(m, i, j).pts[3] == TorusFace(m, i, j + 1).pts[0]
    ensures TorusFace(m, i, j).pts[2] == TorusFace(m, i, j + 1).pts[1]
  {
  }

  /** Neighbouring faces differ in colour, around the axis and around the tube. */
  lemma TorusColorsAlternate(m: MathLib, i: nat, j: nat)
    ensures TorusFace(m, i, j).color != TorusFace(m, i + 1, j).color
    ensures TorusFace(m, i, j).color != TorusFace(m, i, j + 1).color
  {
  }
}
