/**
 * What a frame is made of, the front-face test and per-face culling.
 * A frame is an abstract list of drawing primitives in screen space, in the
 * order the generators emit their SVG elements.
 */
module Primitives {
  import opened Vector
  import Camera

  /** `<line>`, an open `<path>` through points, and a filled face with a palette index. */
  datatype Primitive =
    | Line(p: Point2D, q: Point2D)
    | Path(pts: seq<Point2D>)
    | Polygon(pts: seq<Point2D>, color: nat)

  type Frame = seq<Primitive>

  /** The shape of a primitive: what it is and how many points it has, but not where. */
  datatype Kind = LineKind | PathKind(points: nat) | PolygonKind(points: nat, color: nat)

  function KindOf(p: Primitive): Kind {
    match p
    case Line(_, _) => LineKind
    case Path(pts) => PathKind(|pts|)
    case Polygon(pts, color) => PolygonKind(|pts|, color)
  }

  function Kinds(f: Frame): seq<Kind> {
    seq(|f|, i requires 0 <= i < |f| => KindOf(f[i]))
  }

  /** Number of entries in `FACE_COLORS`. */
  const PaletteSize := 8

  /** Twice the signed area of the screen triangle p0 p1 p2. */
  function SignedArea(p0: Point2D, p1: Point2D, p2: Point2D): real {
    (p1.x - p0.x) * (p2.y - p0.y) - (p1.y - p0.y) * (p2.x - p0.x)
  }

  /** `isFrontFacing(pts)`: the first three points turn the positive way. */
  predicate FrontFacing(pts: seq<Point2D>)
    requires |pts| >= 3
  {
    SignedArea(pts[0], pts[1], pts[2]) > 0.0
  }

  /** Swapping the second and third points negates the signed area. */
  lemma SwapNegates(p0: Point2D, p1: Point2D, p2: Point2D)
    ensures SignedArea(p0, p2, p1) == -SignedArea(p0, p1, p2)
  {
  }

  /** At most one of the two windings of a triangle is front-facing. */
  lemma FrontFacingSwap(pts: seq<Point2D>)
    requires |pts| >= 3
    ensures FrontFacing(pts) ==> !FrontFacing([pts[0], pts[2], pts[1]])
  {
    SwapNegates(pts[0], pts[1], pts[2]);
  }

  /** Rotating the three points keeps the signed area. */
  lemma RotateKeeps(p0: Point2D, p1: Point2D, p2: Point2D)
    ensures SignedArea(p1, p2, p0) == SignedArea(p0, p1, p2)
  {
  }

  /** A third point on the line through the first two makes a face that is never front-facing. */
  lemma CollinearNotFront(pts: seq<Point2D>, t: real)
    requires |pts| >= 3
    requires pts[2] == Point2D(pts[0].x + t * (pts[1].x - pts[0].x), pts[0].y + t * (pts[1].y - pts[0].y))
    ensures !FrontFacing(pts)
  {
    assert SignedArea(pts[0], pts[1], pts[2]) == 0.0;
  }

  /** Only the first three points are read: `isFrontFacing(pts.slice(0, 3))` decides the same. */
  lemma FrontFacingPrefix(pts: seq<Point2D>)
    requires |pts| >= 3
    ensures FrontFacing(pts) == FrontFacing(pts[..3])
  {
  }

  /** A face of a filled shape: its corners in world space and its palette index. */
  datatype Face = Face(pts: seq<Vec3>, color: nat)

  predicate WellFormed(faces: seq<Face>) {
    forall i :: 0 <= i < |faces| ==> |faces[i].pts| >= 3
  }

  /** The camera projection for one view, as a function of the point. */
  function Projector(m: MathLib, azimuth: real, elevation: real): Vec3 -> Point2D {
    p => Camera.Project(m, p, azimuth, elevation)
  }

  function ProjectAll(proj: Vec3 -> Point2D, pts: seq<Vec3>): seq<Point2D> {
    seq(|pts|, i requires 0 <= i < |pts| => proj(pts[i]))
  }

  /** The face, projected, passes the front-face test. */
  predicate Visible(proj: Vec3 -> Point2D, f: Face)
    requires |f.pts| >= 3
  {
    FrontFacing(ProjectAll(proj, f.pts))
  }

  /** The polygon a face is drawn as. */
  function Emit(proj: Vec3 -> Point2D, f: Face): Primitive {
    Polygon(ProjectAll(proj, f.pts), f.color)
  }

  /** One face: drawn when visible, dropped otherwise. */
  function CullOne(proj: Vec3 -> Point2D, f: Face): Frame
    requires |f.pts| >= 3
  {
    if Visible(proj, f) then [Emit(proj, f)] else []
  }

  /** The faces in order, each drawn only if it is visible. */
  function Cull(proj: Vec3 -> Point2D, faces: seq<Face>): (r: Frame)
    requires WellFormed(faces)
    ensures |r| <= |faces|
    decreases |faces|
  {
    if faces == [] then []
    else
      var n := |faces| - 1;
      Cull(proj, faces[..n]) + CullOne(proj, faces[n])
  }

  /** Culling works face by face, so it distributes over concatenation. */
  lemma {:induction false} CullAppend(proj: Vec3 -> Point2D, a: seq<Face>, b: seq<Face>)
    requires WellFormed(a) && WellFormed(b)
    ensures WellFormed(a + b)
    ensures Cull(proj, a + b) == Cull(proj, a) + Cull(proj, b)
    decreases |b|
  {
    WellFormedAppend(a, b);
    if b == [] {
      assert a + b == a;
    } else {
      var n := |b| - 1;
      assert (a + b)[..|a + b| - 1] == a + b[..n];
      assert (a + b)[|a + b| - 1] == b[n];
      CullAppend(proj, a, b[..n]);
    }
  }

  lemma WellFormedAppend(a: seq<Face>, b: seq<Face>)
    requires WellFormed(a) && WellFormed(b)
    ensures WellFormed(a + b)
  {
  }

  /** Every visible face is drawn. */
  lemma {:induction false} CullComplete(proj: Vec3 -> Point2D, faces: seq<Face>, i: int)
    requires WellFormed(faces)
    requires 0 <= i < |faces| && Visible(proj, faces[i])
    ensures Emit(proj, faces[i]) in Cull(proj, faces)
    decreases |faces|
  {
    var n := |faces| - 1;
    if i < n {
      assert faces[..n][i] == faces[i];
      CullComplete(proj, faces[..n], i);
    }
  }

  /** Nothing is drawn exactly when no face is visible. */
  lemma {:induction false} CullEmpty(proj: Vec3 -> Point2D, faces: seq<Face>)
    requires WellFormed(faces)
    ensures Cull(proj, faces) == [] <==>
            forall i :: 0 <= i < |faces| ==> !Visible(proj, faces[i])
  {
    if Cull(proj, faces) != [] {
      var r := Cull(proj, faces);
      assert r[0] in r;
      var i := CulledFace(proj, faces, r[0]);
    }
    forall i | 0 <= i < |faces| && Visible(proj, faces[i])
      ensures Cull(proj, faces) != []
    {
      CullComplete(proj, faces, i);
    }
  }

  /** When every face is visible, every face is drawn, in order. */
  lemma {:induction false} CullAllVisible(proj: Vec3 -> Point2D, faces: seq<Face>)
    requires WellFormed(faces)
    requires forall i :: 0 <= i < |faces| ==> Visible(proj, faces[i])
    ensures Cull(proj, faces) == seq(|faces|, i requires 0 <= i < |faces| => Emit(proj, faces[i]))
    decreases |faces|
  {
    if faces != [] {
      var n := |faces| - 1;
      var all := seq(|faces|, i requires 0 <= i < |faces| => Emit(proj, faces[i]));
      var front := seq(n, i requires 0 <= i < n => Emit(proj, faces[..n][i]));
      CullAllVisible(proj, faces[..n]);
      assert front == all[..n];
      assert CullOne(proj, faces[n]) == [all[n]];
      assert all == all[..n] + [all[n]];
    }
  }

  /** A face that is not visible makes the frame shorter than the face list. */
  lemma {:induction false} CullHidden(proj: Vec3 -> Point2D, faces: seq<Face>, j: int)
    requires WellFormed(faces)
    requires 0 <= j < |faces| && !Visible(proj, faces[j])
    ensures |Cull(proj, faces)| < |faces|
    decreases |faces|
  {
    var n := |faces| - 1;
    if j < n {
      assert faces[..n][j] == faces[j];
      CullHidden(proj, faces[..n], j);
    }
  }

  /** Every face is drawn exactly when every face is visible. */
  lemma CullAll(proj: Vec3 -> Point2D, faces: seq<Face>)
    requires WellFormed(faces)
    ensures |Cull(proj, faces)| == |faces| <==>
            forall i :: 0 <= i < |faces| ==> Visible(proj, faces[i])
  {
    if forall i :: 0 <= i < |faces| ==> Visible(proj, faces[i]) {
      CullAllVisible(proj, faces);
    } else {
      var j :| 0 <= j < |faces| && !Visible(proj, faces[j]);
      CullHidden(proj, faces, j);
    }
  }

  /** When exactly one face is visible, the frame is that face alone. */
  lemma {:induction false} CullSingle(proj: Vec3 -> Point2D, faces: seq<Face>, j: int)
    requires WellFormed(faces)
    requires 0 <= j < |faces|
    requires forall i :: 0 <= i < |faces| ==> (Visible(proj, faces[i]) <==> i == j)
    ensures Cull(proj, faces) == [Emit(proj, faces[j])]
    decreases |faces|
  {
    var n := |faces| - 1;
    var front := faces[..n];
    assert Cull(proj, faces) == Cull(proj, front) + CullOne(proj, faces[n]);
    if j == n {
      forall i | 0 <= i < n
        ensures !Visible(proj, front[i])
      {
        assert front[i] == faces[i];
      }
      CullEmpty(proj, front);
      assert CullOne(proj, faces[n]) == [Emit(proj, faces[n])];
    } else {
      forall i | 0 <= i < n
        ensures Visible(proj, front[i]) <==> i == j
      {
        assert front[i] == faces[i];
      }
      CullSingle(proj, front, j);
      assert front[j] == faces[j];
      assert CullOne(proj, faces[n]) == [];
    }
  }

  /** Each drawn polygon is the emission of a visible face whose corner count and colour it keeps. */
  lemma {:induction false} CulledFace(proj: Vec3 -> Point2D, faces: seq<Face>, p: Primitive) returns (i: int)
    requires WellFormed(faces)
    requires p in Cull(proj, faces)
    ensures 0 <= i < |faces| && Visible(proj, faces[i]) && p == Emit(proj, faces[i])
    ensures p.Polygon? && |p.pts| == |faces[i].pts| && p.color == faces[i].color
    decreases |faces|
  {
    var n := |faces| - 1;
    if p in Cull(proj, faces[..n]) {
      i := CulledFace(proj, faces[..n], p);
      assert faces[..n][i] == faces[i];
    } else {
      i := n;
    }
  }

  /** Whatever is drawn uses a colour of its face, so palette bounds carry over. */
  lemma CullColors(proj: Vec3 -> Point2D, faces: seq<Face>)
    requires WellFormed(faces)
    requires forall i :: 0 <= i < |faces| ==> faces[i].color < PaletteSize
    ensures forall p :: p in Cull(proj, faces) ==> p.Polygon? && p.color < PaletteSize
  {
    forall p | p in Cull(proj, faces)
      ensures p.Polygon? && p.color < PaletteSize
    {
      var i := CulledFace(proj, faces, p);
    }
  }
}
