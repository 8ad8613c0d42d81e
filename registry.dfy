/**
 * The shape registry: the six shape names, `getShapeGenerator` choosing the
 * outline or the filled generator by name, and rendering one view with the
 * chosen generator.
 */
module Registry {
  import opened Wrappers
  import opened Vector
  import opened Primitives
  import Wireframe
  import Filled

  datatype Shape = Cube | Cylinder | Sphere | Pyramid | Torus | Cone

  /** A generator of frames: the outline (wireframe) one or the filled, back-face-culled one. */
  datatype Generator = Outline(shape: Shape) | Colored(shape: Shape)

  /** `SHAPE_NAMES`, in its order. */
  const ShapeNames: seq<string> := ["Cube", "Cylinder", "Sphere", "Pyramid", "Torus", "Cone"]

  const Shapes: seq<Shape> := [Cube, Cylinder, Sphere, Pyramid, Torus, Cone]

  function NameOf(s: Shape): string {
    match s
    case Cube => "Cube"
    case Cylinder => "Cylinder"
    case Sphere => "Sphere"
    case Pyramid => "Pyramid"
    case Torus => "Torus"
    case Cone => "Cone"
  }

  /** A name matched by the `switch`, if it is one of the six. */
  function ShapeNamed(name: string): (r: Option<Shape>)
    ensures r.Some? ==> NameOf(r.value) == name
    ensures r.None? ==> forall s: Shape :: NameOf(s) != name
  {
    if name == "Cube" then Some(Cube)
    else if name == "Cylinder" then Some(Cylinder)
    else if name == "Sphere" then Some(Sphere)
    else if name == "Pyramid" then Some(Pyramid)
    else if name == "Torus" then Some(Torus)
    else if name == "Cone" then Some(Cone)
    else None
  }

  /**
   * `getShapeGenerator(name, colored)`: with `colored`, a known name picks the
   * filled generator; every other case falls to the outline switch, whose
   * default is the outline cube.
   */
  function GetShapeGenerator(name: string, colored: bool): Generator {
    match ShapeNamed(name)
    case Some(s) => if colored then Colored(s) else Outline(s)
    case None => Outline(Cube)
  }

  /** `SHAPE_NAMES` lists the names of the six shapes, each once, in the order of `Shapes`. */
  lemma ShapeNamesComplete()
    ensures |ShapeNames| == |Shapes| == 6
    ensures forall i :: 0 <= i < 6 ==> ShapeNames[i] == NameOf(Shapes[i])
    ensures forall s: Shape :: s in Shapes
    ensures forall i, j :: 0 <= i < j < 6 ==> ShapeNames[i] != ShapeNames[j]
  {
    forall s: Shape
      ensures s in Shapes
    {
      match s
      case Cube => assert Shapes[0] == s;
      case Cylinder => assert Shapes[1] == s;
      case Sphere => assert Shapes[2] == s;
      case Pyramid => assert Shapes[3] == s;
      case Torus => assert Shapes[4] == s;
      case Cone => assert Shapes[5] == s;
    }
  }

  /** Each shape's name selects that shape's generator of the asked kind. */
  lemma GeneratorByName(s: Shape, colored: bool)
    ensures GetShapeGenerator(NameOf(s), colored) == if colored then Colored(s) else Outline(s)
  {
  }

  /** An unknown name gives the outline cube, whether or not colours were asked for. */
  lemma UnknownNameIsCube(name: string, colored: bool)
    requires name !in ShapeNames
    ensures GetShapeGenerator(name, colored) == Outline(Cube)
  {
  }

  /** Colours are given exactly when they were asked for and the name is known. */
  lemma ColoredExactly(name: string, colored: bool)
    ensures GetShapeGenerator(name, colored).Colored? <==> colored && name in ShapeNames
  {
  }

  /** The frame the generator draws for one view: the specification of each generator. */
  function Render(m: MathLib, g: Generator, azimuth: real, elevation: real): Frame {
    var proj := Projector(m, azimuth, elevation);
    match g
    case Outline(Cube) => Wireframe.CubeFrame(proj)
    case Outline(Cylinder) => Wireframe.CylinderFrame(m, proj)
    case Outline(Sphere) => Wireframe.SphereFrame(m, proj)
    case Outline(Pyramid) => Wireframe.PyramidFrame(proj)
    case Outline(Torus) => Wireframe.TorusFrame(m, proj)
    case Outline(Cone) => Wireframe.ConeFrame(m, proj)
    case Colored(Cube) => Filled.ColoredCube(proj)
    case Colored(Cylinder) => Cull(proj, Filled.CylinderFaces(m))
    case Colored(Sphere) => Cull(proj, Filled.SphereFaces(m))
    case Colored(Pyramid) => Filled.ColoredPyramid(proj)
    case Colored(Torus) => Cull(proj, Filled.TorusFaces(m))
    case Colored(Cone) => Cull(proj, Filled.ConeFaces(m))
  }

  /** Calling the chosen generator for one view. */
  method Generate(m: MathLib, g: Generator, azimuth: real, elevation: real) returns (frame: Frame)
    ensures frame == Render(m, g, azimuth, elevation)
  {
    var proj := Projector(m, azimuth, elevation);
    match g
    case Outline(Cube) => frame := Wireframe.CubeFrame(proj);
    case Outline(Cylinder) => frame := Wireframe.Cylinder(m, proj);
    case Outline(Sphere) => frame := Wireframe.Sphere(m, proj);
    case Outline(Pyramid) => frame := Wireframe.Pyramid(proj);
    case Outline(Torus) => frame := Wireframe.Torus(m, proj);
    case Outline(Cone) => frame := Wireframe.Cone(m, proj);
    case Colored(Cube) => frame := Filled.ColoredCube(proj);
    case Colored(Cylinder) => frame := Filled.ColoredCylinder(m, proj);
    case Colored(Sphere) => frame := Filled.ColoredSphere(m, proj);
    case Colored(Pyramid) => frame := Filled.ColoredPyramid(proj);
    case Colored(Torus) => frame := Filled.ColoredTorus(m, proj);
    case Colored(Cone) => frame := Filled.ColoredCone(m, proj);
  }

  /** A filled frame is made of filled faces, each painted from `FACE_COLORS`. */
  lemma ColoredUsesPalette(m: MathLib, s: Shape, azimuth: real, elevation: real)
    ensures forall p :: p in Render(m, Colored(s), azimuth, elevation) ==> p.Polygon? && p.color < PaletteSize
  {
    var proj := Projector(m, azimuth, elevation);
    match s
    case Cube => Filled.ColoredCubeShape(proj);
    case Cylinder => Filled.ColoredCylinderShape(m, proj);
    case Sphere => Filled.ColoredSphereShape(m, proj);
    case Pyramid => Filled.ColoredPyramidShape(proj);
    case Torus => Filled.ColoredTorusShape(m, proj);
    case Cone => Filled.ColoredConeShape(m, proj);
  }

  /** An outline frame has no filled face. */
  lemma OutlineUnfilled(m: MathLib, s: Shape, azimuth: real, elevation: real)
    ensures forall p :: p in Render(m, Outline(s), azimuth, elevation) ==> !p.Polygon?
  {
    var proj := Projector(m, azimuth, elevation);
    var f := Render(m, Outline(s), azimuth, elevation);
    match s {
      case Cube => Wireframe.CubeShape(proj);
      case Cylinder => Wireframe.CylinderShape(m, proj);
      case Sphere => Wireframe.SphereShape(m, proj);
      case Pyramid => Wireframe.PyramidShape(proj);
      case Torus => Wireframe.TorusShape(m, proj);
      case Cone => Wireframe.ConeShape(m, proj);
    }
    forall p | p in f
      ensures !p.Polygon?
    {
      var i :| 0 <= i < |f| && f[i] == p;
      assert Kinds(f)[i] == KindOf(p);
    }
  }
}
