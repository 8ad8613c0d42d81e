# Orbit-camera shape engine and model-file store, in Dafny

This project models two parts of a 3D-model viewer.

The first is the procedural shape engine of `src/lib/shapeGenerators.ts`. It draws six solids as 400 x 400 vector frames: cube, cylinder, sphere, pyramid, torus and cone. Each solid has an outline (wireframe) variant and a filled variant with back-face culling. Every frame is drawn from a camera that orbits the origin at distance 400 and always looks at it. The model covers these pieces:

- the vector helpers (`normalize`, `cross`, `dot`);
- the look-at camera, with a substitute up vector beyond 89 degrees of elevation, and the perspective divide, whose divisor never drops below 1;
- the signed-area front-face test;
- the twelve generators;
- the registry that picks a generator by name;
- the grid of `rows x cols` views that the viewer pre-renders.

The second is the model-file store of `src/stores/modelStore.ts`. It holds a list of model-file records and the selected id. Two records ship with the application and can never be deleted. Users add, remove and select files and edit the selected file's configuration by merging partial records.

Modules:

- `wrappers.dfy`: an `Option` type.
- `vector.dfy`: vectors, and the host's `Math` functions as a parameter `MathLib`.
- `camera.dfy`: the camera transform.
- `primitives.dfy`: frames, the front-face test and per-face culling.
- `wireframe.dfy`: the outline generators.
- `filled.dfy`: the filled generators.
- `registry.dfy`: `SHAPE_NAMES`, `getShapeGenerator` and one rendered view.
- `frames.dfy`: the frame grid.
- `modelstore.dfy`: the store, as a class `Store` with the fields `files` and `selectedFileId`.

A frame is a sequence of primitives in the order the source emits its SVG elements: a `Line`, an open `Path` through points, or a filled `Polygon` with an index into the 8-entry palette. Each generator that builds its output in a loop is a method. The method is proved equal to a specification function, and the lemmas are stated about that function.

Where the code and its comments or descriptions disagree, the model follows the code:

- The comments at `src/lib/shapeGenerators.ts:232` and `:244` say elevations run from -60 to +60 degrees. The constants at `:239-240`, which the loop uses, give -90 to +90, and the model uses those.
- The outline pyramid and cone have their apex at negative y, so it is drawn below the base once y is flipped for the screen. The filled pyramid and cone have it at positive y. The model keeps both as written.

Straight ahead, only face 1 (+z) of the filled cube passes the front-face test, because the camera at distance 400 lies inside the slabs of the four side faces (`Filled.CubeFromFront`).

## Model

| member | source | states |
|---|---|---|
| Vector.NormalizeSpec | src/lib/shapeGenerators.ts:13-16 | normalize of the zero vector is exactly (0,0,1); for any other vector the length is positive, squares to the squared norm, and the result is the vector scaled by 1/length, so scaling it back by the length gives the input and the result has squared length 1 |
| Vector.Normalize | src/lib/shapeGenerators.ts:13-16 | `normalize`: the vector divided by its length, or (0,0,1) when the length is not positive; what it promises is stated by `Vector.NormalizeSpec` |
| Vector.DivideByLength | src/lib/shapeGenerators.ts:15 | dividing each coordinate by a positive length is scaling by its reciprocal, and scaling back restores the vector |
| Vector.CrossOrthogonal | src/lib/shapeGenerators.ts:19-25 | cross(a, b) has zero dot product with a and with b |
| Vector.CrossAntiSymmetric | src/lib/shapeGenerators.ts:19-25 | cross(a, b) = -cross(b, a) |
| Vector.CrossScale | src/lib/shapeGenerators.ts:19-25 | cross is linear in its second argument under scaling |
| Vector.Cross | src/lib/shapeGenerators.ts:19-25 | `cross`: the coordinate formula; stated by `Vector.CrossOrthogonal`, `Vector.CrossAntiSymmetric` and `Vector.CrossScale` |
| Vector.DotSymmetric | src/lib/shapeGenerators.ts:28-30 | dot(a, b) = dot(b, a) |
| Vector.DotScale | src/lib/shapeGenerators.ts:28-30 | dot is linear in each argument under scaling |
| Vector.Dot | src/lib/shapeGenerators.ts:28-30 | `dot`: the sum of coordinate products; stated by `Vector.DotSymmetric` and `Vector.DotScale` |
| Camera.WorldUp | src/lib/shapeGenerators.ts:47-54 | the reference up vector is world Y-up exactly when abs(elevation) <= 89; otherwise it is horizontal |
| Camera.Depth | src/lib/shapeGenerators.ts:69-70 | the perspective divisor is at least 1 and at least the camera-space depth, and is one of the two |
| Camera.CameraSpace | src/lib/shapeGenerators.ts:59-66 | the point relative to the camera, dotted with right, up and forward; stated by `Camera.OriginOnAxis` and `Camera.FrontCameraSpace` |
| Camera.Perspective | src/lib/shapeGenerators.ts:68-74 | the divide by `Camera.Depth` around the centre, with y flipped; stated by `Camera.OriginAtCenter` and `Camera.FrontView` |
| Camera.Project | src/lib/shapeGenerators.ts:34-80 | `transformWithCamera`, and `transform`, which forwards to it: the perspective divide of the camera-space coordinates; stated by `Camera.OriginAtCenter`, `Camera.ViewCentered` and `Camera.FrontView` |
| Camera.BasisOrthogonal | src/lib/shapeGenerators.ts:45-57 | unless up is parallel to the viewing direction, right, up and forward are pairwise orthogonal |
| Camera.OriginOnAxis | src/lib/shapeGenerators.ts:59-66 | the origin has camera-space x and y equal to 0: the camera looks at it |
| Camera.OriginAtCenter | src/lib/shapeGenerators.ts:34-75 | the origin is drawn at the centre (200, 200) of the frame |
| Camera.YUpDegenerateOnAxis | src/lib/shapeGenerators.ts:39-56 | with world Y-up, a camera on the vertical axis has no right vector (the cross product is zero) |
| Camera.ForwardNonzero | src/lib/shapeGenerators.ts:45 | forward has a non-zero coordinate wherever the camera position has one |
| Camera.PoleNotDegenerate | src/lib/shapeGenerators.ts:47-56 | beyond the pole limit, with the camera off the horizontal plane and sin² + cos² = 1 at the azimuth, the substitute up vector is not parallel to forward, so right is a true cross product |
| Camera.YUpNotDegenerate | src/lib/shapeGenerators.ts:47-56 | within the pole limit, with the camera off the vertical axis and sin² + cos² = 1 at the azimuth, world Y-up is not parallel to forward |
| Camera.ViewCentered | src/lib/shapeGenerators.ts:34-75 | under those conditions every view has an orthogonal camera basis and draws the origin at the centre (200, 200) |
| Camera.ZeroIsStraightAhead | src/lib/shapeGenerators.ts:35-54 | azimuth 0 and elevation 0 satisfy the straight-ahead conditions used below, given sin 0 = 0, cos 0 = 1 and two square roots |
| Camera.FrontPosition | src/lib/shapeGenerators.ts:39-42 | straight ahead, the camera sits at (0, 0, 400) |
| Camera.NormalizeBackward | src/lib/shapeGenerators.ts:45 | the straight-ahead forward vector normalizes to (0, 0, -1) |
| Camera.NormalizeLeft | src/lib/shapeGenerators.ts:56 | the straight-ahead right vector normalizes to itself, (-1, 0, 0) |
| Camera.FrontForward | src/lib/shapeGenerators.ts:45 | straight ahead, forward is (0, 0, -1) |
| Camera.FrontRight | src/lib/shapeGenerators.ts:56 | straight ahead, right is (-1, 0, 0) |
| Camera.FrontUp | src/lib/shapeGenerators.ts:57 | straight ahead, up is (0, 1, 0) |
| Camera.FrontCoordinates | src/lib/shapeGenerators.ts:59-66 | with that basis and camera position, camera coordinates are (-x, y, 400 - z) |
| Camera.FrontCameraSpace | src/lib/shapeGenerators.ts:59-66 | straight ahead, every point has camera coordinates (-x, y, 400 - z) |
| Camera.FrontView | src/lib/shapeGenerators.ts:34-75 | straight ahead, every point is drawn at the perspective divide of (-x, y, 400 - z) |
| Primitives.SwapNegates | src/lib/shapeGenerators.ts:269-275 | swapping the second and third points negates the signed area |
| Primitives.SignedArea | src/lib/shapeGenerators.ts:270-274 | the cross product of the first two edges of the screen triangle; stated by `Primitives.SwapNegates`, `Primitives.RotateKeeps` and `Primitives.CollinearNotFront` |
| Primitives.FrontFacing | src/lib/shapeGenerators.ts:269-275 | `isFrontFacing`: the signed area of the first three points is positive; stated by `Primitives.FrontFacingSwap` and `Primitives.FrontFacingPrefix` |
| Primitives.FrontFacingSwap | src/lib/shapeGenerators.ts:269-275 | at most one of the two windings of a triangle is front-facing |
| Primitives.RotateKeeps | src/lib/shapeGenerators.ts:269-275 | rotating the three points keeps the signed area |
| Primitives.CollinearNotFront | src/lib/shapeGenerators.ts:269-275 | three collinear points are never front-facing |
| Primitives.FrontFacingPrefix | src/lib/shapeGenerators.ts:269-275 | the test reads only the first three points |
| Primitives.Cull | src/lib/shapeGenerators.ts:292-297 | culling a face list never draws more polygons than there are faces |
| Primitives.CullAppend | src/lib/shapeGenerators.ts:292-297 | culling distributes over concatenation of face lists, so faces are drawn in list order |
| Primitives.CullComplete | src/lib/shapeGenerators.ts:292-297 | every face that passes the test is drawn |
| Primitives.CulledFace | src/lib/shapeGenerators.ts:292-297 | every drawn polygon is the projection of a face that passes the test, with that face's corner count and colour |
| Primitives.CullEmpty | src/lib/shapeGenerators.ts:292-297 | nothing is drawn exactly when no face passes the test |
| Primitives.CullAllVisible | src/lib/shapeGenerators.ts:292-297 | when all faces pass, all are drawn, in order |
| Primitives.CullHidden | src/lib/shapeGenerators.ts:292-297 | a face that fails the test makes the frame shorter than the face list |
| Primitives.CullAll | src/lib/shapeGenerators.ts:292-297 | every face is drawn exactly when every face passes the test |
| Primitives.CullSingle | src/lib/shapeGenerators.ts:292-297 | when exactly one face passes, the frame is that face alone |
| Primitives.CullColors | src/lib/shapeGenerators.ts:292-297 | if all face colours are palette indices, every drawn primitive is a polygon with a palette index |
| Wireframe.Ellipse3D | src/lib/shapeGenerators.ts:95-104 | the loop builds one path through the segments + 1 projected points of the ellipse |
| Wireframe.EllipsePointPeriodic | src/lib/shapeGenerators.ts:97-100 | angles with the same sine and cosine give the same ellipse point |
| Wireframe.EllipseClosed | src/lib/shapeGenerators.ts:97-101 | if sin and cos are periodic at 2 pi, the last point of the path is the first, so the ring closes |
| Wireframe.CubeEdgesAdjacent | src/lib/shapeGenerators.ts:109-113 | there are 12 edges, each joins two of the 8 corners, and those corners differ in exactly one coordinate |
| Wireframe.CubeEdgesDistinct | src/lib/shapeGenerators.ts:113 | no edge is listed twice in either direction |
| Wireframe.CubeEdgesComplete | src/lib/shapeGenerators.ts:109-113 | every pair of adjacent corners is an edge of the table |
| Wireframe.CubeShape | src/lib/shapeGenerators.ts:107-115 | the outline cube is 12 lines at every view |
| Wireframe.CubeFrame | src/lib/shapeGenerators.ts:107-115 | `generateCube`: one line per edge of the table, between the projected corners; stated by `Wireframe.CubeShape` and the `CubeEdges` lemmas |
| Wireframe.Cylinder | src/lib/shapeGenerators.ts:118-131 | the loop draws the two rims and then the 8 struts of the specification |
| Wireframe.CylinderShape | src/lib/shapeGenerators.ts:118-131 | 2 paths of 25 points, then 8 lines |
| Wireframe.Sphere | src/lib/shapeGenerators.ts:134-159 | the loops draw the 5 latitude circles and then the 8 meridians of the specification |
| Wireframe.SphereShape | src/lib/shapeGenerators.ts:134-159 | 5 paths of 33 points, then 8 paths of 25 points |
| Wireframe.LatitudesInside | src/lib/shapeGenerators.ts:138-141 | every latitude lies strictly between the poles, so the root taken for its radius is of a positive number |
| Wireframe.Pyramid | src/lib/shapeGenerators.ts:162-175 | the loops draw the 4 base edges and then the 4 edges to the apex |
| Wireframe.PyramidShape | src/lib/shapeGenerators.ts:162-175 | 8 lines |
| Wireframe.Torus | src/lib/shapeGenerators.ts:178-214 | the nested loops draw the 12 rings and then the 16 tube circles of the specification |
| Wireframe.TorusShape | src/lib/shapeGenerators.ts:178-214 | 12 paths of 17 points, then 16 paths of 25 points |
| Wireframe.Cone | src/lib/shapeGenerators.ts:217-229 | the loop draws the base rim and then 12 lines to the apex |
| Wireframe.ConeShape | src/lib/shapeGenerators.ts:217-229 | 1 path of 25 points, then 12 lines |
| Filled.ProjectCorners | src/lib/shapeGenerators.ts:292-293 | projecting a face's corners is looking up the projected vertices by index |
| Filled.CubeFaces | src/lib/shapeGenerators.ts:280-291 | the cube has 6 faces of 4 corners each, coloured with palette indices |
| Filled.FaceTablesInRange | src/lib/shapeGenerators.ts:284-315 | cube face indices are in 0..7, pyramid face indices in 0..4, and no face repeats a corner |
| Filled.CubeFacesFollowEdges | src/lib/shapeGenerators.ts:284-291 | walking round each face moves along edges of the cube |
| Filled.CubeFacesOutward | src/lib/shapeGenerators.ts:284-291 | each face is wound so that its normal points out of the cube |
| Filled.ColoredCubeShape | src/lib/shapeGenerators.ts:278-299 | at most 6 polygons, each with 4 corners and a palette colour |
| Filled.ColoredCube | src/lib/shapeGenerators.ts:278-299 | `generateColoredCube`: the cube face table culled; stated by `Filled.ColoredCubeShape` and `Filled.CubeFromFront` |
| Filled.FrontCubeCorner | src/lib/shapeGenerators.ts:280-293 | straight ahead, each cube corner is drawn at its listed screen point |
| Filled.FrontCubePerspective | src/lib/shapeGenerators.ts:68-74 | the perspective divide of each straight-ahead corner gives that screen point |
| Filled.FrontCubeFaces | src/lib/shapeGenerators.ts:292-293 | straight ahead, each face is drawn through the listed screen corners |
| Filled.FrontCubeSign | src/lib/shapeGenerators.ts:284-294 | of those six drawn faces, exactly face 1 (towards +z) passes the front-face test |
| Filled.FrontCubeCulled | src/lib/shapeGenerators.ts:292-297 | with those projections, culling leaves face 1 alone |
| Filled.CubeFromFront | src/lib/shapeGenerators.ts:278-299 | straight ahead, the filled cube is exactly one square, (300,300) (100,300) (100,100) (300,100), in colour 1 |
| Filled.PyramidFaces | src/lib/shapeGenerators.ts:304-315 | 4 triangles starting at the apex and then a 4-corner base, coloured with palette indices |
| Filled.PyramidSliceTest | src/lib/shapeGenerators.ts:318 | testing the first three projected corners decides the same as testing the face |
| Filled.PyramidFacesOutward | src/lib/shapeGenerators.ts:309-315 | each face is wound so that its normal points out of the pyramid |
| Filled.ColoredPyramidShape | src/lib/shapeGenerators.ts:302-323 | at most 5 polygons with 3 or 4 corners and palette colours |
| Filled.ColoredPyramid | src/lib/shapeGenerators.ts:302-323 | `generateColoredPyramid`: the pyramid face table culled; stated by `Filled.ColoredPyramidShape` |
| Filled.ConeFaces | src/lib/shapeGenerators.ts:326-373 | 16 side triangles from the apex in colours below 6, then the 16-corner cap in colour 6 |
| Filled.ColoredCone | src/lib/shapeGenerators.ts:326-376 | the loops draw exactly the culled cone face list |
| Filled.ColoredConeShape | src/lib/shapeGenerators.ts:341-373 | at most 17 polygons: triangles in colours below 6, or the 16-gon in colour 6 |
| Filled.ConeWatertight | src/lib/shapeGenerators.ts:332-368 | neighbouring sides share a rim point, and the cap runs through the sides' rim points |
| Filled.CylinderFaces | src/lib/shapeGenerators.ts:379-419 | 16 side quadrilaterals in colours below 6, the top cap in colour 6 and the bottom cap in colour 7, both 16-gons |
| Filled.ColoredCylinder | src/lib/shapeGenerators.ts:379-422 | the sides, the top cap and the bottom cap draw exactly the culled cylinder face list |
| Filled.CylinderSides | src/lib/shapeGenerators.ts:383-397 | the side loop draws the culled first 16 faces |
| Filled.CylinderTopPoints | src/lib/shapeGenerators.ts:399-404 | the top-cap loop projects the top rim by ascending angle |
| Filled.CylinderBottomPoints | src/lib/shapeGenerators.ts:410-415 | the descending bottom-cap loop projects the bottom rim in the order of the bottom face |
| Filled.ColoredCylinderShape | src/lib/shapeGenerators.ts:393-419 | at most 18 polygons: quadrilaterals in colours below 6, or 16-gons in colour 6 or 7 |
| Filled.CylinderCapsOpposite | src/lib/shapeGenerators.ts:399-415 | the bottom cap is the top cap mirrored to the other rim and walked the other way round |
| Filled.CylinderWatertight | src/lib/shapeGenerators.ts:384-415 | neighbouring sides share an edge, and each cap runs through the sides' corners |
| Filled.SphereFaces | src/lib/shapeGenerators.ts:425-476 | 96 faces with colours below 6 |
| Filled.ColoredSphere | src/lib/shapeGenerators.ts:425-479 | the north cap, six bands and south cap draw exactly the culled sphere face list |
| Filled.SphereNorthCap | src/lib/shapeGenerators.ts:429-442 | the north-cap loop draws the culled first 12 faces |
| Filled.SphereBands | src/lib/shapeGenerators.ts:444-462 | the outer band loop, lat from 1 to 6, turns the culled north cap into the culled first 84 faces |
| Filled.SphereBand | src/lib/shapeGenerators.ts:444-461 | one band's loop appends the culled next 12 faces |
| Filled.SphereBandFace | src/lib/shapeGenerators.ts:444-461 | face 12 * lat + lon of the list is the band face at that latitude and longitude |
| Filled.SphereSouthCap | src/lib/shapeGenerators.ts:463-476 | the south-cap loop appends the culled last 12 faces |
| Filled.ColoredSphereShape | src/lib/shapeGenerators.ts:438-476 | at most 96 polygons with 3 or 4 corners and colours below 6 |
| Filled.SphereWatertight | src/lib/shapeGenerators.ts:429-476 | caps and bands meet: cap triangles share edges with the outer bands, and neighbouring bands share edges |
| Filled.TorusFaces | src/lib/shapeGenerators.ts:485-497 | 192 quadrilaterals in colours below 6 |
| Filled.TorusFaceAt | src/lib/shapeGenerators.ts:485-497 | face 12 * i + j of the list is the one at ring step i and tube step j |
| Filled.ColoredTorus | src/lib/shapeGenerators.ts:482-505 | the nested loops draw exactly the culled torus face list |
| Filled.TorusRing | src/lib/shapeGenerators.ts:485-503 | one pass of the outer loop appends the culled next 12 faces |
| Filled.ColoredTorusShape | src/lib/shapeGenerators.ts:496-500 | at most 192 quadrilaterals in colours below 6 |
| Filled.TorusWatertight | src/lib/shapeGenerators.ts:491-496 | neighbouring quadrilaterals share edges around the axis and around the tube |
| Filled.TorusColorsAlternate | src/lib/shapeGenerators.ts:500 | neighbouring faces differ in colour in both directions |
| Registry.ShapeNamed | src/lib/shapeGenerators.ts:518-526 | a matched name is the name of the shape returned, and an unmatched name is no shape's name |
| Registry.GetShapeGenerator | src/lib/shapeGenerators.ts:507-528 | `getShapeGenerator`: the filled generator for a known name with colours asked for, else the outline switch with the cube as default; stated by `Registry.GeneratorByName`, `Registry.UnknownNameIsCube` and `Registry.ColoredExactly` |
| Registry.ShapeNamesComplete | src/lib/shapeGenerators.ts:262 | the six names are those of the six shapes, in order, each once |
| Registry.GeneratorByName | src/lib/shapeGenerators.ts:507-527 | a shape's name picks that shape's filled generator when colours are asked for, and its outline generator otherwise |
| Registry.UnknownNameIsCube | src/lib/shapeGenerators.ts:507-527 | an unknown name gives the outline cube, even when colours are asked for |
| Registry.ColoredExactly | src/lib/shapeGenerators.ts:507-527 | a filled generator is returned exactly when colours are asked for and the name is known |
| Registry.Generate | src/lib/shapeGenerators.ts:507-527 | calling the chosen generator draws the frame its specification describes |
| Registry.Render | src/lib/shapeGenerators.ts:507-528 | the frame each returned generator draws for one view; stated by `Registry.ColoredUsesPalette` and `Registry.OutlineUnfilled` |
| Registry.ColoredUsesPalette | src/lib/shapeGenerators.ts:266-505 | a filled frame contains only polygons, each with an index into the 8-entry palette |
| Registry.OutlineUnfilled | src/lib/shapeGenerators.ts:107-229 | an outline frame contains no filled polygon |
| Frames.GenerateShapeFrames | src/lib/shapeGenerators.ts:233-255 | rows rows of cols frames each (none when negative), the frame at (r, c) drawn at the azimuth of c and the elevation of r |
| Frames.ElevationEnds | src/lib/shapeGenerators.ts:239-245 | row 0 is at -90 degrees and row rows - 1 at +90 |
| Frames.ElevationMiddle | src/lib/shapeGenerators.ts:236 | with an odd number of rows, the middle row is at 0 degrees |
| Frames.ElevationIncreasing | src/lib/shapeGenerators.ts:245 | elevation strictly increases with the row |
| Frames.ElevationInRange | src/lib/shapeGenerators.ts:239-245 | every row's elevation is within [-90, 90] |
| Frames.AzimuthStart | src/lib/shapeGenerators.ts:248 | column 0 has azimuth 0 |
| Frames.AzimuthDecreasing | src/lib/shapeGenerators.ts:248 | azimuth strictly decreases with the column |
| Frames.AzimuthInRange | src/lib/shapeGenerators.ts:248 | every column's azimuth is within (-360, 0] |
| Frames.AzimuthPeriodic | src/lib/shapeGenerators.ts:248 | cols more columns is one more full turn |
| Frames.DefaultGrid | src/lib/shapeGenerators.ts:235-236 | with 13 rows and 72 columns, rows are 15 degrees apart with row 6 on the horizon, and columns 5 degrees apart |
| ModelStore.MergeConfigFields | src/stores/modelStore.ts:134 | each config key present in the patch takes the patch's value, and each absent key keeps its old value |
| ModelStore.MergeTransformFields | src/stores/modelStore.ts:151 | the same for the transform keys |
| ModelStore.MergeConfig | src/stores/modelStore.ts:134 | `{ ...file.config, ...config }`: each present key of the patch replaces the old value; stated by `ModelStore.MergeConfigFields` |
| ModelStore.MergeTransform | src/stores/modelStore.ts:151 | `{ ...file.config.transform, ...transform }`; stated by `ModelStore.MergeTransformFields` |
| ModelStore.MergeConfigIdentityIdempotent | src/stores/modelStore.ts:134 | merging an empty patch changes nothing; merging a patch twice equals merging it once |
| ModelStore.MergeTransformIdentityIdempotent | src/stores/modelStore.ts:151 | the same for transform patches |
| ModelStore.MergeConfigLaterWins | src/stores/modelStore.ts:127-138 | a later patch overrides an earlier one key by key and keeps the earlier value where it is silent |
| ModelStore.IndexOf | src/stores/modelStore.ts:100 | the lookup returns the first index with the id, or none exactly when no record has the id |
| ModelStore.FindFirst | src/stores/modelStore.ts:100 | `find` returns a record that carries the id, and none exactly when no record carries it |
| ModelStore.SelectedConfig | src/stores/modelStore.ts:121-125 | the config of the first record with the selected id, if any; stated by `ModelStore.SelectedConfigSpec` |
| ModelStore.SelectedConfigSpec | src/stores/modelStore.ts:121-125 | no selection gives no config; otherwise the result is the config of the first record with the selected id, and none exactly when no record has it |
| ModelStore.DanglingSelection | src/stores/modelStore.ts:117-125 | a selected id that no record carries gives no config |
| ModelStore.RemoveById | src/stores/modelStore.ts:109 | the result holds exactly the records of the input whose id differs, and is no longer |
| ModelStore.RemoveByIdAppend | src/stores/modelStore.ts:109 | filtering distributes over concatenation, so the kept records stay in their order |
| ModelStore.RemoveByIdAbsent | src/stores/modelStore.ts:109 | without a record with the id, nothing is removed |
| ModelStore.RemoveByIdIdempotent | src/stores/modelStore.ts:109 | removing an id twice is removing it once |
| ModelStore.UpdateConfig | src/stores/modelStore.ts:131-137 | the length is kept, records with another id are unchanged, and records with the id get the merged config and nothing else changed |
| ModelStore.UpdateTransform | src/stores/modelStore.ts:144-156 | the same, merging into config.transform only |
| ModelStore.UpdateTransformKeepsRest | src/stores/modelStore.ts:144-156 | a transform patch changes no field of any record other than config.transform |
| ModelStore.UpdateTransformIsConfigPatch | src/stores/modelStore.ts:140-156 | a transform patch is the config patch that sets the merged transform |
| ModelStore.NatToString | src/stores/modelStore.ts:86 | the decimal rendering of a timestamp has at least one digit, and at least two from 10 on |
| ModelStore.NatToStringInjective | src/stores/modelStore.ts:86 | distinct timestamps render differently |
| ModelStore.UserIdFresh | src/stores/modelStore.ts:86 | a new id never equals a default id, and different timestamps give different ids |
| ModelStore.UserId | src/stores/modelStore.ts:86 | `user-${Date.now()}` with the clock reading as a parameter; stated by `ModelStore.UserIdFresh` |
| ModelStore.NewFile | src/stores/modelStore.ts:85-92 | the appended record: the new id, the name and url, not a default, the default config and multiplier 1 |
| ModelStore.SameInstantSameId | src/stores/modelStore.ts:86 | two files added at the same clock reading share an id, and removing it deletes both records |
| ModelStore.FallbackIsFirstDefault | src/stores/modelStore.ts:110-112 | with the defaults in front, the selection after removing the selected file is the first default |
| ModelStore.FirstId | src/stores/modelStore.ts:111 | the fallback selection after a removal: the first id, or none when the list is empty or that id is empty; stated by `ModelStore.FallbackIsFirstDefault` and `ModelStore.Store.RemoveFile` |
| ModelStore.DefaultIdFindsDefault | src/stores/modelStore.ts:100-101 | looking up a default id finds the default record, so removal of a default is refused |
| ModelStore.RemoveKeepsDefaults | src/stores/modelStore.ts:99-115 | removing an id that no default record carries keeps both defaults in front |
| ModelStore.Store.constructor | src/stores/modelStore.ts:79-81 | the initial files are the two defaults and the first one is selected |
| ModelStore.Store.AddFile | src/stores/modelStore.ts:83-97 | appends exactly the new non-default record with the default config and multiplier 1, selects its id, and keeps the defaults |
| ModelStore.Store.RemoveFile | src/stores/modelStore.ts:99-115 | does nothing when no record has the id or the first one is a default; otherwise removes every record with the id, and moves a selection of that id to the first remaining record (none if empty or its id is empty) |
| ModelStore.Store.SelectFile | src/stores/modelStore.ts:117-119 | selects the id, leaving the files alone |
| ModelStore.Store.GetSelectedConfig | src/stores/modelStore.ts:121-125 | none when nothing is selected, and otherwise the config of a record carrying the selected id |
| ModelStore.Store.SetConfig | src/stores/modelStore.ts:127-138 | does nothing when no id (or the empty id) is selected; otherwise merges the patch into every record with the selected id |
| ModelStore.Store.SetTransform | src/stores/modelStore.ts:140-157 | the same, merging into config.transform |

## Left out

- Floating point: every number is a Dafny `real`, and rounding, NaN and infinities are not modelled. `Math.sin`, `Math.cos`, `Math.sqrt` and `Math.PI` are function values of `MathLib`. A lemma that needs a fact about them takes it as a precondition (`SqrtSound`, `FrontViewMath`, `StraightAhead`, periodicity in `EllipseClosed`).
- Screen positions are computed only for the straight-ahead cube (`Filled.CubeFromFront`). For the other views and solids, the model proves what is drawn in terms of the front-face test, not which faces pass it.
- The SVG text is not modelled: `svgWrapper`, the path syntax, number formatting, stroke colours and widths, the torus tubes' stroke opacity, and the hex colour strings. Colours are palette indices; `FACE_COLORS` has 8 entries.
- `btoa` and the data-URL packaging in `generateShapeFrames`: a grid cell is the frame itself, not its encoded string.
- The no-op `revokeShapeFrames`, which does nothing. (`transform` forwards to `transformWithCamera`, which is `Camera.Project`.)
- The `basePts` loop of `generateColoredCone` is left out: it computes points that are never used, and only `capPts` reaches the output.
- Frames.GenerateShapeFrames: requires `rows != 1`. With one row the source divides 0 by 0 and the elevation is NaN, which reals cannot express. Non-integer `rows` and `cols` are not modelled either.
- Wireframe.Ellipse3D: requires at least one segment. The source divides by `segments`, and every caller passes 24 or 32.
- `getShapeGenerator` returns a function. The model returns a `Generator` tag, and `Registry.Render` and `Registry.Generate` are what calling it draws. The `ShapeName` type restricts names only at compile time, so the model accepts any string.
- In the store, `URL.createObjectURL`, `file.name` and `Date.now()` become the parameters `url`, `name` and `now` of `AddFile`.
- `URL.revokeObjectURL` frees browser memory and changes no store state, so it is left out.
- The zustand `create`/`set`/`get` plumbing is left out. The store is a plain class, and each action writes its two fields at once.
- A partial record whose key is present but set to `undefined` would copy `undefined` in the source. The model's `Option` patches only have absent keys (`None`) and present values.
- The React components and the files that only declare types or constants are not part of this model.
