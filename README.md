# pygear3dgen in Dafny

A model of the two pieces of pygear3dgen that do the work.

- **The `wavefront` mesh builder** (`wavefront.py`) is the class `ObjMesh.Wavefront`. It holds:
  - a vertex list with no duplicates and a set holding the same vertices (`vertices`, `verticeset`);
  - a face list of index triples (`faces`);
  - the two settings fixed at construction: double faces, and the rounding of coordinates.

  `AddVertex`, `AddFace`, `AddQuad` and `Save` are methods on `seq` fields. Each is proved against a function on values:
  - `AddVertexTo` and `AddFaceTo`;
  - `FaceStep` and `QuadStep`, which include the flexible argument counts and the exceptions;
  - `Lines` and `Concat`, the OBJ text.
- **The generator `gear3dgen`** (`gear3dgen.py`) is the method `Gear.Gear3DGen`, proved equal to the function `Gear.Generation`. Its steps are:
  - build the tooth profile and repeat it for every tooth;
  - force two layers when there is no angle function;
  - build the layers of rim points, each closed by a copy of its first point (`BuildGeometry`);
  - stitch side walls, floor and ceiling into a `Wavefront` (`Stitch` and its loop methods);
  - return the OBJ text and the file name it would write to.

The stitching is also modelled with each point replaced by a label (module `Stitching`): rim point `k` of layer `l`, or one of the two centre points. The triangles gear3dgen emits are then a function of the number `N` of profile points and the number of layers. Over these labels the model proves:
- the triangle count;
- that every possible triangle is emitted exactly once;
- that the surface is closed and consistently wound.

`Gear.ClosedGearMesh` carries the closed-surface property over to the vertex indices of the mesh gear3dgen actually builds. It needs one assumption: rounding keeps distinct labels apart. `Gear.GearMeshVertices` bounds the vertex list of that mesh: every vertex is a rounded rim point or centre, so there are at most `N * layers + 2`.

The module `Text` renders and parses decimal integers. It covers the `f` lines of the OBJ file and the tooth count in the default file name.

Trigonometry, rounding and the conversion of a float to text are parameters:
- `place` gives the plane position (x, y) of a point from its radius, angle step and layer twist; the height is the layer's own, computed by the model;
- `round` rounds a coordinate to `crounding`/`xyrounding` decimals;
- `show` is Python's `str` of a float, as the `v` lines print the stored coordinates;
- `showArg` is Python's `str` of `outerrad` or `thickness` as the caller passed it, as the default file name prints them. An int argument prints without a decimal point.

## Model

| member | source | states |
|---|---|---|
| Text.NatToString | wavefront.py:84 | the decimal numeral of a natural number has at least one digit, only digits, and no leading zero |
| Text.ParseNatToString | wavefront.py:84 | reading a numeral back gives the number it was printed from |
| Text.IntToString | gear3dgen.py:45 | the numeral of an int starts with a minus sign exactly when the int is negative |
| Text.ParseIntToString | gear3dgen.py:45 | reading an int's numeral back gives the int |
| ObjMesh.IndexOf | wavefront.py:26 | `list.index`: the position returned holds the value and is its first occurrence |
| ObjMesh.IndexOfUnique | wavefront.py:26 | a position holding the value with no earlier occurrence is the one `list.index` returns |
| ObjMesh.Index | wavefront.py:26 | the linear scan of `list.index` returns the first position holding the value |
| ObjMesh.AddVertexTo | wavefront.py:19-26 | the returned index holds the rounded triple; the list only grows, by at most one entry, earlier entries stay where they were, a present triple leaves the list unchanged, and no duplicate is introduced |
| ObjMesh.AddVertexIdempotent | wavefront.py:23-26 | adding a triple a second time changes nothing and returns the same index |
| ObjMesh.AddVertices | wavefront.py:43-46 | definition: addvertex on the three corners in turn, collecting the indices; AddVerticesResolve states that every key resolves, that only the keys are appended and that no vertex repeats |
| ObjMesh.AddVerticesResolve | wavefront.py:44-46 | after adding several triples in turn, each returned index holds its triple, the list only grew (by at most one per triple) and stays free of duplicates |
| ObjMesh.AddFaceTo | wavefront.py:40-52 | definition: addface on three points, which rounds and adds each corner in order, then appends the face, followed by its reverse with doubleface; AddFaceSpec states its contract |
| ObjMesh.AddFaceSpec | wavefront.py:44-52 | addface appends one face (two with doubleface, the second the reverse of the first), earlier faces and vertices stay, the face's corners are the rounded points, and every index stays in range with no duplicate vertex |
| ObjMesh.Condense | wavefront.py:30-38 | 3n bare coordinates are regrouped into the n points Group builds (TypeError if one of them is not a number), n arguments pass unchanged, any other count raises ReferenceError |
| ObjMesh.Group | wavefront.py:32-34 | the k-th point is built from coordinates 3k, 3k+1 and 3k+2 |
| ObjMesh.AllPoints | wavefront.py:41 | arguments that are all points are returned in order; a bare coordinate in a point slot raises TypeError |
| ObjMesh.FacePoints | wavefront.py:28-41 | definition: the three points addface works on, Condense to three then `tuple()` of each, or ReferenceError/TypeError; the error paths are in FaceArity and the nine-coordinate path in NineScalarsAreThreePoints |
| ObjMesh.FaceStep | wavefront.py:28-52 | definition: addface on values, giving Pass with AddFaceTo's mesh, or the mesh unchanged with ReferenceError/TypeError; see ThreePointsAddFace, FaceArity and NineScalarsAreThreePoints |
| ObjMesh.NineScalarsAreThreePoints | wavefront.py:30-34 | addface on nine coordinates behaves exactly like addface on the three points they spell |
| ObjMesh.ThreePointsAddFace | wavefront.py:41-52 | addface on three points never raises and adds the face they span |
| ObjMesh.FaceArity | wavefront.py:30-38 | addface with any count other than 3 or 9 raises ReferenceError and leaves the mesh unchanged |
| ObjMesh.QuadStep | wavefront.py:54-68 | definition: addquad on values, Condense to four points then FaceStep on p0 p1 p2 and on p0 p2 p3, stopping at the first error; see QuadIsTwoFaces, QuadArity, TwelveScalarsAreFourPoints and QuadSharesDiagonal |
| ObjMesh.QuadIsTwoFaces | wavefront.py:66-68 | addquad on four points is addface(p0, p1, p2) followed by addface(p0, p2, p3) |
| ObjMesh.TwelveScalarsAreFourPoints | wavefront.py:55-60 | addquad on twelve coordinates behaves exactly like addquad on the four points they spell |
| ObjMesh.QuadArity | wavefront.py:55-64 | addquad with any count other than 4 or 12 raises ReferenceError and leaves the mesh unchanged |
| ObjMesh.QuadSharesDiagonal | wavefront.py:66-68 | the two triangles of a quad share the diagonal p0-p2 by index, their corners are the four rounded points, and the face count grows by 2 (4 with doubleface) |
| ObjMesh.VLine | wavefront.py:80-81 | definition: `v x y z` with each coordinate printed by `show`, zoom 1 and offset 0; SavedLayout states where these lines sit |
| ObjMesh.FLine | wavefront.py:83-84 | definition: `f a b c` with the 1-based indices as decimal numerals; ReadFaceLineOfFLine reads the 0-based face back |
| ObjMesh.Concat | wavefront.py:85 | definition: `''.join(lines)`; SavedLayout states the joined layout |
| ObjMesh.Lines | wavefront.py:79-84 | the file has one line per vertex and per face plus the `o` and `s off` lines |
| ObjMesh.SavedLayout | wavefront.py:79-85 | the text is `o mainobject`, one `v` line per vertex in list order, `s off`, then one `f` line per face in list order that reads back as that face with 1-based indices |
| ObjMesh.ReadFaceLineOfFLine | wavefront.py:84 | an `f` line reads back as the 0-based face it was written from |
| ObjMesh.Wavefront.constructor | wavefront.py:9-17 | a new builder has no vertex, no face and an empty set, with the given settings; doubleface defaults to false |
| ObjMesh.Wavefront.AddVertex | wavefront.py:19-26 | the list and the index returned are those of AddVertexTo on the rounded triple; the set still equals the list and faces are unchanged |
| ObjMesh.Wavefront.AddFace | wavefront.py:28-52 | the new mesh and the outcome (success, ReferenceError or TypeError) are those of FaceStep, and the builder stays valid |
| ObjMesh.Wavefront.AddTriangle | wavefront.py:44-52 | the face (and its reverse with doubleface) is appended as AddFaceTo says, with the triangle reversed in place |
| ObjMesh.Wavefront.AddCorners | wavefront.py:44-46 | the vertex loop of addface fills the three slots of the triangle with the indices AddVertices returns |
| ObjMesh.Wavefront.AddQuad | wavefront.py:54-68 | the new mesh and the outcome are those of QuadStep: two addface calls, the second only when the first succeeded |
| ObjMesh.Wavefront.Save | wavefront.py:72-92 | the returned content is the concatenation of Lines of the current mesh; the builder is not modified |
| Stitching.At | gear3dgen.py:93-94 | definition: point j of a layer, where the copy appended at j = N is point 0; OwnerOfEdge and ClosedSurface rely on that wrap |
| Stitching.CornersOf | gear3dgen.py:106-122 | definition: the corners of each triangle in the order addface receives them: lower (l,p),(l,p+1),(l+1,p+1); upper (l,p),(l+1,p+1),(l+1,p); floor (0,p+1),(0,p),centre; ceiling (top,p),(top,p+1),centre |
| Stitching.Row | gear3dgen.py:105-111 | definition: the lower and upper triangle of each point of one band, in loop order; RowMembers and RowDistinct state its contents |
| Stitching.Sides | gear3dgen.py:102-111 | definition: the bands from the bottom up; SidesLength, SidesIn and SidesDistinct state its contents |
| Stitching.Caps | gear3dgen.py:114-122 | definition: floor then ceiling for each point; CapsMembers states its contents |
| Stitching.Stitches | gear3dgen.py:102-122 | definition: all sides, then the caps; StitchesEnumerate states its count, members and distinctness |
| Stitching.RowMembers | gear3dgen.py:105-111 | one band holds two side triangles per point, exactly those of that band at the points so far |
| Stitching.RowDistinct | gear3dgen.py:105-111 | no side triangle is emitted twice within a band |
| Stitching.SidesLength | gear3dgen.py:102-111 | the side loops emit 2 N triangles per band |
| Stitching.SidesIn | gear3dgen.py:102-111 | the side loops emit exactly the side triangles of the bands below the top layer |
| Stitching.SidesDistinct | gear3dgen.py:102-111 | no side triangle is emitted twice |
| Stitching.SidesMembers | gear3dgen.py:102-111 | the side triangles: their count, which ones, and no repetition |
| Stitching.CapsMembers | gear3dgen.py:114-122 | the cap loop emits one floor and one ceiling triangle per point, each once |
| Stitching.StitchesEnumerate | gear3dgen.py:102-122 | exactly 2 N (layers - 1) + 2 N triangles are emitted; a triangle is emitted iff it is a valid side or cap triangle, and none twice |
| Stitching.EightHundredTriangles | gear3dgen.py:102-122 | 200 points on two layers give 800 triangles |
| Stitching.OwnerOfEdge | gear3dgen.py:105-122 | every directed edge of an emitted triangle identifies that triangle |
| Stitching.ReverseEdgeOwned | gear3dgen.py:105-122 | the reverse of every directed edge of an emitted triangle lies in another emitted triangle |
| Stitching.ClosedSurface | gear3dgen.py:105-122 | for N >= 3 and two or more layers, every directed edge lies in exactly one emitted triangle and its reverse in exactly one other |
| Gear.VShape | gear3dgen.py:131-132 | g_vshape is never negative and at most 1 on [0, 1] |
| Gear.AShape | gear3dgen.py:135-136 | g_ashape is at most 1 and never negative on [0, 1] |
| Gear.ShapeEnds | gear3dgen.py:131-136 | g_vshape is 1 at both ends and 0 in the middle; g_ashape the other way round |
| Gear.ToothProfile | gear3dgen.py:52-53 | the tooth profile has toothpts radii (none for toothpts <= 0) |
| Gear.ToothProfileWithinRadii | gear3dgen.py:52-53 | a tooth function within [0, 1] puts every profile radius between the inner and the outer radius |
| Gear.Repeat | gear3dgen.py:54 | definition: `list * int`; RepeatLength and RepeatAt state its length and elements |
| Gear.GearProfile | gear3dgen.py:51-54 | definition: the tooth profile repeated teeth times; GearProfileReplicates and ProfileEmpty state its shape |
| Gear.RepeatLength | gear3dgen.py:54 | a list repeated `times` times has `len * times` elements (none for times <= 0) |
| Gear.RepeatAt | gear3dgen.py:54 | element k of the repetition is element k mod len of the list |
| Gear.GearProfileReplicates | gear3dgen.py:52-54 | the gear profile has toothpts * teeth radii and gearprofile[k] == toothprofile[k % toothpts] |
| Gear.ProfileEmpty | gear3dgen.py:52-55 | the profile is empty (and the angle step divides by zero) exactly when toothpts or teeth is not positive |
| Gear.Layers | gear3dgen.py:58-61 | without an angle function there are 2 layers whatever vlayers says; with one, vlayers |
| Gear.DefaultName | gear3dgen.py:44-45 | definition: `'{0}t_{1}r_{2}y.obj'.format(teeth, outerrad, thickness)` with the arguments printed by `showArg`; DefaultNameEncodesTeeth and DefaultNameOfInts state what it holds |
| Gear.OutputFile | gear3dgen.py:44-45 | '' becomes "{teeth}t_{outerrad}r_{thickness}y.obj" with the arguments printed as passed, None stays None (content only), any other name is kept |
| Gear.DefaultNameOfInts | gear3dgen.py:45 | with int arguments printed without a decimal point, teeth 10, outerrad 18 and thickness 32 give the name "10t_18r_32y.obj" |
| Gear.DefaultNameEncodesTeeth | gear3dgen.py:45 | the default name starts with the tooth count, which reads back, followed by "t_", and ends in ".obj" |
| Gear.LayerZ | gear3dgen.py:63-75 | definition: layer * (thickness / (vlayers - 1)); LayerHeights puts layer 0 at 0 and the top layer at thickness |
| Gear.AngleBias | gear3dgen.py:57-77 | definition: anglefunc(layer / (vlayers - 1)), or 0 without an angle function; BuildGeometry's ensures uses it through RimPoint |
| Gear.RimPoint | gear3dgen.py:85-91 | definition: (x, y) from `place` on radius k, step k and the layer's twist, at the layer's height; BuildGeometry states that geargeometry holds these points |
| Gear.LayerHeights | gear3dgen.py:63-91 | every point of the bottom layer is at height 0, where the floor centre sits, and every point of the top layer is at thickness, where the ceiling centre sits |
| Gear.Position | gear3dgen.py:85-122 | definition: a rim label at its RimPoint (index taken mod N), the floor centre at (0, 0, 0) and the ceiling centre at (0, 0, thickness); GeometryLaid ties it to geargeometry |
| Gear.BuildGeometry | gear3dgen.py:71-97 | geargeometry has vlayers layers (none when vlayers <= 0), each of N + 1 points whose last equals its first, point k at the profile radius k, angle step k plus the layer's twist, and the layer's height |
| Gear.GeometryLaid | gear3dgen.py:74-97 | every point of geargeometry is the position of its label |
| Gear.Emit | gear3dgen.py:102-122 | definition: addface folded over a list of triangles, each corner at its label's position; EmitSpec, EmitAppend and Stitch state what it builds |
| Gear.EmitAppend | gear3dgen.py:102-122 | emitting one list of triangles and then another is emitting their concatenation |
| Gear.AddStitched | gear3dgen.py:106-108 | one addface call with three points adds the triangle of their labels |
| Gear.StitchSide | gear3dgen.py:106-111 | one side step adds the lower then the upper triangle of the quad at (layer, point); every geargeometry access is in range |
| Gear.StitchCaps | gear3dgen.py:115-122 | one cap step adds the floor triangle (wound downwards) then the ceiling triangle; every geargeometry access is in range |
| Gear.StitchBand | gear3dgen.py:105-111 | the point loop of one band adds that band's side triangles in order |
| Gear.StitchAllCaps | gear3dgen.py:114-122 | the cap loop adds all floor and ceiling triangles in order |
| Gear.StitchSides | gear3dgen.py:102-111 | the layer loop adds every band of side triangles, bottom band first |
| Gear.Stitch | gear3dgen.py:102-122 | the builder grows exactly as addface applied to the emitted triangles in order, each corner at its label's position |
| Gear.Generation | gear3dgen.py:44-125 | definition: gear3dgen on values, the error in the order the source meets it, otherwise the file name and the saved text of GearMesh; GenerationOutcome, SpurGear and DefaultCall state its outcomes, and Gear3DGen is proved equal to it |
| Gear.Gear3DGen | gear3dgen.py:14-125 | the result or the exception is that of Generation; outfile, toothpts, anglefunc and vlayers default to '', 20, none and 32 |
| Gear.DefaultCall | gear3dgen.py:14-61 | called with its defaults and at least one tooth, gear3dgen returns the two-layer spur gear of 20 points per tooth under the default file name |
| Gear.GenerationOutcome | gear3dgen.py:44-125 | ZeroDivisionError without teeth or tooth points, or for one layer with an angle function; IndexError for no layer; otherwise the text, with a file name iff outfile is not None |
| Gear.EmitSpec | gear3dgen.py:100-122 | triangles added to an empty builder give a well-formed mesh with one face per triangle, face k holding the rounded positions of triangle k's corners |
| Gear.GearMesh | gear3dgen.py:97-122 | definition: the empty mesh with every stitched triangle added; GearMeshShape, GearMeshVertices and ClosedGearMesh state its shape |
| Gear.GearMeshShape | gear3dgen.py:100-122 | the mesh gear3dgen builds is well formed, face k holds the rounded corners of the k-th emitted triangle, and there are 2 N (layers - 1) + 2 N faces |
| Gear.EmitStitched | wavefront.py:23-25 | adding valid stitched triangles to an empty mesh appends no vertex other than the rounded position of some rim point or centre |
| Gear.GearMeshVertices | gear3dgen.py:97-122 | every vertex of the gear mesh is the rounded position of a rim point or a centre, so there are at most N * layers + 2 vertices (402 for 200 points on two layers) |
| Gear.GearMeshFaces | gear3dgen.py:100-122 | the mesh is well formed with 2 N (layers - 1) + 2 N faces |
| Gear.SpurGear | gear3dgen.py:57-63 | without an angle function, any vlayers, and at least one tooth of at least one point, gear3dgen returns the text of the two-layer mesh |
| Gear.SpurGearFaces | gear3dgen.py:54-122 | a spur gear's mesh is well formed with 4 * toothpts * teeth faces |
| Gear.ClosedByIndex | gear3dgen.py:100-122 | in a mesh grown from the emitted triangles whose rounding keeps labels apart, every directed index edge lies in one face only and its reverse in exactly one other |
| Gear.ClosedGearMesh | gear3dgen.py:100-122 | the mesh gear3dgen builds is closed and consistently wound (N >= 3, two or more layers, rounding that keeps the stitched points apart) |

## Notes

- addface and addquad raise `ReferenceError` on a bad argument count (wavefront.py:38, wavefront.py:64); the model raises the same error.
- addvertex tests membership in `verticeset`, but finds the index with `list.index`, a linear scan (wavefront.py:26). `ObjMesh.Index` keeps the scan.

## Left out

- File writing in `save` (wavefront.py:87-90), and so the write triggered by gear3dgen (gear3dgen.py:125). This is I/O. `Save` returns the content, and gear3dgen's result carries the file name it would write to.
- Console output and the `quiet` flag (gear3dgen.py:65-67, 79-82, 103-104). This is logging only.
- Trigonometric placement (gear3dgen.py:86-90) is the parameter `place`, which gives x and y only; the height of each point is the layer's `LayerZ`, as at gear3dgen.py:91. The result of the float divisions for the layer height and twist is kept as a real (`LayerZ`, `AngleBias`). Float rounding error is not modelled.
- `g_sine` and `g_halfsine` are trigonometric. `toothfunc` is therefore a required parameter where Python defaults to `g_sine` (gear3dgen.py:48-49). `xyrounding` (default 3) is the parameter `round`, which has no default.
- `round(float(x), crounding)` is the parameter `round`, which has no default where Python's `crounding` defaults to 3 (wavefront.py:11). Python's float-to-text conversion in `v` lines is the parameter `show`. The `str` of the arguments in the default name is the separate parameter `showArg`.
- `zoom` and `offset` in `save` are at their defaults (scale 1, offset 0). Float scaling is not modelled.
- ObjMesh.Wavefront.AddFace: with nine arguments some of which are not numbers, Python builds the points anyway. It raises TypeError in `addvertex` only after adding the vertices of the earlier points. The model raises TypeError before changing anything.
- ObjMesh.Condense: it regroups 3n arguments only when all of them are numbers, and raises TypeError otherwise. Python regroups without looking at the types (wavefront.py:30-34, 55-60), and the TypeError comes later, from addvertex; the ObjMesh.Wavefront.AddFace and ObjMesh.Wavefront.AddQuad lines say what that changes.
- ObjMesh.Wavefront.AddQuad: with twelve arguments some of which are not numbers, Python condenses them into four points without looking at their types and runs addface(p0, p1, p2). That call can append vertices and a whole face before addvertex raises TypeError, in this call or in the second one. The model raises TypeError from the condensing step, with the mesh unchanged.
- ObjMesh.Wavefront.AddFace: points are triples by type. Points of another length, and arguments Python cannot convert with `float`, are not modelled.
- Gear.Gear3DGen: the angle function is an option (absent or a function). Python's test `not anglefunc` also treats other falsy values as absent; they are not modelled.
- Gear.ClosedGearMesh: it assumes rounding keeps distinct labels apart (`Separated`). Rounding that merges points is not covered. Examples are `innerrad = 0`, where the rim meets the axis, and very close points.
- The self-test blocks under `__main__` (gear3dgen.py:150-156, wavefront.py:97-103). They are example calls, not behaviour.
