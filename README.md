# gdmap sketch core in Dafny

A model of the computational core of `sketch.js`, the p5.js (WEBGL) sketch
that draws a 3D city map:

- **Matrix** — `multMat4`, the column-major 4×4 product of the projection and
  model-view matrices, as a method over arrays proved against a `Product`
  specification; `Transform` applies a matrix to a homogeneous point, and
  applying `a · b` is proved equal to applying `b` and then `a`.
- **Projector** — `worldToScreen`: the world point (x, y, z, 1) goes through
  projection · model-view, a point whose clip w is below 1e-8 in magnitude
  is rejected, and the remaining point goes through the perspective divide and
  the viewport mapping (pixel origin top-left, Y down). A missing renderer or
  matrix is `None`, and the viewport size is a parameter.
- **Labels** — `Label.colorForType`, the type-to-colour switch.
- **Walls** — the vertex indices that `Area3D.show` issues for the side walls
  of one detail: two triangles per edge of the lower ring, with indices
  wrapping modulo the ring sizes, and the point where the pass throws when
  the upper ring is shorter than the lower one.
- **JsonValue / Readers** — loosely shaped JSON values, with JavaScript
  truthiness, `||` defaults, property access (a TypeError on null or
  undefined) and `for…of` iteration. On top of them: `safeArr`, and the
  three readers `read_json_buildings`, `read_json_hospitals` and
  `read_json_governments`. A reader defaults missing fields, raises every
  down point by 0.01 in y and appends one payload per record to its scene
  list (the `Scene` class). A record that throws stops the reader; the
  payloads appended before it stay.

## Model

| member | source | states |
|---|---|---|
| Matrix.MultMat4 | sketch.js:40-52 | returns a freshly allocated 16-entry array whose contents are the column-major product of the two inputs, entry (row, col) being the sum over k of a(row, k) · b(k, col) |
| Matrix.Product | sketch.js:40-52 | definition: the column-major product that MultMat4 is proved to compute and that the product lemmas are about |
| Matrix.Transform | sketch.js:68-71 | definition: the matrix applied to a homogeneous point, column-major; the linearity and composition lemmas are about it |
| Matrix.ProductEntry | sketch.js:42-48 | entry (row, col) of the product is row `row` of a dotted with column `col` of b |
| Matrix.ProductAt | sketch.js:45-48 | the entry at flat index col·4 + row is the sum the inner loop accumulates, in its order |
| Matrix.ProductIdentity | sketch.js:40-52 | the identity is neutral on both sides of the product |
| Matrix.TransformIdentity | sketch.js:68-71 | applying the identity leaves a point unchanged |
| Matrix.ProductColumn | sketch.js:40-52 | column `col` of a · b is a applied to column `col` of b |
| Matrix.TransformByColumns | sketch.js:68-71 | m applied to v is the combination of m's columns weighted by v's components |
| Matrix.TransformAdd | sketch.js:68-71 | applying a matrix distributes over vector addition |
| Matrix.RowDotScale | sketch.js:68-71 | one clip component of a scaled vector is that component scaled |
| Matrix.TransformScale | sketch.js:68-71 | applying a matrix commutes with scaling |
| Matrix.TransformProduct | sketch.js:66-71 | applying the combined matrix a · b equals applying b, then a |
| Projector.PixelX | sketch.js:81 | NDC x in [-1, 1] maps into [0, width]; -1 goes to the left edge, 1 to the right edge |
| Projector.PixelY | sketch.js:82 | NDC y in [-1, 1] maps into [0, height], flipped; 1 goes to the top row, -1 to the bottom row |
| Projector.Clip | sketch.js:68-71 | definition: the clip coordinates of (x, y, z, 1) under the combined matrix; its lemmas are the Transform lemmas |
| Projector.Project | sketch.js:68-84 | definition: the w guard, perspective divide and viewport mapping under a combined matrix; OriginToCentre and UnitXToRightEdge are about it |
| Projector.WorldToScreen | sketch.js:57-85 | definition: Invalid for a missing matrix, otherwise Project under projection · model-view; WorldToScreenIsTwoStepProjection and InvalidExactlyWhenDegenerate are about it |
| Projector.WorldToScreenIsTwoStepProjection | sketch.js:57-85 | the result is Invalid when a matrix is missing; otherwise it equals the reference projection (model-view, then projection, then guard, divide and viewport mapping) |
| Projector.InvalidExactlyWhenDegenerate | sketch.js:73-75 | with both matrices present the result is Invalid exactly when the two-step clip w has magnitude below 1e-8 |
| Projector.VisibleNdcInsideViewport | sketch.js:77-84 | a valid projection whose NDC x and y lie in [-1, 1] lands inside the viewport |
| Projector.PixelAxes | sketch.js:81-82 | screen x increases with NDC x, and screen y decreases as NDC y increases |
| Projector.PixelMappingInvertible | sketch.js:81-82 | NDC x and y are recovered exactly from the pixel coordinates for a non-zero viewport |
| Projector.OriginToCentre | sketch.js:68-84 | under an identity combined matrix the origin projects to the viewport centre at depth 0 |
| Projector.UnitXToRightEdge | sketch.js:68-84 | under an identity combined matrix (1, 0, 0) projects to the middle of the right edge |
| Projector.IdentityCameraCentre | sketch.js:57-85 | with identity projection and model-view matrices the origin projects to the viewport centre |
| Labels.ColorForType | sketch.js:172-186 | every colour the switch returns is a valid 0–255 RGB triple |
| Labels.UnlistedIsWhite | sketch.js:185 | a type the switch does not list, or a non-string type, gets white |
| Labels.OnlyStationListedWhite | sketch.js:172-186 | of the listed types, exactly "station" gets white |
| Walls.DrawWalls | sketch.js:119-131 | the pass completes exactly when the upper ring has at least as many points as the lower one, and then issues every quad in order; otherwise it throws at edge m (the upper ring's size) after the first m quads |
| Walls.Quad | sketch.js:120-130 | definition: the six vertex indices issued for one edge; WallsAt and WallRingCloses are about it |
| Walls.WallCorners | sketch.js:119-131 | definition: the vertex indices of the first quads in drawing order, which DrawWalls is proved to produce |
| Walls.WallsLength | sketch.js:124-131 | each edge issues six vertices |
| Walls.WallsAt | sketch.js:119-131 | the vertices of edge q sit at positions 6q to 6q + 5, in drawing order |
| Walls.WallCornersInRange | sketch.js:120-123 | a completed pass never indexes past either ring |
| Walls.WallCoversBothRings | sketch.js:119-131 | with rings of equal size, every point of both rings is a vertex of the wall |
| Walls.WallRingCloses | sketch.js:121-122 | the last edge wraps back to point 0 on both rings, closing the wall |
| JsonValue.Or | sketch.js:270-272 | a value defaulted with `or` is truthy exactly when the value or its default is |
| JsonValue.Iterate | sketch.js:269 | `for…of` accepts exactly arrays and strings; a string yields its characters in order |
| JsonValue.Truthy | sketch.js:250-251 | definition: JavaScript truthiness, used by the safeArr guards and the `or` defaults; Or's contract is about it |
| JsonValue.Member | sketch.js:251 | definition: property access on a non-null value, first matching field of an object; the reader lemmas are stated through it |
| Readers.SafeArr | sketch.js:249-255 | returns [] for a falsy root; otherwise the truthy keyed member, then the root itself when it is an array, then the first array-valued field in enumeration order, and [] when none applies |
| Readers.Records | sketch.js:249-255 | definition: the five outcomes of safeArr; SafeArr is proved to compute it and FirstArrayFieldAt, NoArrayField and RecordsArrayUnlessKeyed are about it |
| Readers.FirstArrayFieldAt | sketch.js:253 | the field the loop returns is the first array-valued one |
| Readers.NoArrayField | sketch.js:253-254 | with no array-valued field the search falls through to [] |
| Readers.FirstArrayFieldIsArray | sketch.js:253-254 | the field search always yields an array |
| Readers.RecordsArrayUnlessKeyed | sketch.js:249-255 | the result is an array unless it is the truthy keyed member, which is returned whatever its type |
| Readers.ReadStructure | sketch.js:269-279 | the payload of one record: address and name defaulted to "", details read in order, and None where reading the record throws |
| Readers.CoordAt | sketch.js:275-276 | definition: p[i] read as a coordinate (array element or index-named field); NumericPoint is about it |
| Readers.ToPoint | sketch.js:275-276 | definition: one Point, y raised by 0.01 for a down point; RaisedReading and NumericPoint are about it |
| Readers.ToPoints | sketch.js:275-276 | definition: the `or []` default and the map, None where it throws; RaisedReading and FalsyFieldsDefault are about it |
| Readers.ToDetail | sketch.js:274-277 | definition: one Detail of down and up rings, None where reading it throws; MissingFieldsDefault is about it |
| Readers.ToDetails | sketch.js:273-278 | definition: the details loop, all entries or None; ToDetailsInOrder is about it |
| Readers.ToStructure | sketch.js:269-279 | definition: one record's payload with defaults, None where reading it throws; ReadStructure is proved to compute it and FalsyFieldsDefault is about it |
| Readers.LoadAll | sketch.js:269-280 | definition: the record loop, stopping at the first record that throws; LoadAllInOrder is about it |
| Readers.Load | sketch.js:267-281 | definition: a reader's appended payloads and fault for a root; ReadRecords and the Scene readers are proved against it |
| Readers.ReadRecords | sketch.js:267-281 | the payloads of all records, in order, up to the first record that throws; it throws at once when the list from safeArr is not iterable |
| Readers.Scene.ReadBuildings | sketch.js:267-281 | appends the loaded payloads to buildings, reports a fault, and leaves hospitals and governments unchanged |
| Readers.Scene.ReadHospitals | sketch.js:283-296 | appends the loaded payloads to hospitals, reports a fault, and leaves buildings and governments unchanged |
| Readers.Scene.ReadGovernments | sketch.js:307-320 | appends the loaded payloads to governments, reports a fault, and leaves buildings and hospitals unchanged |
| Readers.Scene.constructor | sketch.js:20-32 | the three scene lists start empty |
| Readers.LoadAllInOrder | sketch.js:269-280 | a reader appends at most one payload per record; payload k is record k's reading; it faults exactly when it stops early, and then the next record is one that throws |
| Readers.RaisedReading | sketch.js:275-276 | down points are read like up points and raised by 0.01 in y, with x and z unchanged; one reading throws exactly when the other does |
| Readers.NumericPoint | sketch.js:275-276 | a numeric [x, y, z] becomes (x, y + 0.01, z) as a down point and (x, y, z) as an up point |
| Readers.MissingFieldsDefault | sketch.js:270-276 | a record with no fields yields address "", name "" and no details; a detail with no fields yields two empty rings |
| Readers.ToDetailsInOrder | sketch.js:273-278 | the details are read element by element and in order: a payload exists exactly when every entry reads, and entry i of it is the reading of detail i |
| Readers.FalsyFieldsDefault | sketch.js:270-276 | for any record or detail object: a falsy address or name becomes "", a truthy one is kept; falsy details give no details; a falsy point list gives an empty ring |

## Left out

- Asset loading and `preload`: fonts, icons and JSON files come from I/O. The loaded JSON roots are parameters of the readers.
- All drawing: `fill`, `vertex`, `beginShape`, `text`, `image`, and the `show` methods other than the wall index scheme of `Area3D.show`. The wall model records vertex indices only.
- Walls.DrawWalls: the vertices of the quad that throws part-way through are not recorded. The real pass issues five of them (two when the upper ring is empty) before the TypeError.
- Renderer discovery in `worldToScreen` (`this._renderer` or `p5.instance._renderer`): a missing renderer or matrix is the `None` argument.
- Floating point: reals replace IEEE doubles and the Float32 renderer matrices. `isFinite`, NaN and Infinity are not modelled. `Invalid` stands for the `{x: NaN, y: NaN, z: Infinity}` result.
- JsonValue.Truthy: NaN is not a value of the model, so a number is falsy only when it is zero.
- JsonValue.Member: a non-object has no readable properties in the model. This is exact for the keys the readers read, which no string, array, number or boolean owns. Objects are assumed to have distinct keys, as JavaScript objects do: with a repeated key, `Member` would read the first field while the `safeArr` field search could still return a later one.
- Readers.CoordAt: a coordinate that is not a JSON number is NotANumber. JavaScript would coerce it, e.g. a string y plus 0.01 concatenates.
- The `Building`, `Hospital` and `Government` constructors are not defined in `sketch.js`. The model treats each as building the record of its three arguments (`Structure`).
- `read_json_alleys` and `read_json_parkings`: they feed the `Alley` and `Parking` constructors, which are not defined either.
- `setup` and `draw`, which would call the readers and the drawing code. They are not in `sketch.js`, so the model has no caller order for the readers.
- `Label` construction with its icon cache, `Label.show`, and label visibility.
- The camera and gesture globals (`zoom`, `offsetX`, `offsetZ`, `angleX`, `angleY`, `isTouch`), which no function of `sketch.js` updates, and `windowResized`.
- The exception itself: a reader that throws is modelled as returning a fault flag, with the payloads appended before the throw kept.
