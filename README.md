# wu-wireframes in Dafny

This project models the software rasteriser of wu-wireframes, a small Kotlin
program that draws 3D wireframe primitives into an integer ARGB image. Its
core, `Wireframe3D`, works in immediate mode: `begin(mode)`, then up to 64
`vertex(x, y, z)` calls into a scratch array, then `end()`. `end` projects the
batch through the cached product `world * view * proj`. It then emits either
disjoint line pairs (LINE) or the closed outline of a polygon (POLYGON). Back
faces are faded toward the clear colour and pushed back in depth. Each
segment is clipped against the homogeneous view volume `-w <= x, y, z <= w`,
mapped to the viewport, and drawn by a depth-tested Xiaolin Wu line that
blends the drawing colour into the colour buffer. Shape builders (axis, grid,
plane, cube, sphere, capsule) issue such batches.

Around the rasteriser sit:

- the value types `Matrix4` and `Vector4`;
- `Camera`, which orders its near and far planes and derives view and
  projection matrices;
- `FirstPersonControl`, a key-mask and mouse-drag state machine that moves
  the camera.

Modules, one per source concern:

| file | module | models |
|---|---|---|
| numbers.dfy | Numbers | Kotlin `Double.toInt()` (truncation toward zero, saturating at the Int range), `fPart`/`rfPart` |
| vectors.dfy | Vectors | `Vector4` and its operators, `length`, `normalize` |
| matrices.dfy | Matrices | `Matrix4`: both products, translation, rotations, `axisAngle`, `lookAt`, `perspective` |
| colors.dfy | Colors | packed ARGB colours and `blend`, with Kotlin's 32-bit wrap-around written out |
| clipping.dfy | Clipping | `computeClipMask`, `clipLine`/`Vertex.lerp`, the rounds of `clip`, `Vertex.screen`, `isBackFacing` |
| raster.dfy | Raster | depth test, pixel addressing and bounds, the Wu line's geometry, the edge index pairs |
| shapes.dfy | Shapes | index tables and vertex tables of the cube, sphere and capsule |
| primitives.dfy | Primitives | what `end` receives and draws and what each shape builder emits, as values |
| wireframe.dfy | Wireframes | the class `Wireframe3D` with its buffers, state and drawing methods |
| camera.dfy | Cameras | the class `Camera` |
| first_person_control.dfy | Controls | the class `FirstPersonControl` |

Modelling choices:

- **Numbers.** Doubles are Dafny reals. `sin`, `cos`, `tan`, `sqrt`, `asin`,
  `atan2` and `1 / sqrt` are function parameters. Lemmas that need a square
  root require `IsSqrt(sqrt)`, meaning `sqrt(q) >= 0` and `sqrt(q)^2 == q` for
  `q >= 0`.
- **Scratch array.** The 64 scratch `Vertex` objects are the 64 slots of an
  `array<Vector4>`. `Vertex.set`, `copy`, `lerp`, `project` and `screen` each
  assign a slot the value of a function.
- **Buffers.** The colour buffer is an `array<Argb>`, where `Argb` is the
  unsigned reading of the Int bit pattern. The depth buffer is an
  `array<Depth>`, with `Depth = Infinity | Finite(real)`.
- **Ghost logs.** Three ghost logs record what was drawn: `primitives` gets
  one entry per `end()`, `segments` one entry per `drawLine`, and `drawn`,
  per `end()`, the segments that batch was drawn as. They let the shape
  builders and `end` state what they emit in what order. A shape builder
  then states `Drew`: the segment log grew by exactly the segments of its
  batches, every depth is kept or comes closer, and every pixel is kept or
  made opaque with each channel between its old value, the builder's colour
  and the fill colour.

## Model

| member | source | states |
|---|---|---|
| Numbers.ToInt | src/main/kotlin/Wireframe3D.kt:330 | `Double.toInt()` always lands in the 32-bit Int range |
| Numbers.ToIntTruncates | src/main/kotlin/Wireframe3D.kt:330 | inside the Int range, toInt rounds toward zero: it is the whole number at most 1 below a nonnegative x, or at most 1 above a negative x |
| Numbers.ToIntSaturates | src/main/kotlin/Wireframe3D.kt:330 | values at or beyond the Int range convert to Int.MAX_VALUE or Int.MIN_VALUE |
| Numbers.ToIntOfWhole | src/main/kotlin/Wireframe3D.kt:310 | a whole number in range converts to itself |
| Numbers.ToIntMonotonic | src/main/kotlin/Wireframe3D.kt:310-315 | toInt preserves order, so the rounded end points of a line keep their order |
| Numbers.FractionalParts | src/main/kotlin/Wireframe3D.kt:421-423 | fPart lies in [0, 1), rfPart in (0, 1], and the two sum to 1 |
| Numbers.RoundHalfUp | src/main/kotlin/Wireframe3D.kt:310 | `(x + 0.5).toInt()` for x >= 0 is a nonnegative integer within half a unit of x |
| Vectors.DirectionRoundTrip | src/main/kotlin/Vector4.kt:5 | the 3-argument constructor rebuilds a vector from its x, y, z exactly when that vector has w = 0 |
| Vectors.ConstantsAreDirections | src/main/kotlin/Vector4.kt:18-21 | ZERO, UNIT_X, UNIT_Y, UNIT_Z are the expected directions, each with w = 0 |
| Vectors.PlusMinusComponentwise | src/main/kotlin/Vector4.kt:9-11 | plus and minus act per component, plus commutes, and (a + b) - b == a |
| Vectors.ScaleLaws | src/main/kotlin/Vector4.kt:13 | scaling by 1 is the identity, and scaling twice is scaling by the product |
| Vectors.DivIsScaleByInverse | src/main/kotlin/Vector4.kt:13-15 | dividing by a nonzero s is scaling by 1 / s |
| Vectors.LengthZeroIffZero | src/main/kotlin/Vector4.kt:7 | length, which includes w, is nonnegative and is zero exactly for the zero vector |
| Vectors.NormalizeIsUnit | src/main/kotlin/Vector4.kt:7-23 | a nonzero vector has nonzero length, and its normalisation has squared length 1 |
| Matrices.RowTimesCompose | src/main/kotlin/Wireframe3D.kt:404-411 | projecting a row vector by a and then by b is projecting it by a * b |
| Matrices.TimesVectorCompose | src/main/kotlin/Matrix4.kt:13-37 | for column vectors, (a * b) * v == a * (b * v) |
| Matrices.TimesAssociative | src/main/kotlin/Matrix4.kt:20-37 | the matrix product is associative |
| Matrices.IdentityIsUnit | src/main/kotlin/Matrix4.kt:83 | IDENTITY is a two-sided unit of the product, and both vector products leave vectors unchanged |
| Matrices.TranslationShape | src/main/kotlin/Matrix4.kt:39-45 | translation(x, y, z) is IDENTITY with last row (x, y, z, 1) |
| Matrices.TranslateByIsLeftProduct | src/main/kotlin/Matrix4.kt:39-45 | m.translateBy(x, y, z) == translation(x, y, z) * m |
| Matrices.RotationYShape | src/main/kotlin/Matrix4.kt:47-62 | rotationY(r) is the cos/sin rotation in the x-z plane with rows 1 and 3 from IDENTITY |
| Matrices.RotationZShape | src/main/kotlin/Matrix4.kt:64-79 | rotationZ(r) is the cos/sin rotation in the x-y plane with rows 2 and 3 from IDENTITY |
| Matrices.RotateYByIsLeftProduct | src/main/kotlin/Matrix4.kt:47-62 | for given s and c, the rotateY entry formulas are the left product with the rotation matrix |
| Matrices.RotateZByIsLeftProduct | src/main/kotlin/Matrix4.kt:64-79 | for given s and c, the rotateZ entry formulas are the left product with the rotation matrix |
| Matrices.RotateYIsLeftProduct | src/main/kotlin/Matrix4.kt:47-62 | m.rotateY(r) == rotationY(r) * m, and rows 1 and 3 of m are unchanged |
| Matrices.RotateZIsLeftProduct | src/main/kotlin/Matrix4.kt:64-79 | m.rotateZ(r) == rotationZ(r) * m, and rows 2 and 3 of m are unchanged |
| Matrices.AxisAngleShape | src/main/kotlin/Matrix4.kt:91-101 | axisAngle has last row and column (0, 0, 0, 1), and it is IDENTITY for any axis when cos = 1 and sin = 0 |
| Matrices.LookAtMapsEyeToOrigin | src/main/kotlin/Matrix4.kt:103-124 | lookAt maps the eye point to the origin (0, 0, 0, 1), whatever the normalisation factors |
| Matrices.LookAtFromMapsEye | src/main/kotlin/Matrix4.kt:116-123 | any matrix built in lookAt's pattern from three axes and three scale factors sends the eye to the origin |
| Matrices.PerspectiveMapsNearAndFar | src/main/kotlin/Matrix4.kt:126-135 | (0, 0, -n, 1) projects to w = n and z / w = -1, and (0, 0, -f, 1) to w = f and z / w = +1, whatever the tangent |
| Cameras.Ordered | src/main/kotlin/Camera.kt:5-6 | the min/max pair is ordered and is exactly {near, far} |
| Cameras.OrderedIsASort | src/main/kotlin/Camera.kt:5-6 | the pair does not depend on argument order, is idempotent, and keeps already ordered planes |
| Cameras.Camera.constructor | src/main/kotlin/Camera.kt:4-10 | stores fov and aspect, orders near and far, and starts with position UNIT_Z and target ZERO |
| Cameras.Camera.View | src/main/kotlin/Camera.kt:12 | the view matrix maps the camera's current position to the origin |
| Cameras.Camera.Projection | src/main/kotlin/Camera.kt:14 | the projection sends the near plane to depth -1 and the far plane to +1 |
| Controls.KeyBit | src/main/kotlin/FirstPersonControl.kt:17-33 | W, S, A, D select bits 1, 2, 4, 8, and every other key selects none |
| Controls.Pressed | src/main/kotlin/FirstPersonControl.kt:26-33 | keyDown sets the key's bit and keeps every other bit |
| Controls.Released | src/main/kotlin/FirstPersonControl.kt:17-24 | keyUp flips the key's bit and keeps every other bit |
| Controls.KeysKeepMask | src/main/kotlin/FirstPersonControl.kt:17-33 | the movement mask stays within bits 1, 2, 4 and 8 |
| Controls.PressIdempotent | src/main/kotlin/FirstPersonControl.kt:26-33 | pressing twice is pressing once, and an unmapped key changes nothing |
| Controls.PressThenRelease | src/main/kotlin/FirstPersonControl.kt:17-33 | keyDown then keyUp clears the bit, and keyUp without a prior keyDown sets it |
| Controls.ClampPitch | src/main/kotlin/FirstPersonControl.kt:45 | the clamp lands in [-1.57, 1.57], keeps values inside, and maps values outside to the nearer bound |
| Controls.NoKeysNoMove | src/main/kotlin/FirstPersonControl.kt:58-77 | with an empty mask, update leaves the position unchanged |
| Controls.ForwardAndLeftWin | src/main/kotlin/FirstPersonControl.kt:62-73 | forward overrides back and left overrides right |
| Controls.FirstPersonControl.constructor | src/main/kotlin/FirstPersonControl.kt:8-15 | lookAt is the normalised view direction, yaw and pitch come from atan2 and asin, and the mask, last position and drag flag start cleared |
| Controls.FirstPersonControl.KeyUp | src/main/kotlin/FirstPersonControl.kt:17-24 | the mask becomes Released(mask, code) and stays a movement mask |
| Controls.FirstPersonControl.KeyDown | src/main/kotlin/FirstPersonControl.kt:26-33 | the mask becomes Pressed(mask, code) and stays a movement mask |
| Controls.FirstPersonControl.MouseDown | src/main/kotlin/FirstPersonControl.kt:35-39 | starts dragging and records the mouse position |
| Controls.FirstPersonControl.MouseMove | src/main/kotlin/FirstPersonControl.kt:41-50 | without a drag, only the mouse position is recorded; with one, yaw and pitch move by 0.005 per pixel, pitch is clamped to [-1.57, 1.57], and lookAt is recomputed |
| Controls.FirstPersonControl.MouseUp | src/main/kotlin/FirstPersonControl.kt:52-56 | stops dragging and records the mouse position |
| Controls.FirstPersonControl.Update | src/main/kotlin/FirstPersonControl.kt:58-77 | the camera moves by the forward/back and left/right rules, and the target is position + lookAt |
| Colors.Signed | src/main/kotlin/Wireframe3D.kt:457-458 | the Int that 32-bit arithmetic leaves: in range, and differing from the exact value by a multiple of 2^32 |
| Colors.Rgba | src/main/kotlin/Wireframe3D.kt:134 | `Color(r, g, b, a).rgb` packs the four channels so that each can be read back |
| Colors.Opaque | src/main/kotlin/Wireframe3D.kt:350 | `0xff shl 24 or c` sets alpha to 255 and keeps the three colour channels |
| Colors.Recompose | src/main/kotlin/Wireframe3D.kt:457-459 | a colour is exactly its four channels put back together |
| Colors.Blend | src/main/kotlin/Wireframe3D.kt:455-460 | blend's result has alpha 0 |
| Colors.LaneIsWrappedSum | src/main/kotlin/Wireframe3D.kt:457-458 | each lane is the 32-bit wrapped weighted sum shifted right arithmetically by 8 |
| Colors.WeightInRange | src/main/kotlin/Wireframe3D.kt:456 | for a factor in [0, 1], the weight c8 is in [0, 256] |
| Colors.BlendChannels | src/main/kotlin/Wireframe3D.kt:455-460 | each of R, G, B is (ch1 * c8 + ch2 * (256 - c8)) div 256, so lane overflow never leaks into another channel |
| Colors.MixedBetween | src/main/kotlin/Wireframe3D.kt:457-458 | a weighted channel mean lies between its two inputs |
| Colors.BlendBetween | src/main/kotlin/Wireframe3D.kt:455-460 | every channel of a blend lies between the two inputs' channels |
| Colors.BlendOne | src/main/kotlin/Wireframe3D.kt:455-460 | factor 1 gives col1's RGB |
| Colors.BlendZero | src/main/kotlin/Wireframe3D.kt:455-460 | factor 0 gives col2's RGB |
| Clipping.ClipMaskBits | src/main/kotlin/Wireframe3D.kt:433-441 | bits 32, 16, 8, 4, 2, 1 are set exactly when x > w, y > w, z > w, x < -w, y < -w, z < -w, and the mask is below 64 |
| Clipping.ClipMaskZeroIffInside | src/main/kotlin/Wireframe3D.kt:433-441 | the mask is 0 exactly when -w <= x, y, z <= w |
| Clipping.ClipLineOnPlane | src/main/kotlin/Wireframe3D.kt:443-453 | the clipped endpoint lies exactly on the plane of the highest-priority bit of the mask |
| Clipping.ClipLineAcross | src/main/kotlin/Wireframe3D.kt:397-402 | when the segment crosses the plane, clipping is defined and is the lerp at a parameter t in (0, 1] |
| Clipping.OutcodeGivesCrossing | src/main/kotlin/Wireframe3D.kt:361-376 | when a is outside and the outcodes share no bit, the segment crosses a's first outside plane |
| Clipping.FirstStepLandsOnPlane | src/main/kotlin/Wireframe3D.kt:371-373 | the first clipLine of a round is always defined and lands on its plane |
| Clipping.ClipAcceptsOnlyInside | src/main/kotlin/Wireframe3D.kt:361-379 | whatever the number of rounds, accepted endpoints lie in the view volume |
| Clipping.ClipKeepsInside | src/main/kotlin/Wireframe3D.kt:365-367 | a segment already inside is accepted unchanged |
| Clipping.ClipRejectsCommonOutside | src/main/kotlin/Wireframe3D.kt:368-370 | a shared outcode bit rejects at once and leaves the endpoints unchanged |
| Clipping.ScreenInViewport | src/main/kotlin/Wireframe3D.kt:413-417 | an inside point with w > 0 maps into the closed viewport rectangle and keeps its w |
| Clipping.InsideHasNonnegativeW | src/main/kotlin/Wireframe3D.kt:433-441 | a point of the view volume has w >= 0 |
| Clipping.IsBackFacing | src/main/kotlin/Wireframe3D.kt:425-431 | a back face has three nonzero w's and positive screen-space winding |
| Clipping.WindingReversed | src/main/kotlin/Wireframe3D.kt:425-431 | swapping the second and third vertices negates the winding |
| Clipping.WindingRotated | src/main/kotlin/Wireframe3D.kt:425-431 | rotating the three vertices keeps the winding |
| Clipping.BackFacingSwap | src/main/kotlin/Wireframe3D.kt:425-431 | a triangle and its swap are never both back-facing, and unless collinear exactly one is |
| Clipping.BackFacingRotated | src/main/kotlin/Wireframe3D.kt:425-431 | back-facing does not depend on which vertex comes first |
| Raster.DepthWriteLowers | src/main/kotlin/Wireframe3D.kt:333-334 | a depth write that passes the strict test only brings that cell closer |
| Raster.DepthsLoweredTransitive | src/main/kotlin/Wireframe3D.kt:329-346 | "every depth kept or closer" composes over successive writes |
| Raster.TintedTransitive | src/main/kotlin/Wireframe3D.kt:348-351 | "every pixel kept or moved toward rgb" composes over successive writes |
| Raster.PaintedTransitive | src/main/kotlin/Wireframe3D.kt:348-351 | shading between a tint and the fill composes over successive draws |
| Raster.TintedPaints | src/main/kotlin/Wireframe3D.kt:348-351 | moving cells toward a colour that lies between a tint and the fill shades them between the two |
| Raster.PaintedWider | src/main/kotlin/Wireframe3D.kt:100-103 | shading toward a colour between a tint and the fill is shading toward the tint and the fill |
| Raster.PlotTints | src/main/kotlin/Wireframe3D.kt:348-351 | one plot with coverage in [0, 1] moves only its own cell toward rgb |
| Raster.PixelPairTints | src/main/kotlin/Wireframe3D.kt:335-343 | the two plots of a Wu pixel move both cells toward rgb |
| Raster.PixelInBounds | src/main/kotlin/Wireframe3D.kt:332-343 | a pixel within the viewport, and its neighbour below or beside it, address cells of the buffer of width * (height + 3) |
| Raster.ViewportFits | src/main/kotlin/Wireframe3D.kt:18 | a buffer that fits in an Int leaves room for the pixel arithmetic |
| Raster.CapInRange | src/main/kotlin/Wireframe3D.kt:310-312 | a line's rounded end pixel lands in the viewport |
| Raster.SpanInRange | src/main/kotlin/Wireframe3D.kt:320-326 | every inner pixel of a gentle-slope span lands in the viewport |
| Raster.CapPixel | src/main/kotlin/Wireframe3D.kt:310-318 | the end-point pixel, in the steep or the flat orientation, is within the viewport and its intery within the Int range |
| Raster.SpanPixel | src/main/kotlin/Wireframe3D.kt:322-326 | every span pixel, in either orientation, is within the viewport |
| Raster.StepAlong | src/main/kotlin/Wireframe3D.kt:320-325 | stepping intery by gy per column keeps it on the line through the first end point |
| Raster.LinePairsCover | src/main/kotlin/Wireframe3D.kt:85-93 | the pairs are disjoint, and each vertex except an odd trailing one is in one |
| Raster.PolygonPairs | src/main/kotlin/Wireframe3D.kt:95-114 | POLYGON mode draws count edges of in-range indices, or none when count <= 2 |
| Raster.PolygonPairsCloseBoundary | src/main/kotlin/Wireframe3D.kt:104-112 | the edges are (count - 1, 0) followed by descending (count - 1 - j, count - j), and every boundary edge is among them |
| Primitives.Projected | src/main/kotlin/Wireframe3D.kt:97-99 | projecting a batch keeps its length |
| Primitives.ProjectedInStages | src/main/kotlin/Wireframe3D.kt:353-359 | projecting by comb == world * view * proj applies world, then view, then proj |
| Primitives.LineSegments | src/main/kotlin/Wireframe3D.kt:85-93 | one segment per line pair |
| Primitives.LineSegmentsJoinPairs | src/main/kotlin/Wireframe3D.kt:85-93 | the k-th LINE segment joins projected vertices 2k and 2k + 1, and every vertex but an odd trailing one is drawn |
| Primitives.PolygonSegments | src/main/kotlin/Wireframe3D.kt:95-114 | count segments when count > 2, else none |
| Primitives.PolygonSegmentsAreOutline | src/main/kotlin/Wireframe3D.kt:104-112 | the segments are the closed outline, from (last, first) and then descending, and contain every edge |
| Primitives.PolygonSegmentAt | src/main/kotlin/Wireframe3D.kt:104-112 | the j-th POLYGON segment's endpoints |
| Primitives.EndSegments | src/main/kotlin/Wireframe3D.kt:78-114 | end draws count / 2 LINE segments or count POLYGON edges, all in the batch's colour and offset |
| Primitives.BackFacesFadeTowardFill | src/main/kotlin/Wireframe3D.kt:100-103 | a back face's colour has every channel between the drawing colour's and the fill colour's |
| Primitives.ReversedOutlineIsFrontFacing | src/main/kotlin/Wireframe3D.kt:100 | swapping vertices 1 and 2 of a back face makes it front-facing |
| Primitives.DrawnStep | src/main/kotlin/Wireframe3D.kt:88-91 | the drawing guarantee composes segment by segment |
| Primitives.RunSegmentsAppend | src/main/kotlin/Wireframe3D.kt:74-83 | the segments of two runs of `end`s back to back are the two runs' segments, concatenated |
| Primitives.LoggedChain | src/main/kotlin/Wireframe3D.kt:74-83 | a run that logs its segments and lowers depths, followed by another, is one such run of both |
| Primitives.DrewChain | src/main/kotlin/Wireframe3D.kt:74-83 | the same, with every pixel also shaded between its old value, the tint and the fill |
| Primitives.BatchPainted | src/main/kotlin/Wireframe3D.kt:74-83 | one `end`, faded as a back face or not, keeps or lowers every depth and shades every pixel between its old value, any tint its colour lies between and the fill |
| Primitives.LoggedSinceEnd | src/main/kotlin/Wireframe3D.kt:74-83 | one more `end` extends the per-batch segment log, the log of segments, and the depth and shading guarantees |
| Primitives.LoggedSinceDrew | src/main/kotlin/Wireframe3D.kt:74-83 | batches whose segments were logged one by one since index k were drawn as one run |
| Primitives.CulledPrefix | src/main/kotlin/Wireframe3D.kt:276 | a run is all culled iff its prefix is and its last segment is |
| Primitives.QuadPrimitives | src/main/kotlin/Wireframe3D.kt:266-273 | one polygon per quad of table indices |
| Primitives.QuadPrimitivesAppend | src/main/kotlin/Wireframe3D.kt:210-223 | the polygons of concatenated quad lists are concatenated |
| Primitives.GridStepShrinks | src/main/kotlin/Wireframe3D.kt:138-148 | each pass of drawGrid's loop brings it closer to the end |
| Primitives.GridRowsStep | src/main/kotlin/Wireframe3D.kt:138-148 | one pass emits the cross at i unless i == 0, then continues at i + step |
| Primitives.GridRowsInSquare | src/main/kotlin/Wireframe3D.kt:138-148 | every grid batch is four y = 0 points inside the square [-half, half]^2, and no row lies on an axis |
| Primitives.CubePrimitives | src/main/kotlin/Wireframe3D.kt:182-189 | drawCube emits six batches |
| Primitives.CubePrimitivesAreFaces | src/main/kotlin/Wireframe3D.kt:168-189 | each batch is a four-corner polygon of distinct corners lying on one face of the box |
| Primitives.SpherePrimitivesFromTable | src/main/kotlin/Wireframe3D.kt:210-223 | drawSphere emits slices * (stacks - 2) polygons, all indexing inside the vertex table |
| Primitives.CapsulePrimitivesFromTable | src/main/kotlin/Wireframe3D.kt:250-263 | drawCapsule emits slices * (stacks + 1) polygons, all indexing inside the vertex table |
| Shapes.KotlinDiv | src/main/kotlin/Wireframe3D.kt:231-235 | Kotlin's Int division truncates toward zero: the quotient has the dividend's sign, and q * b lies within one divisor of a on the side of zero, so for negative stacks `stacks / 2` rounds up |
| Shapes.KotlinDivOdd | src/main/kotlin/Wireframe3D.kt:231-235 | negating the dividend negates the quotient, which floor division does not do |
| Shapes.RangeLengthSplit | src/main/kotlin/Wireframe3D.kt:231-238 | the ranges `0..stacks / 2` and `stacks / 2..stacks` share one value, so together they have one element more than `0..stacks` |
| Shapes.RangeLengthStep | src/main/kotlin/Wireframe3D.kt:197 | `a..b` is empty exactly when a > b, and otherwise has one element more than `a..b - 1` |
| Shapes.CubeCorners | src/main/kotlin/Wireframe3D.kt:170-179 | the cube has eight corners |
| Shapes.CubeIndicesInRange | src/main/kotlin/Wireframe3D.kt:180 | the 24 table indices all lie in [0, 8) |
| Shapes.Side | src/main/kotlin/Wireframe3D.kt:184-186 | each side reads four corner indices in [0, 8) |
| Shapes.SidesTable | src/main/kotlin/Wireframe3D.kt:180 | the six sides, as the table lists them |
| Shapes.CubeSidesAreFaces | src/main/kotlin/Wireframe3D.kt:168-189 | a side's four corners are distinct and share the coordinate of one face of the box |
| Shapes.CubeSidesDistinct | src/main/kotlin/Wireframe3D.kt:180 | the six sides lie on six different faces |
| Shapes.CubeCornersInThreeSides | src/main/kotlin/Wireframe3D.kt:180 | every corner appears in exactly three sides |
| Shapes.Ring | src/main/kotlin/Wireframe3D.kt:203-208 | one swept copy of the curve has the curve's length |
| Shapes.RingsLength | src/main/kotlin/Wireframe3D.kt:201-208 | the swept table has rings times the curve's length vertices |
| Shapes.RingsIndex | src/main/kotlin/Wireframe3D.kt:201-208 | vertex s * n + k, for a curve of n points, is curve point k placed at slice angle s |
| Shapes.SphereCurve | src/main/kotlin/Wireframe3D.kt:195-199 | the meridian has stacks + 1 points |
| Shapes.SphereRow | src/main/kotlin/Wireframe3D.kt:212-222 | one sphere slice renders stacks 1 until stacks - 1 |
| Shapes.SphereQuadCount | src/main/kotlin/Wireframe3D.kt:210-223 | the sphere renders slices * (stacks - 2) quads |
| Shapes.SphereVertexCount | src/main/kotlin/Wireframe3D.kt:195-208 | the sphere table has (slices + 1) * (stacks + 1) vertices |
| Shapes.CellInRange | src/main/kotlin/Wireframe3D.kt:213-216 | ma, mb, mc, md of a cell lie inside the table |
| Shapes.SphereQuadsAreCells | src/main/kotlin/Wireframe3D.kt:210-223 | every sphere quad is the plain (ma, mb, mc, md) cell of a stack strictly below stacks - 1, so its else branch is never taken, and it indexes below (slices + 1) * (stacks + 1) |
| Shapes.CapsuleArc | src/main/kotlin/Wireframe3D.kt:231-238 | a half arc of the capsule has the number of points its range gives |
| Shapes.CapsuleCurve | src/main/kotlin/Wireframe3D.kt:229-238 | the capsule profile has stacks + 2 points (stacks / 2 is shared by both arcs) |
| Shapes.CapsuleRow | src/main/kotlin/Wireframe3D.kt:252-262 | one capsule slice renders stacks 0..stacks |
| Shapes.CapsuleQuadCount | src/main/kotlin/Wireframe3D.kt:250-263 | the capsule renders slices * (stacks + 1) quads |
| Shapes.CapsuleVertexCount | src/main/kotlin/Wireframe3D.kt:229-248 | the capsule table has (slices + 1) * (stacks + 2) vertices |
| Shapes.CapsuleQuadsAreCells | src/main/kotlin/Wireframe3D.kt:250-263 | every capsule quad is a cell with stack in 0..stacks, rotated only when stack == stacks, and it indexes below (slices + 1) * (stacks + 2) |
| Shapes.MakeSphereCurve | src/main/kotlin/Wireframe3D.kt:195-199 | the curve loop builds the meridian |
| Shapes.MakeCapsuleCurve | src/main/kotlin/Wireframe3D.kt:229-238 | the two curve loops build the capsule profile |
| Shapes.Sweep | src/main/kotlin/Wireframe3D.kt:201-208 | the nested slice/point loop builds the swept table |
| Shapes.MakeSphereVertices | src/main/kotlin/Wireframe3D.kt:195-208 | the sphere's vertex table, of (slices + 1) * (stacks + 1) entries |
| Shapes.MakeCapsuleVertices | src/main/kotlin/Wireframe3D.kt:229-248 | the capsule's vertex table, of (slices + 1) * (stacks + 2) entries |
| Wireframes.Abs | src/main/kotlin/Wireframe3D.kt:290 | abs is nonnegative and is r or -r |
| Wireframes.Wireframe3D.constructor | src/main/kotlin/Wireframe3D.kt:10-26 | viewport (0, 0, width, height - 3), identity transforms, LINE mode, dirty, black colours, zeroed depth buffer |
| Wireframes.Wireframe3D.Color | src/main/kotlin/Wireframe3D.kt:28-29 | the colour reads back rgb's channels as an opaque java.awt.Color |
| Wireframes.Wireframe3D.SetColor | src/main/kotlin/Wireframe3D.kt:30-32 | setting the colour stores its rgb |
| Wireframes.Wireframe3D.Clear | src/main/kotlin/Wireframe3D.kt:34-38 | fill becomes rgb, every colour cell becomes fill, and every depth becomes +infinity |
| Wireframes.Wireframe3D.Identity | src/main/kotlin/Wireframe3D.kt:40-43 | world becomes IDENTITY and the cache is marked dirty |
| Wireframes.Wireframe3D.Rotate | src/main/kotlin/Wireframe3D.kt:45-48 | world is right-multiplied by the axis-angle rotation about the normalised axis, and marked dirty |
| Wireframes.Wireframe3D.Transform | src/main/kotlin/Wireframe3D.kt:50-53 | world is right-multiplied by m, and marked dirty |
| Wireframes.Wireframe3D.View | src/main/kotlin/Wireframe3D.kt:55-58 | view becomes m, and marked dirty |
| Wireframes.Wireframe3D.Proj | src/main/kotlin/Wireframe3D.kt:60-63 | proj becomes m, and marked dirty |
| Wireframes.Wireframe3D.Begin | src/main/kotlin/Wireframe3D.kt:65-68 | sets the mode and resets the vertex cursor |
| Wireframes.Wireframe3D.Vertex | src/main/kotlin/Wireframe3D.kt:70-72 | stores the point (x, y, z, 1) in the next slot, advances the cursor, and leaves other slots alone |
| Wireframes.Wireframe3D.UpdateTransform | src/main/kotlin/Wireframe3D.kt:353-359 | returns comb == world * view * proj and clears dirty (the cache is never stale) |
| Wireframes.Wireframe3D.Plot | src/main/kotlin/Wireframe3D.kt:348-351 | only the addressed cell changes, to the opaque blend of rgb over it |
| Wireframes.Wireframe3D.WuPixel | src/main/kotlin/Wireframe3D.kt:329-346 | both cells are in the buffer; if the strict depth test fails nothing changes, otherwise depth[addr] becomes z and exactly cells addr and addr + width (flat) or addr + 1 (steep) are blended with coverage rfPart and fPart |
| Wireframes.Wireframe3D.WuLine | src/main/kotlin/Wireframe3D.kt:283-327 | for end points in the viewport, depths only come closer and pixels only move toward rgb |
| Wireframes.Wireframe3D.WuOrdered | src/main/kotlin/Wireframe3D.kt:304-326 | after the steep swap and end-point ordering, the same guarantee |
| Wireframes.Wireframe3D.WuCap | src/main/kotlin/Wireframe3D.kt:310-318 | an end pixel is the rounded x with y and z on the line, within the viewport |
| Wireframes.Wireframe3D.WuSpan | src/main/kotlin/Wireframe3D.kt:320-326 | the inner span loop keeps the depth and tint guarantee |
| Wireframes.Wireframe3D.Clip | src/main/kotlin/Wireframe3D.kt:361-379 | the verdict and the new endpoints are those of five clip rounds, and no other slot changes |
| Wireframes.Wireframe3D.DrawLine | src/main/kotlin/Wireframe3D.kt:275-281 | logs the segment, keeps the depth and tint guarantee, and changes no buffer cell when clip rejects |
| Wireframes.Wireframe3D.DrawLines | src/main/kotlin/Wireframe3D.kt:85-93 | draws exactly the LINE segments of the projected batch |
| Wireframes.Wireframe3D.DrawPair | src/main/kotlin/Wireframe3D.kt:89 | projects and draws one pair, leaving the other slots alone |
| Wireframes.Wireframe3D.DrawPolygon | src/main/kotlin/Wireframe3D.kt:95-114 | fades and offsets a back face, draws exactly its outline segments, and leaves the projected vertices in slots 0..count - 1 |
| Wireframes.Wireframe3D.ProjectAll | src/main/kotlin/Wireframe3D.kt:97-99 | projects slots 0..count - 1 in place and leaves the rest |
| Wireframes.Wireframe3D.DrawOutline | src/main/kotlin/Wireframe3D.kt:104-112 | draws the closed outline through the two pad slots without altering the batch |
| Wireframes.Wireframe3D.DrawEdge | src/main/kotlin/Wireframe3D.kt:107-110 | copies two vertices into the pad slots and draws them |
| Wireframes.Wireframe3D.End | src/main/kotlin/Wireframe3D.kt:74-83 | logs the batch, draws EndSegments of its projection by world * view * proj, sets the offset, clears dirty, and restores rgb |
| Wireframes.Wireframe3D.DrawBatch | src/main/kotlin/Wireframe3D.kt:78-81 | dispatches on the mode and restores rgb |
| Wireframes.Wireframe3D.DrawAxis | src/main/kotlin/Wireframe3D.kt:116-132 | emits the three axis lines in cx, cy, cz, logs exactly their segments, only lowers depths, and leaves the transforms and fill alone |
| Wireframes.Wireframe3D.AxisLine | src/main/kotlin/Wireframe3D.kt:118-121 | emits one LINE batch from the origin to (x, y, z) and logs and draws it like every batch since the builder began |
| Wireframes.Wireframe3D.DrawGrid | src/main/kotlin/Wireframe3D.kt:134-156 | emits the grid rows in the 25% blend and then the axis cross in the 50% blend; the segment log grows by exactly their segments, depths only come closer, and pixels are only shaded between the colour and the fill |
| Wireframes.Wireframe3D.GridLoop | src/main/kotlin/Wireframe3D.kt:138-148 | the while loop emits GridRows(-half, half, step), logging and drawing each like every batch since the builder began |
| Wireframes.Wireframe3D.GridLines | src/main/kotlin/Wireframe3D.kt:140-145 | one pass emits a single cross, logged and drawn like every batch since the builder began |
| Wireframes.Wireframe3D.DrawPlane | src/main/kotlin/Wireframe3D.kt:158-166 | emits the one rectangle of the plane in its colour, logs exactly its segments, only lowers depths and only shades pixels between the colour and the fill |
| Wireframes.Wireframe3D.DrawCube | src/main/kotlin/Wireframe3D.kt:168-190 | emits CubePrimitives, the six faces, in its colour, with the same log, depth and shading guarantee |
| Wireframes.Wireframe3D.CubeSide | src/main/kotlin/Wireframe3D.kt:183-188 | emits one side's four corners, logged and drawn like every batch since the builder began |
| Wireframes.Wireframe3D.DrawSphere | src/main/kotlin/Wireframe3D.kt:192-224 | emits SpherePrimitives in its colour, with the same log, depth and shading guarantee |
| Wireframes.Wireframe3D.SphereSlices | src/main/kotlin/Wireframe3D.kt:210-223 | the slice loop emits the polygons of every sphere quad, in order, each logged and drawn |
| Wireframes.Wireframe3D.SphereSlice | src/main/kotlin/Wireframe3D.kt:212-222 | one slice emits the polygons of its row, each logged and drawn, and the else branch is proved unreachable |
| Wireframes.Wireframe3D.DrawCapsule | src/main/kotlin/Wireframe3D.kt:226-264 | emits CapsulePrimitives in its colour, with the same log, depth and shading guarantee |
| Wireframes.Wireframe3D.CapsuleSlices | src/main/kotlin/Wireframe3D.kt:250-263 | the slice loop emits the polygons of every capsule quad, in order, each logged and drawn |
| Wireframes.Wireframe3D.CapsuleSlice | src/main/kotlin/Wireframe3D.kt:252-262 | one slice emits its row, rotating the last quad's corners, each logged and drawn |
| Wireframes.Wireframe3D.DrawCell | src/main/kotlin/Wireframe3D.kt:257-261 | one cell of a slice goes through renderPolygon, extending the quad polygons by that cell's |
| Wireframes.Wireframe3D.Finish | src/main/kotlin/Wireframe3D.kt:74-83 | `end` inside a shape builder: logs the batch, and keeps the log of everything since the builder began matched to its segments, with depths lowered and pixels shaded |
| Wireframes.Wireframe3D.RenderPolygon | src/main/kotlin/Wireframe3D.kt:266-273 | emits one four-point POLYGON batch, logged and drawn like every batch since the builder began |

## Left out

- MainFrame.kt is not part of this model. It holds the Swing window, the frame
  timer, event dispatch and the render loop, all user interface and I/O.
- `BufferedImage`, `DataBufferInt`, `java.awt.Color` and `Rectangle` become an
  `Argb` array, an `Argb` value and an integer rectangle.
- IEEE-754 doubles become exact reals. Rounding, NaN and infinities other than
  the depth buffer's +infinity fill are not modelled, and nothing is claimed
  about pixel-exact output.
- Where the source would compute with NaN or infinity, the model takes the
  branch IEEE comparisons take:
  - with w == 0, nothing is drawn;
  - when the second clipLine of a round has a zero denominator, the model
    rejects the segment. The source goes on with NaN end points and accepts
    them unless that was the fifth round; nothing is then drawn only because
    `wupixel`'s `<` depth test fails for a NaN depth. The buffers end up the
    same either way.
- Clipping.IsBackFacing: with any vertex at w == 0 the model calls the face
  front-facing, which differs from the source. The source divides by zero and
  compares the resulting infinities, which can come out either way. For
  example, a = (0,0,·,1), b = (1,1,·,0), c = (1,-1,·,1) gives `-∞ < +∞`, so
  the source fades and offsets a face that the model draws unfaded.
- Wireframes.Wireframe3D.WuLine: when both end points fall on the same screen
  point (dx == 0 after the swaps) the model returns without drawing, which
  differs from the source. There gy = dy / dx is NaN and gz is infinite or
  NaN. `wupixel` then runs at row `NaN.toInt()` = 0, can store an infinite
  depth in that cell, and re-plots that cell and the one below it. The NaN
  coverage gives a blend weight of 0, so each keeps its colour but becomes
  opaque. That infinite depth rejects every later write to the cell until
  `clear`.
- `sin`, `cos`, `tan`, `sqrt`, `asin` and `atan2` are parameters. Rotation
  angles and the sphere and capsule vertex coordinates are therefore defined
  but not checked. `AngleStep` is 0 for a zero count, where the source's angle
  is infinite.
- Default arguments of `drawAxis` and `drawGrid` are not modelled: the
  callers pass them.
- Camera.View: proves only that the eye maps to the origin. That the view is
  `lookAt(position, target, UNIT_Y)` is its body.
- Controls.ForwardAndLeftWin: states the branch priority of `update`. The
  movement vectors themselves go through the inverse-square-root parameter and
  are not checked.
- Controls.FirstPersonControl.MouseMove: `lookAt` is the `axisAngle` product
  with the trigonometry as parameters. The initial pitch from `asin` is not
  clamped, as in the source.
- Wireframes.Wireframe3D.WuLine: promises only that depths come closer and
  pixels move toward rgb. Which pixels are drawn, and with what coverage, is
  not stated.
- Wireframes.Wireframe3D.End: requires count <= 32 in POLYGON mode, because
  the outline uses slots 2 * count - 2 and 2 * count - 1. The source overruns
  the scratch array there.
- Wireframes.Wireframe3D.constructor: requires an image of width >= 1 and
  height >= 3. `BufferedImage` already refuses an empty image. For an image
  of one or two rows the source builds a viewport of negative height, and the
  first line drawn into it then indexes outside the buffer.
- Wireframes.Wireframe3D.DrawAxis: states the segment log and that depths
  only come closer, but not how the pixels change. Its three lines are drawn
  in the unrelated colours cx, cy and cz, and the shading guarantee that
  DrawGrid, DrawPlane, DrawCube, DrawSphere and DrawCapsule state is for one
  colour and the fill.
- Wireframes.Wireframe3D.Vertex: requires count < 64. The source throws past
  64 vertices.
- Wireframes.Wireframe3D.DrawGrid: requires step > 0 or size < 0, because the
  source loops forever otherwise. `i += step` is exact over reals, so float
  accumulation in the `i != 0.0` test is not modelled.
- Wireframes.Wireframe3D.DrawCapsule: requires stacks != 0. The source divides
  by stacks, yielding NaN or infinity.
- Wireframes.Wireframe3D.Rotate: requires a nonzero axis. The source
  normalises a zero axis into NaN.
- Controls.FirstPersonControl.constructor: requires the view direction
  `target - position` to have nonzero length, for the same reason.
- Matrices.Perspective, Cameras.Camera.Projection and
  Matrices.PerspectiveMapsNearAndFar: require near != far, a nonzero tangent
  of half the field of view and a nonzero aspect ratio. Reals have no
  infinity, so these divisions must be defined. The source divides anyway
  and yields infinities or NaN. Its only caller, MainFrame.kt, passes values
  that meet these requirements.
- The pixel writes (`plot`, `wupixel`) are proved in bounds. The proof uses
  clip acceptance and the 3-row margin between the viewport and the buffer,
  so the model neither requires nor checks bounds separately.
- Several source functions are split into helper methods, one call of `end`
  each, so that each can be specified. They call Finish, which is `end` with
  the ghost bookkeeping of what has been logged and drawn since their
  builder began:
  - `drawAxis` into AxisLine;
  - `drawGrid` into GridLoop, GridPass and GridLines, whose `begin` and
    four `vertex` calls are FourVertices;
  - `renderPolygon` into FourVertices and `end`;
  - `drawCube` into CubeSide;
  - `drawSphere` into SphereSlices, SphereSlice, DrawCell and
    MakeSphereVertices;
  - `drawCapsule` into CapsuleSlices, CapsuleSlice, DrawCell and
    MakeCapsuleVertices;
  - `wuLine` into WuOrdered, WuCap and WuSpan;
  - `end` into DrawBatch;
  - `drawPolygon` into ProjectAll, DrawOutline, OutlineEdge and DrawEdge.
- `DrawPlane` goes through `RenderPolygon`. This is the same sequence of calls
  as the source's inline begin/vertex/end.
- `times(Matrix4)` is defined row by row. LookAt uses the cross products its
  formulas spell out.
