# Optical-illusion demos: a verified model of their scene logic

The repository is a set of browser demos of optical illusions drawn with a
3D scene library. This project models the deterministic logic of four of
them and proves what it promises:

- **Cafe wall** (`cafe_wall.dfy`, with the layout shared in `wall_grid.dfy`).
  A 12 × 16 wall of black and white tiles with grey mortar lines between the
  rows. Odd rows are shifted by half a tile. One button shows or hides red
  guide lines over the mortar, another removes or restores the shift. Every
  handler flips a flag, rebuilds the arrays of meshes and asks for a redraw.
  The animation frame renders only when a redraw was asked for.
- **Fake cafe wall** (`fake_cafe_wall.dfy`). The same wall, except that odd
  rows are always shifted and the mortar lines really are slanted. The slant
  is set with a slider in degrees. One button removes the whole pattern. The
  straight guide lines are independent of the pattern.
- **Squint / Penrose** (`penrose.dfy`). Twelve colour-wheel rings, each with
  its own rotation uniform, which every frame sets to the same clock-driven
  value. Four arrows in the centre switch between
  four visibility patterns every three seconds. The arrow mesh is a polygon
  built from four constants.
- **Ames room** (`ames_room.dfy`). A distorted box given by eight named
  corners is assembled into a 30-vertex triangle buffer, modelled in the
  order the source lists it. Each vertex gets a
  UV coordinate: it is projected through a camera at the peephole, and the
  clip coordinates are mapped to texture space by `(c + 1) / 2`. Five
  material groups split the buffer into its five faces.

Imperative parts are imperative here:
- the demos' module-level arrays and flags are the fields of a class
  (`CafeWall.CafeWall`, `FakeCafeWall.FakeCafeWall`, `Penrose.Squint`);
- the nested build loops are `while` loops proved against closed-form
  specifications (`WallGrid.Grid`, `WallGrid.Lines`);
- the ring meshes are objects whose `uRotation` field each frame writes;
- the UV loop is a stride-3 loop proved against `AmesRoom.UVs`.

Constants, the corner coordinates and the arrow outline are functions, and
the properties are lemmas about those functions.

All arithmetic is on exact reals. The demos' constants (1.2, 0.8, 0.15, …)
are decimals, so exact arithmetic describes the layout the code computes up
to floating-point rounding. `Math.PI` is the real 3.141592653589793.

JavaScript's `%` truncates toward zero, unlike Dafny's Euclidean `%`. It is
modelled explicitly (`Penrose.JsRem`), together with `Math.floor`.

The library calls without logic of their own are abstracted:
- `scene.add`/`scene.remove` and mesh construction: a mesh is a value record
  holding its position and its material or geometry;
- the camera's `Vector3.project`: a parameter `project: Vec3 -> Vec3`;
- the clock reading of a frame: a parameter `elapsedTime`;
- the slider's parsed value: the parameter of `UpdateSlantAngle`.

## Model

| member | source | states |
|---|---|---|
| `WallGrid.RowY` | cafewall/main.js:50 | defines the height of row r's centre, top row first; its values are stated by `WallGrid.RowSpacing` |
| `WallGrid.StartX` | cafewall/main.js:53-56 | defines the x of a row's first tile, shifted by half a tile on odd rows while the offset is on; its values are stated by `WallGrid.RowOffset` |
| `WallGrid.TileAt` | cafewall/main.js:59-67 | defines the tile of a row and column (position and colour); its properties are stated by `WallGrid.GridColour`, `WallGrid.TileSpacing` and `WallGrid.UnshiftedRowSymmetric` |
| `WallGrid.MortarY` | cafewall/main.js:75 | defines the height of the mortar line under row r; its properties are stated by `WallGrid.MortarMidway` and `WallGrid.LinesUnderRows` |
| `WallGrid.ColourOf` | cafewall/main.js:63-64 | defines a column's colour, black on even columns; its properties are stated by `WallGrid.GridColour` |
| `WallGrid.GridPrefixIsGrid` | cafewall/main.js:48-71 | appending one tile per (row, column), row by row and left to right, yields exactly the row-major wall `Grid` |
| `WallGrid.StripsAreLines` | cafewall/main.js:74-81 | appending one line under each row but the last yields exactly `Lines`, the 11 lines at the mortar heights |
| `WallGrid.GridAt` | cafewall/main.js:48-71 | the wall holds `rows*tilesPerRow` = 192 tiles; index `row*16 + col` holds the tile of that row and column |
| `WallGrid.GridColour` | cafewall/main.js:62-64 | a tile is black iff its column is even and white iff odd, in every row |
| `WallGrid.RowOffset` | cafewall/main.js:53-56 | even rows start at -9.0; an odd row starts 0.6 (half a tile) further right when the offset is on, and level with the even rows when it is off |
| `WallGrid.TileSpacing` | cafewall/main.js:60 | neighbouring tiles of a row are exactly one tile width apart at the same height |
| `WallGrid.RowSpacing` | cafewall/main.js:50 | each row lies `tileHeight + mortarThickness` below the previous one; the rows are symmetric about y = 0; row 0 is at 5.225 |
| `WallGrid.MortarMidway` | cafewall/main.js:75 | the mortar line under row r is midway between rows r and r + 1, strictly between them |
| `WallGrid.UnshiftedRowSymmetric` | cafewall/main.js:53-60 | an unshifted row is mirror-symmetric about x = 0 |
| `WallGrid.LinesUnderRows` | cafewall/main.js:74-75 | a full rebuild draws 11 lines, line r midway under row r, none under the last row |
| `WallGrid.GridPrefixAt` | cafewall/main.js:48-71 | the n-tile build prefix has length n and holds tile (k / 16, k % 16) at index k |
| `WallGrid.StripsAt` | cafewall/main.js:74-81 | the n-line build prefix has length n and holds the line under row r at index r |
| `CafeWall.PatternShape` | cafewall/main.js:43-82 | a rebuild gives 192 tiles and 11 mortar lines, row-major, black iff the column is even |
| `CafeWall.OddRowShift` | cafewall/main.js:53-56 | each odd-row tile is 0.6 right of the row-0 tile of its column while the offset is present, level once it is removed; even rows never move |
| `CafeWall.OffsetMovesOddRowsOnly` | cafewall/main.js:54 | toggling the offset changes a tile iff its row is odd |
| `CafeWall.GuidesOverMortar` | cafewall/main.js:88-105 | hidden guide lines are none; shown ones are 11, one at each mortar line's height |
| `CafeWall.CafeWall.constructor` | cafewall/main.js:30-121 | page load: both flags off, the shared geometries, then `init`; the scene is valid and a redraw is pending |
| `CafeWall.CafeWall.CreateCafeWallPattern` | cafewall/main.js:41-83 | clears the tiles and mortar lines and refills them with exactly `Pattern(offsetRemoved)` and the 11 mortar lines; nothing from before survives |
| `CafeWall.CafeWall.CreateGuideLines` | cafewall/main.js:86-106 | clears the guide lines and refills them with exactly the 11 lines when visible, none otherwise |
| `CafeWall.CafeWall.Init` | cafewall/main.js:114-118 | rebuilds everything, leaves the flags alone and asks for a redraw |
| `CafeWall.CafeWall.ToggleLines` | cafewall/main.js:124-130 | flips guide visibility, rebuilds the guide lines to match, keeps the scene valid, asks for a redraw |
| `CafeWall.CafeWall.ToggleOffset` | cafewall/main.js:132-139 | flips the offset flag, rebuilds tiles, mortar and guides to match (the scene is valid after), asks for a redraw |
| `CafeWall.CafeWall.Animate` | cafewall/main.js:142-149 | renders exactly when a redraw was pending, and clears the flag |
| `CafeWall.CafeWall.ToggleOffsetTwice` | cafewall/main.js:132-139 | pressing "toggle offset" twice restores the flag and every array |
| `FakeCafeWall.DegreesToRadians` | fakecafewall/main.js:49 | the conversion keeps the angle's sign: zero iff the angle is zero, positive iff it is positive |
| `FakeCafeWall.CreateSlantedMortarGeometry` | fakecafewall/main.js:45-53 | defines the slanted mortar plane for an angle in degrees; its properties are stated by `FakeCafeWall.SlantedMortarRotation` |
| `FakeCafeWall.SlantedMortarRotation` | fakecafewall/main.js:45-53 | the slanted plane's rotation for a + b is the sum of the two; a larger angle turns it strictly further; its length is the guide lines' 20 and its height the mortar thickness; at 0 degrees it is unturned like the guide plane |
| `FakeCafeWall.RadiansLinear` | fakecafewall/main.js:49 | degrees map to radians linearly: sums and scalings are kept, 0 goes to 0 |
| `FakeCafeWall.RadiansStrictlyMonotone` | fakecafewall/main.js:49 | a larger angle gives a larger rotation, so distinct angles give distinct rotations |
| `FakeCafeWall.RemovedPatternIsEmpty` | fakecafewall/main.js:58-63 | with the pattern removed a rebuild leaves no tile and no mortar line |
| `FakeCafeWall.FullPattern` | fakecafewall/main.js:65-89 | otherwise 192 tiles, black iff the column is even, odd rows always shifted by half a tile |
| `FakeCafeWall.MortarFollowsSlant` | fakecafewall/main.js:91-101 | otherwise 11 mortar lines at the mortar heights, each turned by the current slant angle |
| `FakeCafeWall.GuidesStraight` | fakecafewall/main.js:108-126 | guide lines are 11 unturned lines at the mortar heights when visible and none otherwise, whatever the pattern flag |
| `FakeCafeWall.FakeCafeWall.constructor` | fakecafewall/main.js:30-199 | page load: flags off, slant 3 degrees, then `init` |
| `FakeCafeWall.FakeCafeWall.CreateFakeCafeWallPattern` | fakecafewall/main.js:56-103 | clears the arrays, returns early when the pattern is removed, otherwise refills them with exactly the shifted wall and the slanted mortar lines |
| `FakeCafeWall.FakeCafeWall.CreateGuideLines` | fakecafewall/main.js:106-127 | clears the guide lines and, when visible, refills them with the 11 straight lines |
| `FakeCafeWall.FakeCafeWall.Init` | fakecafewall/main.js:130-134 | rebuilds everything, keeps flags and angle, asks for a redraw |
| `FakeCafeWall.FakeCafeWall.UpdateSlantAngle` | fakecafewall/main.js:137-142 | stores the new angle and rebuilds, so every mortar line uses it |
| `FakeCafeWall.FakeCafeWall.ToggleLines` | fakecafewall/main.js:145-151 | flips guide visibility, rebuilds the guide lines to match, keeps the scene valid |
| `FakeCafeWall.FakeCafeWall.TogglePattern` | fakecafewall/main.js:153-160 | flips the pattern flag and rebuilds; the angle and guide flag are kept |
| `FakeCafeWall.FakeCafeWall.Animate` | fakecafewall/main.js:170-177 | renders exactly when a redraw was pending, and clears the flag |
| `FakeCafeWall.FakeCafeWall.RebuildTwice` | fakecafewall/main.js:56-127 | a second rebuild with unchanged flags gives exactly the arrays of the first, which it returns |
| `FakeCafeWall.FakeCafeWall.TogglePatternTwice` | fakecafewall/main.js:153-160 | pressing "toggle pattern" twice restores the flag and every array |
| `Penrose.InitialRotationsSpread` | penrose/main.js:91-97 | ring i starts with uniform `(i/12)·π·2`: 0 for the first, π/6 apart, below a full turn |
| `Penrose.FrameRotation` | penrose/main.js:198 | defines the value every ring's rotation uniform receives at a time; its properties are stated by `Penrose.FrameRotationClockwise` |
| `Penrose.FrameRotationClockwise` | penrose/main.js:193-199 | the frame uniform `-elapsed·16` decreases at 16 per second (clockwise) and is 0 at time 0 |
| `Penrose.Floor` | penrose/main.js:203 | `Math.floor`: the greatest integer not above its argument |
| `Penrose.JsRem` | penrose/main.js:203 | JavaScript `%`: magnitude below the divisor, Euclidean remainder on non-negative dividends, never positive on negative ones |
| `Penrose.JsRemNegative` | penrose/main.js:203 | for divisor 4 and a negative dividend: the Euclidean remainder minus 4 (or 0), congruent to the dividend |
| `Penrose.ArrowState` | penrose/main.js:202-203 | the state lies strictly between -4 and 4 and, from the start of the clock, is the number of whole 3-second intervals gone by, modulo 4 |
| `Penrose.VisibleArrows` | penrose/main.js:206-231 | some arrow is shown iff the state is one of the four cases; all four iff state 3; up without down iff state 2 |
| `Penrose.ArrowStateRange` | penrose/main.js:203 | for elapsed ≥ 0 the arrow state lies in 0..3 (in -3..0 before the start of the clock) |
| `Penrose.ArrowStateSteady` | penrose/main.js:202-203 | throughout the k-th 3-second interval the state is k mod 4 |
| `Penrose.ArrowStatePeriodic` | penrose/main.js:202-203 | for elapsed ≥ 0 the state repeats every 12 seconds |
| `Penrose.EveryArrowShownEachCycle` | penrose/main.js:202-231 | in every 12-second cycle each arrow is shown at some time, and all four together in its last interval |
| `Penrose.UpShownMost` | penrose/main.js:209-231 | up is shown in states 0, 2 and 3, down in 0 and 3, left and right together in 1 and 3 |
| `Penrose.ArrowOutline` | penrose/main.js:118-146 | 8 points, closed (last = first), mirror-symmetric about x = 0, tip at y = `stemLength/2 + headLength` strictly above every other point, within the head's width |
| `Penrose.ArrowOutlineArea` | penrose/main.js:125-146 | the outline runs counter-clockwise and encloses the stem rectangle plus the head triangle |
| `Penrose.ArrowPosition` | penrose/main.js:160-175 | defines where each arrow sits, 1.5 from the centre on its own axis; its properties are stated by `Penrose.ArrowsPointOutward` |
| `Penrose.ArrowRotation` | penrose/main.js:160-175 | defines each arrow's z rotation (0, π, π/2, -π/2); its properties are stated by `Penrose.ArrowsPointOutward` |
| `Penrose.ArrowsPointOutward` | penrose/main.js:156-176 | each arrow's rotation is a whole number of quarter turns that turns the upward outline towards its position, 1.5 from the centre |
| `Penrose.Ring.constructor` | penrose/main.js:94-100 | a ring mesh with its own material whose uniform starts at the given angle |
| `Penrose.Squint.constructor` | penrose/main.js:86-110 | exactly 12 fresh, distinct rings pushed in order, ring i with uniform `InitialRotation(i)`; all arrows visible |
| `Penrose.Squint.Animate` | penrose/main.js:187-231 | every ring's uniform becomes `-elapsed·16`, all equal; an arrow is visible iff the current state's case names it, every other arrow hidden |
| `AmesRoom.Position` | main.js:154-161 | defines the eight corners' coordinates as listed; their shape is stated by `AmesRoom.CornerNames`, `AmesRoom.NearSquare` and `AmesRoom.FarEdgesDistorted` |
| `AmesRoom.CornerNames` | main.js:154-161 | a corner is left iff x < 0, bottom iff y < 0, near iff z = -8 (far ones deeper) |
| `AmesRoom.NearSquare` | main.js:154-157 | the four near corners share z = -8 and form a 6 × 6 axis-aligned square |
| `AmesRoom.FarEdgesDistorted` | main.js:158-161 | the far left edge is 12 high at z = -20, the far right edge 8 high at z = -12 |
| `AmesRoom.RoomTriangles` | main.js:164-180 | the ten triangles exactly as the buffer lists them, two per face in the order floor, ceiling, back, left, right; every corner of triangle t lies on face t / 2 |
| `AmesRoom.Vertices` | main.js:164-181 | the position buffer holds 90 numbers and opens with the listed first floor triangle (-3, -3, -8), (4, -4, -12), (3, -3, -8) |
| `AmesRoom.FirstTriangleCoordinates` | main.js:166 | the first nine numbers of the flattened buffer are `v_nbl`, `v_fbr`, `v_nbr` |
| `AmesRoom.VertexCornerAt` | main.js:164-180 | 30 vertices = 10 triangles = 2 per face; vertex v is corner v % 3 of the listed triangle (v / 3) % 2 of face v / 6 |
| `AmesRoom.VertexBuffer` | main.js:164-181 | the position buffer holds 90 numbers, vertex v at 3v, 3v + 1, 3v + 2 |
| `AmesRoom.FacesUseOwnCorners` | main.js:154-179 | each face's triangles use only that face's corners (floor bottom, ceiling top, back far, left left, right right) and all four of them |
| `AmesRoom.RoomCentreIsMean` | main.js:154-161 | the reference point inside the room is the mean of the eight corners |
| `AmesRoom.SourceWindingMixed` | main.js:163-179 | as written, the floor, back-wall and left-wall triangles face out of the room, the ceiling and right-wall ones in |
| `AmesRoom.FloorWinding` | main.js:165-167 | the two floor triangles as listed have facing -96 and -416: both face out |
| `AmesRoom.CeilingWinding` | main.js:168-170 | the two ceiling triangles as listed have facing 96 and 416: both face in |
| `AmesRoom.BackWallWinding` | main.js:171-173 | the two back-wall triangles as listed have facing -320 and -480: both face out |
| `AmesRoom.LeftWallWinding` | main.js:174-176 | the two left-wall triangles as listed have facing -528 and -264: both face out |
| `AmesRoom.RightWallWinding` | main.js:177-179 | the two right-wall triangles as listed have facing 160 and 120: both face in |
| `AmesRoom.BufferWindingMixed` | main.js:163-180 | in the buffer as built, triangle t faces out of the room iff it is a floor, back-wall or left-wall triangle, and no triangle is degenerate |
| `AmesRoom.WindingInward` | main.js:163-179 | corrected winding: with the floor, back-wall and left-wall triangles rewound, every triangle faces into the room |
| `AmesRoom.RewindingKeepsTriangles` | main.js:164-180 | the corrected triangles keep each listed triangle's first corner and its corners as a multiset, and leave the ceiling and right wall as written |
| `AmesRoom.RewoundFlips` | main.js:211 | drawing a triangle the other way round negates its facing |
| `AmesRoom.ClipToUV` | main.js:202-203 | defines the map from a clip coordinate to a texture coordinate; its properties are stated by `AmesRoom.ClipUVRoundTrip`, `AmesRoom.ClipToUVRange` and `AmesRoom.ClipToUVMonotone` |
| `AmesRoom.ClipUVRoundTrip` | main.js:202-203 | `(c + 1)/2` and `2u - 1` are inverse to each other |
| `AmesRoom.ClipToUVRange` | main.js:201-203 | -1 goes to 0, 1 to 1, 0 to 0.5, and a value is in [-1, 1] iff its image is in [0, 1] |
| `AmesRoom.ClipToUVMonotone` | main.js:202-203 | the map is strictly increasing with slope 1/2 |
| `AmesRoom.ComputeUVs` | main.js:190-206 | the stride-3 loop yields exactly `UVs(vertices, project)` |
| `AmesRoom.UVsLayout` | main.js:194-206 | one (u, v) pair per vertex in vertex order, `2·(n/3)` numbers, each the image of the projected x or y, from which that coordinate is recovered |
| `AmesRoom.UVsInUnitSquare` | main.js:201-203 | vertices projected into the clip square get UVs in the unit square |
| `AmesRoom.RoomUVCount` | main.js:190-208 | the room's 30 vertices give 60 UV numbers |
| `AmesRoom.RoomGroups` | main.js:264-268 | five groups, consecutive from 0 to 30, with materials 0 to 4 in order |
| `AmesRoom.GroupsPartition` | main.js:264-268 | five consecutive blocks of 6 from 0 to 30, materials 0..4 in order; a vertex lies in group i iff i = v / 6 |
| `AmesRoom.MaterialMatchesFace` | main.js:164-180 | every vertex is drawn with the material of the face its corner lies on |
| `AmesRoom.BufferGeometry.AddGroup` | main.js:264 | appends one group and changes nothing else |
| `AmesRoom.BuildRoom` | main.js:151-268 | the geometry holds the room's positions as the source lists them, their projected UVs and the five groups |

## Left out

- Floating point: lengths and positions are exact reals. `Float32Array` storage, double rounding of the constants and of `Math.PI` are not modelled.
- The renderer, camera, canvas, lighting, `renderer.render` and the window-resize handlers. Each resize handler only recomputes frustum bounds and, in the cafe-wall demos, asks for a redraw.
- DOM wiring is not modelled: button labels, `classList`, the slider's `parseFloat` and the event registration. The handlers are methods.
- Scene membership: `scene.add`/`scene.remove` are not modelled. A mesh is its value record in one of the arrays, so "removed from the scene" is "no longer in the array".
- Materials: a tile records only its colour (black or white), and an Ames draw group only its material index. The tile geometry and the line materials are not modelled: the grey mortar and the red guide lines carry no colour, and a line records only its plane, height and depth.
- `PlaneGeometry.rotateZ` is recorded as the plane's rotation, not applied to vertices.
- Penrose: each ring's position on its circle (`Math.cos`/`Math.sin`), the shader and the ring geometry are left out.
- Penrose: the four arrow meshes appear only through their `visible` flags (the `visible` map), their fixed positions and their rotations.
- Penrose.Squint.Animate: the clock is the parameter `elapsedTime`, so the model does not capture that successive frames see non-decreasing times.
- Ames room: the camera's `project` is an arbitrary function. No property of perspective projection (such as where the near corners land) is claimed.
- Ames room: `computeVertexNormals`, the materials and canvas textures, the random particle cloud, the spheres and their animation, the pointer-lock WASD controls and the reset key are left out.
- AmesRoom.ComputeUVs: requires a buffer length that is a multiple of 3. The room's buffer of 90 numbers meets it; a trailing partial vertex, which the source would read past the end of the array, is not modelled.
- The corrected triangles (`AmesRoom.FaceTriangles`) are proved to face inward on their own (`AmesRoom.WindingInward`). The modelled buffer, its UVs and `AmesRoom.BuildRoom` keep the order the source writes.
- `pogendorff/main.js` and `silencing/main.js` are not part of this model: static scene construction and one display toggle each.

## Findings

| source | as written | input that shows it | evidently intended | confidence | as-written member | corrected member |
|---|---|---|---|---|---|---|
| main.js:163-179 | the buffer is said to wind every face's normal into the room (line 163), but the floor, back-wall and left-wall triangles are wound the other way; the ceiling and right wall are mirror copies of the floor and left wall whose order was not reversed | floor triangle (near-bottom-left, far-bottom-right, near-bottom-right): its right-hand normal (0, -24, 6) points away from the room's centre (-1, 0, -12), facing -96 | all ten triangles wound inward, e.g. the floor's last two corners exchanged | medium (double-sided materials hide it on screen); not executed | `AmesRoom.SourceWindingMixed` (over `SourceFaceTriangles`) and `AmesRoom.BufferWindingMixed` (over the buffer as built) | `AmesRoom.WindingInward` (over `FaceTriangles`) |
