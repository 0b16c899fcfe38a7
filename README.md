# Polyhedron animator, modelled in Dafny

main.js draws one or more wireframe polyhedra in a three.js scene and spins
them. The program's core is the following parts.

- **A shape catalog.** `polyhedronData` covers the five Platonic solids,
  keyed 4, 6, 8, 12 and 20. Each entry has a vertex generator scaled by
  `size` and a fixed edge list.
- **Grid placement.** `getObjPosition` places object `index` of `total` on a
  centred square grid with side `ceil(sqrt(total))`.
- **Mesh building.** `createObjGeometry` fills a group with one line per
  edge. Each line is pulled in by `gap` at both ends, and is kept only if
  its ends stay apart. When `gap > 0` it also adds one point cloud of the
  vertices.
- **The object pool.** `updateObjCount` pops surplus groups and pushes new
  empty ones, then re-places and rebuilds every group.
- **The control handlers.** They change the spin, the colour, colour
  cycling, the background, the shape, the gap, the count, the size and the
  spacing.
- **The animation frame.** `animate` spins every group and, while cycling
  is on, advances the hue and repaints every child.

The Dafny modules follow these parts.

- `Options`: the option type.
- `Vectors`: `Vec3` over exact reals, with the few `Vector3` operations the
  program uses.
- `Catalog`: the shape keys, the vertex generators as sign-pattern tables
  with the program's scale factors, and the edge lists.
- `VertexTables`: proofs about the vertex generators.
  - Every coordinate is proportional to `size`.
  - At any non-zero size, the two ends of every listed edge are different
    points.
- `EdgeTables`: proofs about the edge lists.
  - Every index names a vertex.
  - No edge is a loop.
  - No edge is listed twice.
  - Every solid is regular: each vertex lies on 3, 3, 4, 3 or 5 edges.
- `Layout`: `getObjPosition`, with the integer square root, the row and
  column arithmetic, and the grid's geometry.
- `Mesh`: the children of a group (lines and a point cloud), the pulled-in
  edge, a `Group` class, and `createObjGeometry` as a method with the pure
  `Geometry` function it is proved against.
- `Viewer`: the program's module-level state as a class `Animator`.
  - Its fields are the pool, the scene, the spin and colour-cycle settings
    and the `current…` control values.
  - `updateObjCount` is a method; so is `animate` and so is each event
    handler.
  - Ghost state records the colour every child is drawn in and the children
    every group holds.
  - `Valid()` ties the two ghost fields to the controls.

`Math.sqrt` cannot be defined here. Every operation that uses it takes a
function `sqrt` as a parameter. The only property assumed of it is that
`sqrt(q) > 0` exactly when `q > 0`, which `Math.sqrt` has.

### Behaviours of main.js worth knowing

- **Long gaps.** main.js:281 keeps an edge when
  `newStart.distanceTo(newEnd) > 0`. When `2·gap` is longer than the edge,
  the two ends cross but stay apart, so the line is still drawn, reversed.
  - An edge is dropped only when `2·gap` equals its length exactly, or when
    its ends coincide.
  - This is `Mesh.KeptIff` and `Mesh.InvertedEdgeKept`.
- **Unknown shape keys.** main.js:254-256 empties the group first. Then
  main.js:263 throws a TypeError, because `polyhedronData[key]` is
  undefined. The `forEach` that called `createObjGeometry` stops there.
  - The handlers have already stored the new key in `currentShapeType`
    before the failure.
  - So the first group is left empty and the others keep what they had.
  - The methods return `ok == false` in exactly this case and state that
    outcome.
- **A single object.** main.js:229 returns the origin when `total === 1`.
  `Layout.Position` keeps that branch. `Layout.PositionIsCell` proves that
  the general grid formula gives the same origin there.

## Model

| member | source | states |
|---|---|---|
| `Catalog.Lookup` | main.js:20-219 | a key has an entry exactly when it is 4, 6, 8, 12 or 20, and the entry found is the solid with that key |
| `Catalog.LookupKey` | main.js:20-219 | each solid is found under its own key and under no other |
| `Catalog.Vertices` | main.js:20-219 | each generator returns 4, 8, 6, 20 or 12 vertices whatever the size |
| `Catalog.Edges` | main.js:20-219 | the edge lists have 6, 12, 12, 30 and 30 entries |
| `VertexTables.ScalesLinear` | main.js:20-219 | every magnitude a generator derives (`a`, `half`, `s`, `scale`, `scale / phi`, `scale * phi`) is proportional to `size` |
| `VertexTables.VerticesLinear` | main.js:20-219 | multiplying `size` by `k` multiplies every coordinate of every vertex by `k`, and keeps the number of vertices |
| `VertexTables.EdgeEndsDistinct` | main.js:20-219 | at any non-zero size, every listed edge joins two vertices that are different points |
| `Catalog.Phi` | main.js:103 | the golden ratio `(1 + sqrt 5) / 2` is greater than 1/2, so the scale divisions that use it are defined |
| `EdgeTables.EdgesWellFormed` | main.js:33-217 | in every edge list each index is one of the solid's vertices, no edge joins a vertex to itself, and no undirected edge is listed twice |
| `EdgeTables.EdgesRegular` | main.js:33-217 | every vertex of a solid lies on exactly 3 (tetrahedron, cube, dodecahedron), 4 (octahedron) or 5 (icosahedron) listed edges, and no index beyond the vertex list occurs |
| `Layout.CeilSqrtBounds` | main.js:231 | the grid side `g = ceil(sqrt(total))` satisfies `g*g >= total` and `(g-1)*(g-1) < total` |
| `Layout.CeilSqrtLeast` | main.js:231 | the grid side is the least `h` with `h*h >= total` |
| `Layout.GridCell` | main.js:231-233 | every index below `total` gets a row and a column inside the grid, and row and column together give the index back |
| `Layout.PositionIsCell` | main.js:228-243 | the position of an index is the centred cell at column `index % g` and row `index / g` |
| `Layout.PositionFlat` | main.js:242 | every position lies in the plane `z = 0` |
| `Layout.MirrorColumns` | main.js:236-240 | two objects in mirrored columns have opposite `x` |
| `Layout.MirrorRows` | main.js:237-241 | two objects in mirrored rows have opposite `y` |
| `Layout.PositionCentred` | main.js:235-243 | the grid is centred on the origin: mirrored columns give opposite `x` and mirrored rows give opposite `y` |
| `Layout.NextInRow` | main.js:232-241 | the next index in the same row lies one `spacing` further right at the same height |
| `Layout.NextRow` | main.js:232-241 | the index one grid side further on lies in the same column, one `spacing` lower |
| `Layout.PositionsDistinct` | main.js:228-243 | with non-zero spacing, two different objects never share a position |
| `Layout.PositionBounded` | main.js:236-241 | every position lies inside the square of half-width `(g-1)*spacing/2` |
| `Mesh.CreateGeometry` | main.js:246-319 | the group's children are replaced by `edgeLines + vertexPoints`, which is the shape's `Geometry`; for an unknown key the group is left empty and `ok` is false; the position and rotation are untouched |
| `Mesh.AddEdgeLines` | main.js:266-291 | the loop appends exactly the lines of the kept edges, in edge order, each pulled in by `gap` |
| `Mesh.KeptIff` | main.js:271-281 | an edge yields a line exactly when its ends differ and its length is not exactly `2*gap` |
| `Mesh.InvertedEdgeKept` | main.js:276-281 | a gap longer than half the edge keeps the line, drawn in the opposite direction |
| `Mesh.NoGapWholeEdge` | main.js:271-289 | with no gap, an edge with distinct ends is drawn from vertex to vertex |
| `Mesh.ShrunkSpan` | main.js:271-278 | the pulled-in line is the edge scaled by `(L - 2*gap) / L` |
| `Mesh.KeptIndicesExact` | main.js:267-291 | the edges that produce lines are exactly the kept ones |
| `Mesh.EdgeLinesInOrder` | main.js:267-291 | the k-th line is the pulled-in line of the k-th kept edge |
| `Mesh.EdgeLinesBound` | main.js:267-291 | there are never more lines than edges |
| `Mesh.NoGapLines` | main.js:267-291 | with gap 0 and distinct vertices, every edge is drawn whole, in order |
| `Mesh.NoGapGeometry` | main.js:246-319 | with gap 0 and a non-zero size, a solid is drawn as exactly its edges, each whole and in table order, with no points object |
| `Mesh.NoGapCube` | main.js:351 | the cube with gap 0, as drawn at start-up, is twelve lines and no points object |
| `Mesh.EdgeLinesAreLines` | main.js:282-289 | every edge child is a line in the requested colour |
| `Mesh.GeometryShape` | main.js:258-318 | every child has the requested colour; a point cloud occurs only when `gap > 0`, and only last; when `gap > 0` the last child is the point cloud of all the vertices; at most one child more than edges |
| `Mesh.Recolor` | main.js:449-451 | a child with a material takes the new colour; its kind, its line ends and its point positions stay |
| `Mesh.RecolorKeeps` | main.js:448-452 | recolouring keeps the number, the order, the kind and the geometry of the children, and gives each the new colour |
| `Mesh.RecolorTwice` | main.js:447-453 | after two recolourings only the last colour shows |
| `Mesh.PaintChildren` | main.js:448-452 | a group's children become their recoloured selves; nothing else about the group changes |
| `Mesh.RecolorAppend` | main.js:448-452 | recolouring distributes over concatenation |
| `Mesh.RecolorGeometry` | main.js:246-319 | recolouring a geometry built in one colour gives the geometry built in the other, so a repaint and a rebuild agree |
| `Mesh.Group.constructor` | main.js:337 | a new group sits at the origin, unrotated and empty |
| `Viewer.SpinAccumulates` | main.js:591-595 | after n frames each enabled axis has turned by `n * rate` and the others not at all |
| `Viewer.Trunc` | main.js:599-600 | truncation toward zero: the integer part of a real, rounded toward 0 |
| `Viewer.RemNonNegative` | main.js:599-600 | JavaScript's `%` of a non-negative hue by 360 lies in `[0, 360)` |
| `Viewer.RemNegative` | main.js:599-600 | JavaScript's `%` of a negative value by 360 lies in `(-360, 0]`, unlike a Euclidean remainder |
| `Viewer.RemShift` | main.js:599-600 | reducing the running hue modulo 360 before adding the next rate changes nothing |
| `Viewer.HueAfterFrames` | main.js:598-600 | with a non-negative rate, after n frames the hue is `(hue + n*rate) % 360` and stays in `[0, 360)` |
| `Viewer.NegativeRateHue` | main.js:599-600 | a negative rate drives the hue below 0, because `%` keeps the sign of its left operand |
| `Viewer.FullTurn` | main.js:598-600 | 36 frames at rate 10 bring the hue back to where it was |
| `Viewer.Animator.constructor` | main.js:17-378 | the initial state has every control at its initial value and one group at the origin, unrotated, holding the cube drawn in `#00ff00` with no gap |
| `Viewer.Animator.UpdateObjCount` | main.js:321-348 | the pool ends with `count` groups; the surviving groups keep their order and rotation; new groups are fresh; every group sits at its grid position and holds the shape's geometry; for an unknown key only the first group is placed and emptied |
| `Viewer.Animator.RemoveExcess` | main.js:329-333 | popping leaves the first `min(count, n)` groups, in order, and removes the others from the scene |
| `Viewer.Animator.AddMissing` | main.js:335-340 | pushing keeps the old groups as a prefix and adds fresh, empty, unrotated groups at the origin up to `count` |
| `Viewer.Animator.PlaceAll` | main.js:342-347 | each group is moved to `Position(i, count, spacing)` and rebuilt, and keeps its rotation; an unknown key stops the loop after emptying the first group |
| `Viewer.Animator.RebuildAll` | main.js:427-435 | every group's children become the geometry for the given settings, and positions and rotations are kept; an unknown key empties the first group and leaves the others untouched |
| `Viewer.Animator.Recreate` | main.js:489-497 | rebuilding from the current controls restores the invariant and draws every child in the current colour |
| `Viewer.Animator.PaintAll` | main.js:447-453 | every child of every group takes the colour; positions and rotations are kept |
| `Viewer.Animator.Repaint` | main.js:607-614 | after a repaint every group holds the same geometry recoloured, and the invariant holds |
| `Viewer.Animator.SpinAll` | main.js:591-595 | each group's rotation advances by the rate on the enabled axes; nothing else changes |
| `Viewer.Animator.Animate` | main.js:587-618 | a frame spins every group; while cycling, it advances the hue by the JavaScript `%` and paints every child `Hue(hue)`; otherwise the children are untouched |
| `Viewer.Animator.SetSpinRate` | main.js:405-408 | only the spin rate changes |
| `Viewer.Animator.SetSpinX` | main.js:411-413 | only the x spin flag changes |
| `Viewer.Animator.SetSpinY` | main.js:415-417 | only the y spin flag changes |
| `Viewer.Animator.SetSpinZ` | main.js:419-421 | only the z spin flag changes |
| `Viewer.Animator.SetShapeType` | main.js:424-436 | the key is stored and every group is rebuilt as that shape in the current colour, in place; an unknown key empties the first group only |
| `Viewer.Animator.SetColor` | main.js:439-454 | the colour is stored, cycling is switched off and every child is recoloured to the new colour |
| `Viewer.Animator.SetColorCycling` | main.js:457-469 | switching cycling on changes no child; switching it off repaints every child in the current colour |
| `Viewer.Animator.SetCycleRate` | main.js:472-475 | only the cycle rate changes |
| `Viewer.Animator.SetBackgroundColor` | main.js:478-481 | the background colour is stored and set on the scene |
| `Viewer.Animator.SetGap` | main.js:484-498 | the gap is stored and every group rebuilt with it, in place |
| `Viewer.Animator.SetCount` | main.js:501-512 | the pool is resized to the new count; surviving groups keep their order and rotation; new groups are fresh and unrotated; every group is placed on the new grid and drawn in the current colour; for an unknown key only the first group is placed and emptied, and the others keep their position and children |
| `Viewer.Animator.SetSize` | main.js:515-529 | the size is stored and every group rebuilt with it, in place |
| `Viewer.Animator.SetSpacing` | main.js:532-541 | every group is moved to its grid position for the new spacing; children and rotations are kept |
| `Viewer.Animator.OneColor` | main.js:439-469 | while the shape key is known, every child of every group has one colour, and that colour is the chosen one whenever cycling is off |

## Left out

- Floating point: coordinates, sizes, gaps and hues are exact reals. Rounding in the pull-in, the grid offsets and the hue remainder is not modelled.
- `Math.sqrt` is a parameter. Only its sign is assumed, so no claim depends on its numerical value.
- `setHSL(hue / 360, 1, 0.5)` and the parsing of CSS colour strings are not modelled. Colours are the tags `Css(s)` and `Hue(h)`; two different tags may be the same colour on screen.
- three.js objects (`BufferGeometry`, materials, the `Float32Array` of point positions) are reduced to the values they hold: two line ends, the vertex list and a colour. The point size `0.05` and `sizeAttenuation` are not modelled.
- The camera, the renderer, `requestAnimationFrame`, the resize handler, the capture button (blob, download link, timestamp, counter, `setTimeout`) and the panel toggle do browser I/O only and are left out.
- The label updates (`textContent`, `toFixed`) and reading the DOM controls are left out. `parseInt` and `parseFloat` are not modelled: the handlers take the parsed number, and NaN is not represented.
- The legacy `edges` and `getVertices` aliases (main.js:221-225) are unused by the program and are left out.
- index.html is not part of this model, so the set of keys the shape selector offers is unknown. Unknown keys are therefore modelled as main.js treats them.
- Viewer.Animator.SetCount: takes `count: nat`. A negative count makes the pop loop in `updateObjCount` never end, because the pool's length is never below a negative count.
- Viewer.Animator.UpdateObjCount: takes `count: nat` for the same reason.
- The grid arrangement is not part of the class invariant `Valid()`. Each handler states instead what happens to the positions: kept, or recomputed as `Position(i, count, spacing)`.
- The default arguments of `createObjGeometry` and `updateObjCount` are not modelled: every call in main.js passes all of them.
- Exceptions: the TypeError for an unknown key is modelled as the `ok == false` result and its effects on the pool, not as control flow leaving the handler.
