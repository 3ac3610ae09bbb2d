# Voxel world: grid, terrain fill and instance extraction

This project models the `World` class of a small browser voxel-terrain generator
(script/world.js). The world is a dense grid of `width x height x width` blocks.
X and Z share `width`, and Y uses `height`.

- `generate()` rebuilds the grid with every cell empty and no instance handle.
- It then fills every column `(x, z)` from a noise-derived height, clamped into
  the grid: dirt below the surface, grass on it, empty above it.
- Finally it scans the grid x-outer, y-middle, z-inner. Every non-empty block
  that is not surrounded on all six sides is meant to get the next instance
  handle (0, 1, 2, ...) and one entry in the instance list the renderer draws
  (see Findings: as written, every non-empty block gets one).

Out-of-grid coordinates never fail: lookups give "no block" and writes are ignored.

Modules:

- `Wrappers`: `Option`.
- `Blocks`: the three block types and the colour type.
- `Terrain`: the column height clamp and the column fill, as pure functions.
- `Scan`: grid positions, the scan order and the row-major offset of `data[x][y][z]`.
- `VoxelWorld`: the class `World`.
  - Its grid is two `array3` fields, `ids` and `instanceIds`. They hold the two
    fields of the record at `data[x][y][z]`.
  - Its methods update that grid in place, as the source does.
- `WorldProperties`: lemmas that relate several members.

The source's floating-point noise becomes a parameter `rawHeight(x, z)`. It stands
for the floor of the grid height times the scaled noise. The block registry's
colours become a parameter `colorOf`. The terrain and culling properties are
proved for every such function.

## Model

| member | source | states |
|---|---|---|
| `VoxelWorld.World.constructor` | script/world.js:27-30 | a world of the given size whose grid is not built yet |
| `VoxelWorld.World.Default` | script/world.js:27-30 | with no size given, the world is 64 wide and 32 high |
| `VoxelWorld.World.InitializeTerrain` | script/world.js:40-56 | allocates a fresh grid of exactly `width x height x width` cells; every cell is empty with no instance handle; the size is unchanged |
| `VoxelWorld.World.GetBlock` | script/world.js:131-137 | defined for every integer coordinate; returns a block exactly when `0 <= x < width`, `0 <= y < height` and `0 <= z < width`, and then it is the stored id and handle |
| `VoxelWorld.World.SetBlockId` | script/world.js:146-150 | only the id of the addressed in-grid cell changes; out of the grid nothing changes; handles are untouched |
| `VoxelWorld.World.SetBlockInstanceId` | script/world.js:159-163 | only the handle of the addressed in-grid cell changes; out of the grid nothing changes; ids are untouched |
| `VoxelWorld.World.InBounds` | script/world.js:172-178 | a coordinate is in the grid exactly when `0 <= x < width`, `0 <= y < height` and `0 <= z < width` |
| `WorldProperties.HorizontalAxesShareWidth` | script/world.js:172-178 | x and z are bounded by the same `width`: swapping them keeps a coordinate in or out of the grid |
| `Terrain.ClampHeight` | script/world.js:75-78 | for any raw height the column height lies in `[0, height - 1]`; heights already in range are kept; too-low heights become 0 and too-high ones `height - 1` |
| `Terrain.ColumnBlock` | script/world.js:82-88 | a cell of a column is dirt exactly below the surface, grass exactly at it, and empty exactly above it |
| `Terrain.ColumnGrassCount` | script/world.js:81-89 | a column of `n` cells has one grass block when its surface lies inside it and none otherwise |
| `Terrain.ColumnDirtCount` | script/world.js:81-89 | a column whose surface `h` lies inside it has exactly `h` dirt blocks |
| `Terrain.OneGrassPerColumn` | script/world.js:75-89 | whatever the raw height, the filled column has exactly one grass block on top of as many dirt blocks as its clamped height |
| `VoxelWorld.World.GenerateTerrain` | script/world.js:59-92 | every cell `(x, y, z)` ends up dirt below, grass at and empty above the clamped height of its column; the extra pass at `y == height` changes nothing |
| `WorldProperties.TerrainColumnShape` | script/world.js:75-89 | after the fill, every column of the grid holds one grass block and as many dirt blocks as its clamped height |
| `VoxelWorld.World.NeighbourId` | script/world.js:189-194 | a neighbour lookup sees a non-empty block exactly when the cell is in the grid and holds one; in the grid it is the stored id, outside it is empty |
| `VoxelWorld.World.IsBlockObscured` | script/world.js:181-207 | true exactly when all six axis neighbours are inside the grid and non-empty; false as soon as one is empty or outside |
| `VoxelWorld.World.IsBlockObscuredAsWritten` | script/world.js:188-207 | with the lookups the file actually passes, the result is false for every cell |
| `WorldProperties.AsWrittenMissesBuriedBlock` | script/world.js:189-194 | in a 3 x 3 x 3 world of dirt the middle block is surrounded, yet the test as written does not cull it |
| `WorldProperties.BoundaryBlocksAreExposed` | script/world.js:188-207 | a block on the outer shell of the grid is never obscured |
| `VoxelWorld.World.Visible` | script/world.js:110 | a cell is drawn exactly when it is in the grid, holds a non-empty block, and at least one of its six neighbours is empty or outside the grid |
| `VoxelWorld.World.ExtractCell` | script/world.js:106-116 | one scan step: a non-empty, unobscured cell gets the next handle and is appended; the scanned prefix stays fully numbered |
| `VoxelWorld.World.ExtractRow` | script/world.js:105-117 | the inner scan of row `(x, y)`: afterwards every visible cell of the row is numbered and listed, the count still fits below the next row's offset, and no handle outside the row's visible cells changes |
| `VoxelWorld.World.GenerateMeshes` | script/world.js:95-122 | the instances are exactly the visible cells, in scan order; each visible cell holds its own index in the list as its handle; no other handle changes; the count is at most `width * width * height` |
| `Scan.ScanOrderIsIndexOrder` | script/world.js:103-105 | inside the grid, the x-outer, y-middle, z-inner scan visits cells in increasing row-major offset |
| `WorldProperties.HandlesFollowScanIndex` | script/world.js:103-115 | two visible cells have different handles, and the smaller handle belongs to the cell with the smaller row-major offset |
| `WorldProperties.InstancesFitBuffer` | script/world.js:98-99 | grid cells listed in strict scan order number at most `width * width * height`, the size of the mesh buffer |
| `WorldProperties.SingleBlockWorldDrawsOneInstance` | script/world.js:103-118 | a 1 x 1 x 1 world holding a block draws exactly one instance, with handle 0 |
| `WorldProperties.FlatWorldBuriedDirtIsCulled` | script/world.js:188-207 | in a flat world, dirt strictly between the floor and the surface, away from the side walls, is culled |
| `WorldProperties.FlatWorldSurfaceIsDrawn` | script/world.js:188-207 | in a flat world, every surface block is grass and is drawn |
| `VoxelWorld.World.Generate` | script/world.js:33-37 | after rebuild, fill and extraction, the grid is the terrain fill of `rawHeight`; a cell holds a handle if and only if it is non-empty and not obscured; the instance list is exactly those cells in scan order |

## Left out

- Rendering through three.js is not modelled. This covers the `THREE.Group` base
  class, `clear`/`add`, `InstancedMesh`, the matrices with their `+ 0.5` centring,
  `setColorAt`, and the shared geometry and material. `GenerateMeshes` returns the
  instance list (grid position and colour) and the count in their place.
- `SimplexNoise`, `RNG`, the seed and the floating-point terrain parameters
  (scale, magnitude, offset) are not modelled. They are a foreign library and
  floats. The integer parameter `rawHeight(x, z)` replaces the floor of
  `height * scaledNoise`.
- The `blocks` registry module is not part of this model. It is the datatype
  `BlockType` (`Empty`, `Dirt`, `Grass`) plus the colour parameter `colorOf`.
  The registry's linear search by id has no behaviour of its own. An id missing
  from the registry would make the source fail when reading its colour; that
  cannot happen here, because every stored id is one of the three types.
- script/main.js (renderer, camera, lights, frame loop, resize) and script/ui.js
  (sliders) are not part of this model. The sliders write `width` and `height`
  directly and then call `generate()`. The model sets the size at construction
  and reads the current size in `InitializeTerrain`.
- `GetBlock` returns a copy of the cell, not the shared record object the source
  returns. Callers in world.js only read that record.
- world.js has no check for non-positive sizes, and the model follows the code:
  sizes are `nat`. A world of size 0 works as in the source: the loops do
  nothing, and with `height == 0` the clamp yields 0, whose write falls outside
  the grid.
  Negative sizes are not modelled.
- The accessors and generators require the grid to have been built (`Valid()`).
  In the source, `data` is an empty array until `initializeTerrain` runs.
- Not modelled: a lemma bounding the instance count by the number of non-empty
  blocks. The model proves the bound `width * width * height`, and that every
  instance is a distinct non-empty block.
- Determinism is not stated as a separate lemma. Every operation's result and new
  state are fixed by its inputs.
- `GenerateMeshes` culls with the six-neighbour test, not the test as written
  (see Findings).

## Findings

| source | as written | input that shows it | evidently intended | confidence | as-written member | corrected member |
|---|---|---|---|---|---|---|
| script/world.js:191-192 | the `left` and `right` lookups pass the coordinates `(x, 1, y)` and `(x, -1, y)` instead of `(x + 1, y, z)` and `(x - 1, y, z)`; the second is never inside the grid, so the test never reports a block as hidden and nothing is culled | a 3 x 3 x 3 world filled with dirt: block `(1, 1, 1)` has six solid neighbours but is not culled (`WorldProperties.AsWrittenMissesBuriedBlock`) | the six axis neighbours `x ± 1`, `y ± 1`, `z ± 1`, as the doc comment at script/world.js:181-182 says: a block is hidden when other blocks surround it | high; not executed | `VoxelWorld.World.IsBlockObscuredAsWritten` | `VoxelWorld.World.IsBlockObscured` |
