/** The voxel world of script/world.js: a dense width x height x width grid of
    blocks, the terrain fill, and the extraction of the visible blocks into
    consecutively numbered instances. */
module VoxelWorld {
  import opened Wrappers
  import opened Blocks
  import opened Terrain
  import opened Scan

  /** One cell as `getBlock` hands it out: its block type and, once the block
      has been drawn, its slot in the instance buffer. */
  datatype Block = Block(id: BlockType, instanceId: Option<nat>)

  /** One drawn block: the grid cell it sits in and its colour. */
  datatype Instance = Instance(pos: Pos, color: Color)

  /** The instances are listed strictly in scan order. */
  predicate InScanOrder(instances: seq<Instance>)
  {
    forall n, m :: 0 <= n < m < |instances| ==> ScanBefore(instances[n].pos, instances[m].pos)
  }

  /** The size the world is created with when none is given. */
  const DefaultWidth: nat := 64
  const DefaultHeight: nat := 32

  class World {
    var width: nat
    var height: nat
    /** `ids[x, y, z]` and `instanceIds[x, y, z]` are the two fields of the
        record stored at `data[x][y][z]`. */
    var ids: array3<BlockType>
    var instanceIds: array3<Option<nat>>

    /** The grid has the world's current size (established by InitializeTerrain). */
    ghost predicate Valid()
      reads this
    {
      && ids.Length0 == width && ids.Length1 == height && ids.Length2 == width
      && instanceIds.Length0 == width && instanceIds.Length1 == height && instanceIds.Length2 == width
    }

    /** A world of the given size whose grid is not yet built. */
    constructor (width: nat, height: nat)
      ensures this.width == width && this.height == height
      ensures ids.Length0 == 0 && instanceIds.Length0 == 0
    {
      this.width := width;
      this.height := height;
      ids := new BlockType[0, 0, 0];
      instanceIds := new Option<nat>[0, 0, 0];
    }

    /** A world of the default size, 64 x 32 x 64. */
    constructor Default()
      ensures width == DefaultWidth && height == DefaultHeight
      ensures ids.Length0 == 0 && instanceIds.Length0 == 0
    {
      width := DefaultWidth;
      height := DefaultHeight;
      ids := new BlockType[0, 0, 0];
      instanceIds := new Option<nat>[0, 0, 0];
    }

    /** The cell `(x, y, z)` lies in the grid: x and z below `width`, y below
        `height`. */
    predicate InBounds(x: int, y: int, z: int): (r: bool)
      reads this
      ensures r <==> 0 <= x < width && 0 <= y < height && 0 <= z < width
    {
      InBox(Pos(x, y, z), width, height)
    }

    /** The cell at `(x, y, z)`, or `None` outside the grid: defined for every
        integer coordinate. */
    function GetBlock(x: int, y: int, z: int): (b: Option<Block>)
      reads this, ids, instanceIds
      requires Valid()
      ensures b.Some? <==> InBox(Pos(x, y, z), width, height)
      ensures b.Some? ==> b.value.id == ids[x, y, z] && b.value.instanceId == instanceIds[x, y, z]
    {
      if InBounds(x, y, z) then Some(Block(ids[x, y, z], instanceIds[x, y, z])) else None
    }

    /** The block type a neighbour lookup sees: the stored id, and `Empty` for
        a coordinate outside the grid (the null that `getBlock` returns). */
    function NeighbourId(x: int, y: int, z: int): (b: BlockType)
      reads this, ids
      requires Valid()
      ensures b != Empty <==> Solid(x, y, z)
      ensures InBounds(x, y, z) ==> b == ids[x, y, z]
    {
      if InBounds(x, y, z) then ids[x, y, z] else Empty
    }

    /** A cell that is in the grid and holds a non-empty block. */
    ghost predicate Solid(x: int, y: int, z: int)
      reads this, ids
      requires Valid()
    {
      InBounds(x, y, z) && ids[x, y, z] != Empty
    }

    /** The occlusion test with the six axis neighbours the doc comment of
        isBlockObscured describes: a block is hidden when it is surrounded. */
    function IsBlockObscured(x: int, y: int, z: int): (r: bool)
      reads this, ids
      requires Valid()
      ensures r <==> (&& Solid(x, y + 1, z) && Solid(x, y - 1, z)
                      && Solid(x + 1, y, z) && Solid(x - 1, y, z)
                      && Solid(x, y, z + 1) && Solid(x, y, z - 1))
    {
      var up := NeighbourId(x, y + 1, z);
      var down := NeighbourId(x, y - 1, z);
      var left := NeighbourId(x + 1, y, z);
      var right := NeighbourId(x - 1, y, z);
      var forward := NeighbourId(x, y, z + 1);
      var back := NeighbourId(x, y, z - 1);
      !(up == Empty || down == Empty || left == Empty || right == Empty
        || forward == Empty || back == Empty)
    }

    /** The occlusion test with the coordinates world.js passes for `left` and
        `right`: `(x, 1, y)` and `(x, -1, y)`. The second is never in the grid,
        so no block is ever reported as hidden. */
    function IsBlockObscuredAsWritten(x: int, y: int, z: int): (r: bool)
      reads this, ids
      requires Valid()
      ensures !r
    {
      var up := NeighbourId(x, y + 1, z);
      var down := NeighbourId(x, y - 1, z);
      var left := NeighbourId(x, 1, y);
      var right := NeighbourId(x, -1, y);
      var forward := NeighbourId(x, y, z + 1);
      var back := NeighbourId(x, y, z - 1);
      !(up == Empty || down == Empty || left == Empty || right == Empty
        || forward == Empty || back == Empty)
    }

    /** A cell the extraction draws: a non-empty block with an exposed face,
        that is, with at least one of its six neighbours empty or outside
        the grid. */
    ghost predicate Visible(x: int, y: int, z: int): (r: bool)
      reads this, ids
      requires Valid()
      ensures r <==> (&& InBounds(x, y, z) && ids[x, y, z] != Empty
                      && (|| NeighbourId(x, y + 1, z) == Empty || NeighbourId(x, y - 1, z) == Empty
                          || NeighbourId(x + 1, y, z) == Empty || NeighbourId(x - 1, y, z) == Empty
                          || NeighbourId(x, y, z + 1) == Empty || NeighbourId(x, y, z - 1) == Empty))
    {
      InBounds(x, y, z) && ids[x, y, z] != Empty && !IsBlockObscured(x, y, z)
    }

    /** Every cell holds the block the fill of world.js:81-89 puts there for
        the clamped column height. */
    ghost predicate TerrainFilled(rawHeight: (int, int) -> int)
      reads this, ids
      requires Valid()
    {
      forall x, y, z :: InBounds(x, y, z) ==> ids[x, y, z] == ColumnBlock(y, ClampHeight(rawHeight(x, z), height))
    }

    /** The cells of column `(x, z)`, bottom first. */
    ghost function ColumnAt(x: int, z: int): (c: seq<BlockType>)
      reads this, ids
      requires Valid() && 0 <= x < width && 0 <= z < width
      ensures |c| == height
    {
      var grid := ids;
      seq(height, y requires 0 <= y < grid.Length1 && 0 <= x < grid.Length0 && 0 <= z < grid.Length2 reads grid => grid[x, y, z])
    }

    /** `instances` is exactly the list of visible cells in scan order, each
        with its colour, and each visible cell holds its own position in that
        list as its instance handle. */
    ghost predicate Extracted(instances: seq<Instance>, colorOf: BlockType -> Color)
      reads this, ids, instanceIds
      requires Valid()
    {
      && (forall n :: 0 <= n < |instances| ==> ListedAt(instances, n, colorOf))
      && InScanOrder(instances)
      && (forall x, y, z :: Visible(x, y, z) ==> HandleAt(instances, x, y, z))
    }

    /** Sets the block type at `(x, y, z)`; ignored outside the grid. */
    method SetBlockId(x: int, y: int, z: int, id: BlockType)
      requires Valid()
      modifies ids
      ensures forall i, j, k :: InBounds(i, j, k) ==>
        ids[i, j, k] == if i == x && j == y && k == z then id else old(ids[i, j, k])
    {
      if InBounds(x, y, z) {
        ids[x, y, z] := id;
      }
    }

    /** Sets the instance handle at `(x, y, z)`; ignored outside the grid. */
    method SetBlockInstanceId(x: int, y: int, z: int, instanceId: nat)
      requires Valid()
      modifies instanceIds
      ensures forall i, j, k :: InBounds(i, j, k) ==>
        instanceIds[i, j, k] == if i == x && j == y && k == z then Some(instanceId) else old(instanceIds[i, j, k])
    {
      if InBounds(x, y, z) {
        instanceIds[x, y, z] := Some(instanceId);
      }
    }

    /** Builds a fresh grid of the current size, every cell empty and without
        an instance handle. */
    method InitializeTerrain()
      modifies this
      ensures Valid() && fresh(ids) && fresh(instanceIds)
      ensures width == old(width) && height == old(height)
      ensures forall x, y, z :: InBounds(x, y, z) ==> ids[x, y, z] == Empty && instanceIds[x, y, z] == None
    {
      var w, h := width, height;
      var newIds := new BlockType[w, h, w];
      var newHandles := new Option<nat>[w, h, w];
      var x := 0;
      while x < w
        modifies newIds, newHandles
        invariant 0 <= x <= w
        invariant forall i, j, k :: 0 <= i < x && 0 <= j < h && 0 <= k < w ==>
          newIds[i, j, k] == Empty && newHandles[i, j, k] == None
      {
        var y := 0;
        while y < h
          invariant 0 <= y <= h
          invariant forall i, j, k :: 0 <= j < h && 0 <= k < w && (0 <= i < x || (i == x && 0 <= j < y)) ==>
            newIds[i, j, k] == Empty && newHandles[i, j, k] == None
        {
          var z := 0;
          while z < w
            invariant 0 <= z <= w
            invariant forall i, j, k ::
                && 0 <= j < h && 0 <= k < w
                && (0 <= i < x || (i == x && 0 <= j < y) || (i == x && j == y && 0 <= k < z))
                ==> newIds[i, j, k] == Empty && newHandles[i, j, k] == None
          {
            newIds[x, y, z] := Empty;
            newHandles[x, y, z] := None;
            z := z + 1;
          }
          y := y + 1;
        }
        x := x + 1;
      }
      ids, instanceIds := newIds, newHandles;
    }

    /** Fills every column `(x, z)` up to its clamped height. `rawHeight(x, z)`
        stands for the floor of the grid height times the scaled noise. */
    method GenerateTerrain(rawHeight: (int, int) -> int)
      requires Valid()
      modifies ids
      ensures TerrainFilled(rawHeight)
    {
      var x := 0;
      while x < width
        invariant 0 <= x <= width
        invariant forall i, j, k :: InBounds(i, j, k) && i < x ==>
          ids[i, j, k] == ColumnBlock(j, ClampHeight(rawHeight(i, k), height))
      {
        var z := 0;
        while z < width
          invariant 0 <= z <= width
          invariant forall i, j, k :: InBounds(i, j, k) && (i < x || (i == x && k < z)) ==>
            ids[i, j, k] == ColumnBlock(j, ClampHeight(rawHeight(i, k), height))
        {
          var h := ClampHeight(rawHeight(x, z), height);
          var y := 0;
          // the last pass, y == height, writes outside the grid and is ignored
          while y <= height
            invariant 0 <= y <= height + 1
            invariant forall i, j, k :: InBounds(i, j, k) && (i < x || (i == x && k < z) || (i == x && k == z && j < y)) ==>
              ids[i, j, k] == ColumnBlock(j, ClampHeight(rawHeight(i, k), height))
          {
            if y < h {
              SetBlockId(x, y, z, Dirt);
            } else if y == h {
              SetBlockId(x, y, z, Grass);
            } else {
              SetBlockId(x, y, z, Empty);
            }
            y := y + 1;
          }
          z := z + 1;
        }
        x := x + 1;
      }
    }

    /** Scans the grid x-outer, y-middle, z-inner and gives each visible cell
        the next instance handle; the other cells keep theirs. Returns the
        drawn instances and their count, which fits the buffer of
        `width * width * height` slots the mesh is created with. */
    method GenerateMeshes(colorOf: BlockType -> Color) returns (instances: seq<Instance>, count: nat)
      requires Valid()
      modifies instanceIds
      ensures count == |instances| <= width * width * height
      ensures Extracted(instances, colorOf)
      ensures forall x, y, z {:trigger instanceIds[x, y, z]} :: InBounds(x, y, z) && !Visible(x, y, z) ==>
        instanceIds[x, y, z] == old(instanceIds[x, y, z])
    {
      instances := [];
      count := 0;
      var x := 0;
      while x < width
        invariant 0 <= x <= width
        invariant count == |instances| <= ScanIndex(Pos(x, 0, 0), width, height)
        invariant MeshProgress(Pos(x, 0, 0), instances, colorOf)
        invariant forall i, j, k {:trigger instanceIds[i, j, k]} :: InBounds(i, j, k) && !(Visible(i, j, k) && ScanBefore(Pos(i, j, k), Pos(x, 0, 0))) ==>
          instanceIds[i, j, k] == old(instanceIds[i, j, k])
      {
        var y := 0;
        while y < height
          invariant 0 <= y <= height
          invariant count == |instances| <= ScanIndex(Pos(x, y, 0), width, height)
          invariant MeshProgress(Pos(x, y, 0), instances, colorOf)
          invariant forall i, j, k {:trigger instanceIds[i, j, k]} :: InBounds(i, j, k) && !(Visible(i, j, k) && ScanBefore(Pos(i, j, k), Pos(x, y, 0))) ==>
            instanceIds[i, j, k] == old(instanceIds[i, j, k])
        {
          instances, count := ExtractRow(x, y, colorOf, instances, count);
          y := y + 1;
        }
        SliceCarry(x, width, height);
        ProgressMoves(Pos(x, height, 0), Pos(x + 1, 0, 0), instances, colorOf);
        x := x + 1;
      }
      SliceCarry(x, width, height);
      ProgressMoves(Pos(width, 0, 0), Pos(width, 0, 0), instances, colorOf);
    }

    /** The inner scan of the row `(x, y)`: every cell `(x, y, z)` for z from 0
        to `width - 1` in turn. */
    method ExtractRow(x: int, y: int, colorOf: BlockType -> Color, instances: seq<Instance>, count: nat)
      returns (instances': seq<Instance>, count': nat)
      requires Valid() && 0 <= x < width && 0 <= y < height
      requires count == |instances| <= ScanIndex(Pos(x, y, 0), width, height)
      requires MeshProgress(Pos(x, y, 0), instances, colorOf)
      modifies instanceIds
      ensures count' == |instances'| <= ScanIndex(Pos(x, y + 1, 0), width, height)
      ensures MeshProgress(Pos(x, y + 1, 0), instances', colorOf)
      ensures forall i, j, k {:trigger instanceIds[i, j, k]} :: InBounds(i, j, k) && !(Visible(i, j, k) && i == x && j == y) ==>
        instanceIds[i, j, k] == old(instanceIds[i, j, k])
    {
      instances', count' := instances, count;
      var z := 0;
      while z < width
        invariant 0 <= z <= width
        invariant count' == |instances'| <= ScanIndex(Pos(x, y, z), width, height)
        invariant MeshProgress(Pos(x, y, z), instances', colorOf)
        invariant forall i, j, k {:trigger instanceIds[i, j, k]} :: InBounds(i, j, k) && !(Visible(i, j, k) && i == x && j == y && k < z) ==>
          instanceIds[i, j, k] == old(instanceIds[i, j, k])
      {
        instances', count' := ExtractCell(x, y, z, colorOf, instances', count');
        z := z + 1;
      }
      RowCarry(x, y, width, height);
      ProgressMoves(Pos(x, y, width), Pos(x, y + 1, 0), instances', colorOf);
    }

    /** Moving the scan cursor past cells outside the grid keeps the progress
        made so far. */
    lemma ProgressMoves(cursor: Pos, cursor': Pos, instances: seq<Instance>, colorOf: BlockType -> Color)
      requires Valid() && MeshProgress(cursor, instances, colorOf)
      requires forall i, j, k :: InBounds(i, j, k) ==> (ScanBefore(Pos(i, j, k), cursor) <==> ScanBefore(Pos(i, j, k), cursor'))
      ensures MeshProgress(cursor', instances, colorOf)
    {
    }

    /** One step of the extraction scan at the in-grid cell `(x, y, z)`: a
        non-empty block that is not obscured gets the next handle and joins
        the instance list. */
    method ExtractCell(x: int, y: int, z: int, colorOf: BlockType -> Color, instances: seq<Instance>, count: nat)
      returns (instances': seq<Instance>, count': nat)
      requires Valid() && InBounds(x, y, z)
      requires count == |instances| <= ScanIndex(Pos(x, y, z), width, height)
      requires MeshProgress(Pos(x, y, z), instances, colorOf)
      modifies instanceIds
      ensures count' == |instances'| <= ScanIndex(Pos(x, y, z + 1), width, height)
      ensures MeshProgress(Pos(x, y, z + 1), instances', colorOf)
      ensures forall i, j, k {:trigger instanceIds[i, j, k]} :: InBounds(i, j, k) && !(Visible(i, j, k) && i == x && j == y && k == z) ==>
        instanceIds[i, j, k] == old(instanceIds[i, j, k])
    {
      ghost var cursor, next := Pos(x, y, z), Pos(x, y, z + 1);
      assert ScanIndex(next, width, height) == ScanIndex(cursor, width, height) + 1;
      var blockId := GetBlock(x, y, z).value.id;
      var instanceId := count;
      instances', count' := instances, count;
      if blockId != Empty && !IsBlockObscured(x, y, z) {
        SetBlockInstanceId(x, y, z, instanceId);
        instances' := instances + [Instance(Pos(x, y, z), colorOf(blockId))];
        count' := count + 1;
        forall n | 0 <= n < |instances'|
          ensures ListedAt(instances', n, colorOf) && ScanBefore(instances'[n].pos, next)
        {
          if n < |instances| {
            var p := instances[n].pos;
            assert old(ListedAt(instances, n, colorOf)) && ScanBefore(p, cursor);
            assert instanceIds[p.x, p.y, p.z] == old(instanceIds[p.x, p.y, p.z]);
          }
        }
        forall i, j, k | Visible(i, j, k) && ScanBefore(Pos(i, j, k), next)
          ensures HandleAt(instances', i, j, k)
        {
          if ScanBefore(Pos(i, j, k), cursor) {
            assert old(HandleAt(instances, i, j, k));
          }
        }
      } else {
        forall i, j, k | Visible(i, j, k) && ScanBefore(Pos(i, j, k), next)
          ensures HandleAt(instances', i, j, k)
        {
          assert ScanBefore(Pos(i, j, k), cursor);
        }
      }
    }

    /** The `n`-th instance is a visible cell that holds handle `n`, drawn in
        its block's colour. */
    ghost predicate ListedAt(instances: seq<Instance>, n: int, colorOf: BlockType -> Color)
      reads this, ids, instanceIds
      requires Valid() && 0 <= n < |instances|
    {
      var p := instances[n].pos;
      && Visible(p.x, p.y, p.z)
      && instanceIds[p.x, p.y, p.z] == Some(n)
      && instances[n].color == colorOf(ids[p.x, p.y, p.z])
    }

    /** The cell `(x, y, z)` holds a handle that points back at it. */
    ghost predicate HandleAt(instances: seq<Instance>, x: int, y: int, z: int)
      reads this, instanceIds
      requires Valid() && InBounds(x, y, z)
    {
      && instanceIds[x, y, z].Some?
      && instanceIds[x, y, z].value < |instances|
      && instances[instanceIds[x, y, z].value].pos == Pos(x, y, z)
    }

    /** `Extracted` restricted to the cells the scan has passed before `cursor`. */
    ghost predicate MeshProgress(cursor: Pos, instances: seq<Instance>, colorOf: BlockType -> Color)
      reads this, ids, instanceIds
      requires Valid()
    {
      && (forall n :: 0 <= n < |instances| ==> ListedAt(instances, n, colorOf) && ScanBefore(instances[n].pos, cursor))
      && InScanOrder(instances)
      && (forall x, y, z {:trigger Visible(x, y, z)} :: Visible(x, y, z) && ScanBefore(Pos(x, y, z), cursor) ==> HandleAt(instances, x, y, z))
    }

    /** Rebuilds the grid, fills the terrain and extracts the instances. */
    method Generate(rawHeight: (int, int) -> int, colorOf: BlockType -> Color) returns (instances: seq<Instance>, count: nat)
      modifies this
      ensures Valid() && width == old(width) && height == old(height)
      ensures fresh(ids) && fresh(instanceIds)
      ensures TerrainFilled(rawHeight)
      ensures count == |instances| <= width * width * height
      ensures Extracted(instances, colorOf)
      ensures forall x, y, z :: InBounds(x, y, z) ==> (instanceIds[x, y, z].Some? <==> Visible(x, y, z))
    {
      InitializeTerrain();
      GenerateTerrain(rawHeight);
      instances, count := GenerateMeshes(colorOf);
    }
  }
}
