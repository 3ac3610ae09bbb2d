/** Properties of a generated world that relate several members of the
    model: the shape of every column, the numbering of the instance handles,
    the culling at the grid's edge and inside a flat world, and the
    occlusion test as world.js writes it. */
module WorldProperties {
  import opened Wrappers
  import opened Blocks
  import opened Terrain
  import opened Scan
  import opened VoxelWorld

  /** After the terrain fill every column holds exactly one grass block, on
      top of as many dirt blocks as its clamped height. */
  lemma TerrainColumnShape(w: World, rawHeight: (int, int) -> int, x: int, z: int)
    requires w.Valid() && w.TerrainFilled(rawHeight)
    requires 0 <= x < w.width && 0 <= z < w.width && w.height > 0
    ensures CountOf(w.ColumnAt(x, z), Grass) == 1
    ensures CountOf(w.ColumnAt(x, z), Dirt) == ClampHeight(rawHeight(x, z), w.height)
  {
    var h := ClampHeight(rawHeight(x, z), w.height);
    forall y | 0 <= y < w.height
      ensures w.ColumnAt(x, z)[y] == Column(h, w.height)[y]
    {
      assert w.InBounds(x, y, z);
    }
    assert w.ColumnAt(x, z) == Column(h, w.height);
    OneGrassPerColumn(rawHeight(x, z), w.height);
  }

  /** Two visible cells never share a handle, and the handles follow the
      row-major order of the grid: a cell that comes earlier in
      `data[x][y][z]` gets the smaller handle. */
  lemma HandlesFollowScanIndex(w: World, instances: seq<Instance>, colorOf: BlockType -> Color, p: Pos, q: Pos)
    requires w.Valid() && w.Extracted(instances, colorOf)
    requires w.Visible(p.x, p.y, p.z) && w.Visible(q.x, q.y, q.z)
    ensures w.instanceIds[p.x, p.y, p.z].Some? && w.instanceIds[q.x, q.y, q.z].Some?
    ensures p != q ==> w.instanceIds[p.x, p.y, p.z] != w.instanceIds[q.x, q.y, q.z]
    ensures w.instanceIds[p.x, p.y, p.z].value < w.instanceIds[q.x, q.y, q.z].value
            <==> ScanIndex(p, w.width, w.height) < ScanIndex(q, w.width, w.height)
  {
    assert w.HandleAt(instances, p.x, p.y, p.z) && w.HandleAt(instances, q.x, q.y, q.z);
    var n, m := w.instanceIds[p.x, p.y, p.z].value, w.instanceIds[q.x, q.y, q.z].value;
    assert InBox(p, w.width, w.height) && InBox(q, w.width, w.height);
    ScanOrderIsIndexOrder(p, q, w.width, w.height);
    ScanOrderIsIndexOrder(q, p, w.width, w.height);
    if n < m {
      assert ScanBefore(instances[n].pos, instances[m].pos);
    } else if m < n {
      assert ScanBefore(instances[m].pos, instances[n].pos);
    }
  }

  /** Listed in strict scan order, instance `n` sits at offset `n` or later. */
  lemma {:induction false} OffsetAtLeastPosition(w: World, instances: seq<Instance>, n: nat)
    requires InScanOrder(instances) && n < |instances|
    requires forall m :: 0 <= m < |instances| ==> InBox(instances[m].pos, w.width, w.height)
    ensures ScanIndex(instances[n].pos, w.width, w.height) >= n
  {
    if n > 0 {
      OffsetAtLeastPosition(w, instances, n - 1);
      BeforeMeansSmallerIndex(instances[n - 1].pos, instances[n].pos, w.width, w.height);
    }
  }

  /** Cells of the grid listed in strict scan order number at most
      `width * width * height`: the bound the instance buffer is created
      with. */
  lemma InstancesFitBuffer(w: World, instances: seq<Instance>)
    requires InScanOrder(instances)
    requires forall m :: 0 <= m < |instances| ==> InBox(instances[m].pos, w.width, w.height)
    ensures |instances| <= w.width * w.width * w.height
  {
    if |instances| > 0 {
      var last := |instances| - 1;
      OffsetAtLeastPosition(w, instances, last);
      IndexBelowGridEnd(instances[last].pos, w.width, w.height);
    }
  }

  /** A block on the outer shell of the grid has a neighbour outside it and
      is therefore never obscured. */
  lemma BoundaryBlocksAreExposed(w: World, x: int, y: int, z: int)
    requires w.Valid() && w.InBounds(x, y, z)
    requires x == 0 || x == w.width - 1 || y == 0 || y == w.height - 1 || z == 0 || z == w.width - 1
    ensures !w.IsBlockObscured(x, y, z)
  {
  }

  /** A world of a single cell holding a block draws exactly one instance. */
  lemma {:induction false} SingleBlockWorldDrawsOneInstance(w: World, instances: seq<Instance>, colorOf: BlockType -> Color)
    requires w.Valid() && w.width == 1 && w.height == 1 && w.ids[0, 0, 0] != Empty
    requires w.Extracted(instances, colorOf)
    ensures |instances| == 1 && instances[0].pos == Pos(0, 0, 0)
    ensures w.instanceIds[0, 0, 0] == Some(0)
  {
    BoundaryBlocksAreExposed(w, 0, 0, 0);
    assert w.Visible(0, 0, 0);
    assert w.HandleAt(instances, 0, 0, 0);
    forall m | 0 <= m < |instances|
      ensures InBox(instances[m].pos, w.width, w.height)
    {
      assert w.ListedAt(instances, m, colorOf);
    }
    InstancesFitBuffer(w, instances);
  }

  /** Both horizontal axes share the width: swapping x and z keeps a
      coordinate in the grid. */
  lemma HorizontalAxesShareWidth(w: World, x: int, y: int, z: int)
    ensures w.InBounds(x, y, z) <==> w.InBounds(z, y, x)
  {
  }

  /** In a flat world every column has its surface at `h`. */
  ghost predicate FlatTerrain(w: World, rawHeight: (int, int) -> int, h: int)
    reads w, w.ids
    requires w.Valid()
  {
    && 0 <= h < w.height
    && w.TerrainFilled(rawHeight)
    && forall x, z :: rawHeight(x, z) == h
  }

  /** In a flat world a dirt block below the surface and away from the side
      walls is surrounded and is culled. */
  lemma FlatWorldBuriedDirtIsCulled(w: World, rawHeight: (int, int) -> int, h: int, x: int, y: int, z: int)
    requires w.Valid() && FlatTerrain(w, rawHeight, h)
    requires 0 < x < w.width - 1 && 0 < z < w.width - 1 && 0 < y < h
    ensures w.ids[x, y, z] == Dirt && w.IsBlockObscured(x, y, z) && !w.Visible(x, y, z)
  {
    assert ClampHeight(rawHeight(x, z), w.height) == h;
    assert w.InBounds(x, y, z) && w.InBounds(x, y + 1, z) && w.InBounds(x, y - 1, z);
    assert ClampHeight(rawHeight(x + 1, z), w.height) == h && w.InBounds(x + 1, y, z);
    assert ClampHeight(rawHeight(x - 1, z), w.height) == h && w.InBounds(x - 1, y, z);
    assert ClampHeight(rawHeight(x, z + 1), w.height) == h && w.InBounds(x, y, z + 1);
    assert ClampHeight(rawHeight(x, z - 1), w.height) == h && w.InBounds(x, y, z - 1);
  }

  /** In a flat world every surface block is grass and is drawn: the cell
      above it is empty or outside the grid. */
  lemma FlatWorldSurfaceIsDrawn(w: World, rawHeight: (int, int) -> int, h: int, x: int, z: int)
    requires w.Valid() && FlatTerrain(w, rawHeight, h)
    requires 0 <= x < w.width && 0 <= z < w.width
    ensures w.ids[x, h, z] == Grass && w.Visible(x, h, z)
  {
    assert ClampHeight(rawHeight(x, z), w.height) == h;
    assert w.InBounds(x, h, z);
    if h + 1 < w.height {
      assert w.InBounds(x, h + 1, z);
    }
  }

  /** The occlusion test as written misses a block buried in the middle of
      a 3 x 3 x 3 world of dirt, which the six-neighbour test culls. */
  lemma AsWrittenMissesBuriedBlock(w: World)
    requires w.Valid() && w.width == 3 && w.height == 3
    requires forall x, y, z :: w.InBounds(x, y, z) ==> w.ids[x, y, z] == Dirt
    ensures w.IsBlockObscured(1, 1, 1)
    ensures !w.IsBlockObscuredAsWritten(1, 1, 1)
  {
    assert w.InBounds(1, 2, 1) && w.InBounds(1, 0, 1) && w.InBounds(2, 1, 1);
    assert w.InBounds(0, 1, 1) && w.InBounds(1, 1, 2) && w.InBounds(1, 1, 0);
  }
}
