/** The per-column part of terrain generation: clamping the raw column
    height into the grid and choosing the block at each height. */
module Terrain {
  import opened Blocks

  /** The column height of world.js:78: the raw height clamped to
      `[0, height - 1]`. When `height` is 0 the clamp yields 0. */
  function ClampHeight(raw: int, height: int): (h: int)
    ensures height > 0 ==> 0 <= h <= height - 1
    ensures height <= 0 ==> h == 0
    ensures 0 <= raw < height ==> h == raw
    ensures raw < 0 ==> h == 0
    ensures 0 < height <= raw ==> h == height - 1
  {
    var lowered := if raw < height - 1 then raw else height - 1;
    if 0 < lowered then lowered else 0
  }

  /** The block written at height `y` of a column whose surface is at `h`:
      dirt below the surface, grass on it, empty above it. */
  function ColumnBlock(y: int, h: int): (b: BlockType)
    ensures b == Dirt <==> y < h
    ensures b == Grass <==> y == h
    ensures b == Empty <==> h < y
  {
    if y < h then Dirt
    else if y == h then Grass
    else Empty
  }

  /** The blocks of a column of `height` cells, bottom first. */
  function Column(h: int, height: nat): (c: seq<BlockType>)
    ensures |c| == height
  {
    seq(height, y requires 0 <= y < height => ColumnBlock(y, h))
  }

  /** How many times `b` occurs in `s`. */
  function CountOf(s: seq<BlockType>, b: BlockType): nat
  {
    if s == [] then 0
    else CountOf(s[..|s| - 1], b) + (if s[|s| - 1] == b then 1 else 0)
  }

  lemma {:induction false} ColumnPrefix(h: int, n: nat)
    ensures Column(h, n + 1)[..n] == Column(h, n)
    ensures Column(h, n + 1)[n] == ColumnBlock(n, h)
  {
    assert forall y :: 0 <= y < n ==> Column(h, n + 1)[..n][y] == Column(h, n)[y];
  }

  /** A column of `n` cells holds one grass block if its surface `h` lies
      inside it, and none otherwise. */
  lemma {:induction false} ColumnGrassCount(h: int, n: nat)
    ensures CountOf(Column(h, n), Grass) == if 0 <= h < n then 1 else 0
  {
    if n > 0 {
      ColumnPrefix(h, n - 1);
      ColumnGrassCount(h, n - 1);
    }
  }

  /** A column of `n` cells holds `h` dirt blocks when its surface lies
      inside it: exactly the cells below the surface. */
  lemma {:induction false} ColumnDirtCount(h: int, n: nat)
    requires 0 <= h < n
    ensures CountOf(Column(h, n), Dirt) == h
  {
    if n - 1 > h {
      ColumnPrefix(h, n - 1);
      ColumnDirtCount(h, n - 1);
    } else {
      ColumnPrefix(h, n - 1);
      DirtBelow(h, h);
    }
  }

  /** Below the surface every cell is dirt. */
  lemma {:induction false} DirtBelow(h: int, n: nat)
    requires n <= h
    ensures CountOf(Column(h, n), Dirt) == n
  {
    if n > 0 {
      ColumnPrefix(h, n - 1);
      DirtBelow(h, n - 1);
    }
  }

  /** Whatever the raw height, a column of a grid with at least one layer
      ends up with exactly one grass block, topping `h` dirt blocks. */
  lemma OneGrassPerColumn(raw: int, height: nat)
    requires height > 0
    ensures CountOf(Column(ClampHeight(raw, height), height), Grass) == 1
    ensures CountOf(Column(ClampHeight(raw, height), height), Dirt) == ClampHeight(raw, height)
  {
    var h := ClampHeight(raw, height);
    ColumnGrassCount(h, height);
    ColumnDirtCount(h, height);
  }
}
