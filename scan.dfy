/** Grid coordinates and the order in which the instance extraction visits
    them: x outermost, then y, then z innermost. */
module Scan {

  datatype Pos = Pos(x: int, y: int, z: int)

  /** `p` is visited strictly before `q` by the x-outer, y-middle, z-inner scan. */
  predicate ScanBefore(p: Pos, q: Pos)
  {
    p.x < q.x || (p.x == q.x && (p.y < q.y || (p.y == q.y && p.z < q.z)))
  }

  /** `p` lies in the grid of `width` x `height` x `width` cells. */
  predicate InBox(p: Pos, width: int, height: int)
  {
    0 <= p.x < width && 0 <= p.y < height && 0 <= p.z < width
  }

  /** The row-major offset of `p` in the nested `data[x][y][z]` layout:
      how many cells the scan visits before it. */
  function ScanIndex(p: Pos, width: int, height: int): int
  {
    (p.x * height + p.y) * width + p.z
  }

  /** Finishing a row of z values brings the scan to the start of the next y. */
  lemma RowCarry(x: int, y: int, width: int, height: int)
    ensures ScanIndex(Pos(x, y, width), width, height) == ScanIndex(Pos(x, y + 1, 0), width, height)
  {
    assert (x * height + y) * width + width == (x * height + y + 1) * width;
  }

  /** Finishing a slice of y values brings the scan to the start of the next x. */
  lemma SliceCarry(x: int, width: int, height: int)
    ensures ScanIndex(Pos(x, height, 0), width, height) == ScanIndex(Pos(x + 1, 0, 0), width, height)
    ensures ScanIndex(Pos(width, 0, 0), width, height) == width * width * height
  {
    assert (x * height + height) * width == ((x + 1) * height) * width;
    assert (width * height) * width == width * width * height;
  }

  /** Every cell's index is below the last one of its slice. */
  lemma IndexBelowSliceEnd(p: Pos, width: int, height: int)
    requires InBox(p, width, height)
    ensures ScanIndex(p, width, height) < (p.x + 1) * height * width
  {
    calc {
      ScanIndex(p, width, height);
      (p.x * height + p.y) * width + p.z;
    < (p.x * height + p.y) * width + width;
      (p.x * height + p.y + 1) * width;
    <= { assert p.y + 1 <= height; MulMono(p.x * height + p.y + 1, p.x * height + height, width); }
      (p.x * height + height) * width;
      (p.x + 1) * height * width;
    }
  }

  /** Every cell of the grid has an offset below the number of cells. */
  lemma IndexBelowGridEnd(p: Pos, width: int, height: int)
    requires InBox(p, width, height)
    ensures 0 <= ScanIndex(p, width, height) < width * width * height
  {
    IndexBelowSliceEnd(p, width, height);
    MulMono(p.x + 1, width, height);
    MulMono((p.x + 1) * height, width * height, width);
    MulMono(0, p.x * height + p.y, width);
    MulMono(0, p.x, height);
  }

  lemma MulMono(a: int, b: int, c: int)
    requires a <= b && 0 <= c
    ensures a * c <= b * c
  {
  }

  /** A cell of an earlier x slice has a smaller offset. */
  lemma SliceOrder(p: Pos, q: Pos, width: int, height: int)
    requires InBox(p, width, height) && InBox(q, width, height) && p.x < q.x
    ensures ScanIndex(p, width, height) < ScanIndex(q, width, height)
  {
    IndexBelowSliceEnd(p, width, height);
    MulMono(p.x + 1, q.x, height);
    MulMono((p.x + 1) * height, q.x * height, width);
    var a := q.x * height;
    assert ScanIndex(q, width, height) == (a + q.y) * width + q.z;
    MulMono(a, a + q.y, width);
  }

  /** Within one x slice, a cell of an earlier y row has a smaller offset. */
  lemma RowOrder(p: Pos, q: Pos, width: int, height: int)
    requires InBox(p, width, height) && InBox(q, width, height) && p.x == q.x && p.y < q.y
    ensures ScanIndex(p, width, height) < ScanIndex(q, width, height)
  {
    var a := p.x * height;
    MulMono(a + p.y + 1, a + q.y, width);
    assert (a + p.y) * width + width == (a + p.y + 1) * width;
  }

  /** Two cells one of which the scan reaches before the other. */
  lemma BeforeMeansSmallerIndex(p: Pos, q: Pos, width: int, height: int)
    requires InBox(p, width, height) && InBox(q, width, height) && ScanBefore(p, q)
    ensures ScanIndex(p, width, height) < ScanIndex(q, width, height)
  {
    if p.x < q.x {
      SliceOrder(p, q, width, height);
    } else if p.y < q.y {
      RowOrder(p, q, width, height);
    }
  }

  /** Within the grid the scan order is the order of row-major offsets, so
      handles handed out in scan order increase with the offset. */
  lemma {:induction false} ScanOrderIsIndexOrder(p: Pos, q: Pos, width: int, height: int)
    requires InBox(p, width, height) && InBox(q, width, height)
    ensures ScanBefore(p, q) <==> ScanIndex(p, width, height) < ScanIndex(q, width, height)
  {
    if ScanBefore(p, q) {
      BeforeMeansSmallerIndex(p, q, width, height);
    } else if ScanBefore(q, p) {
      BeforeMeansSmallerIndex(q, p, width, height);
    } else {
      assert p == q;
    }
  }
}
