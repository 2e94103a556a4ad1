/** The pure geometry of the binning kernel: the bin grid over the screen,
    the triangle's bounding box and the corner-containment test that decides
    whether a triangle may cover a bin. */
module Geometry {
  import opened Base

  /** `float2`. */
  datatype Point2 = Point2(x: real, y: real)

  /** A box held in a `float4`: (min x, min y, max x, max y) in the
      components (x, y, z, w). */
  datatype Rect = Rect(minX: real, minY: real, maxX: real, maxY: real)

  // ------------------------------------------------------------------
  // The bin grid

  /** Half-open membership of a pixel in a bin; the right and bottom edges
      are computed in unsigned arithmetic. */
  predicate IsPointInBin(x: u32, y: u32, bin: Bin)
  {
    bin.x <= x && x < Wrap(bin.x + bin.width) && bin.y <= y && y < Wrap(bin.y + bin.height)
  }

  function UMin(a: u32, b: u32): u32
  {
    if a <= b then a else b
  }

  /** Number of bins along an axis: the quotient rounded up. */
  function CeilDiv(a: nat, b: nat): (r: nat)
    requires b > 0
    ensures a <= r * b
    ensures (r - 1) * b < a
  {
    var q := (a + b - 1) / b;
    assert q * b + (a + b - 1) % b == a + b - 1;
    q
  }

  /** Index `i` lies inside a grid of `CeilDiv(a, b)` cells exactly when
      its cell starts before `a`. */
  lemma CeilDivIndex(a: nat, b: nat, i: nat)
    requires b > 0
    ensures i < CeilDiv(a, b) <==> i * b < a
  {
    var r := CeilDiv(a, b);
    if i < r {
      MulMonotone(i, r - 1, b);
    } else {
      MulMonotone(r, i, b);
    }
  }

  /** `bins_count_x` / `bins_count_y` of the kernel. */
  function BinsCount(length: u32, binLength: u32): nat
    requires binLength > 0
  {
    CeilDiv(length, binLength)
  }

  /** The bin at grid position (indexX, indexY), clipped to the screen. */
  function MakeBin(dim: ScreenDimension, indexX: u32, indexY: u32, binWidth: u32, binHeight: u32): Bin
  {
    var x := Wrap(indexX * binWidth);
    var y := Wrap(indexY * binHeight);
    Bin(UMin(Wrap(dim.width - x), binWidth), UMin(Wrap(dim.height - y), binHeight), x, y)
  }

  /** One axis of `MakeBin`: inside the grid the cell starts at `i * cell`,
      is non-empty, never wider than a cell, stays on the screen, and
      reaches the screen edge exactly in the last cell. */
  lemma ClipAxis(length: u32, i: u32, cell: u32)
    requires cell > 0
    requires i < CeilDiv(length, cell)
    ensures var start := Wrap(i * cell);
      var size := UMin(Wrap(length - start), cell);
      start == i * cell && 0 < size <= cell && start + size <= length &&
      (start + size == length <==> i == CeilDiv(length, cell) - 1)
  {
    CeilDivIndex(length, cell, i);
    CeilDivIndex(length, cell, i + 1);
    ClipSpan(length, i * cell, cell);
    assert (i + 1) * cell == i * cell + cell;
  }

  /** A cell starting at an on-screen `offset` and clipped to the screen
      edge is non-empty, at most a cell wide, and ends at the edge exactly
      when a whole cell would reach past it. */
  lemma ClipSpan(length: u32, offset: nat, cell: u32)
    requires cell > 0 && offset < length
    ensures var size := UMin(Wrap(length - Wrap(offset)), cell);
      Wrap(offset) == offset && 0 < size <= cell && offset + size <= length &&
      (offset + size == length <==> length <= offset + cell)
  {
  }

  lemma MakeBinClipped(dim: ScreenDimension, indexX: u32, indexY: u32, binWidth: u32, binHeight: u32)
    requires binWidth > 0 && binHeight > 0
    requires indexX < BinsCount(dim.width, binWidth) && indexY < BinsCount(dim.height, binHeight)
    ensures var bin := MakeBin(dim, indexX, indexY, binWidth, binHeight);
      bin.x == indexX * binWidth && bin.y == indexY * binHeight &&
      0 < bin.width <= binWidth && 0 < bin.height <= binHeight &&
      bin.x + bin.width <= dim.width && bin.y + bin.height <= dim.height &&
      (bin.x + bin.width == dim.width <==> indexX == BinsCount(dim.width, binWidth) - 1) &&
      (bin.y + bin.height == dim.height <==> indexY == BinsCount(dim.height, binHeight) - 1)
  {
    ClipAxis(dim.width, indexX, binWidth);
    ClipAxis(dim.height, indexY, binHeight);
  }

  /** The cell of a grid with cells of size `cell` that holds `p`. */
  lemma CellOf(p: nat, cell: nat, i: nat)
    requires cell > 0
    ensures i * cell <= p < i * cell + cell <==> i == p / cell
  {
    var q := p / cell;
    assert q * cell + p % cell == p;
    if i * cell <= p < i * cell + cell {
      assert (i - q) * cell == p % cell - (p - i * cell);
      SmallMultipleIsZero(i - q, cell);
    }
  }

  /** The bins of the grid tile the screen: an on-screen pixel lies in the
      bin (px / binWidth, py / binHeight), that bin is in the grid, and in
      no other bin of the grid. */
  lemma BinTiling(dim: ScreenDimension, binWidth: u32, binHeight: u32, px: u32, py: u32)
    requires binWidth > 0 && binHeight > 0
    requires px < dim.width && py < dim.height
    ensures px / binWidth < BinsCount(dim.width, binWidth)
    ensures py / binHeight < BinsCount(dim.height, binHeight)
    ensures forall ix: u32, iy: u32 {:trigger MakeBin(dim, ix, iy, binWidth, binHeight)} ::
      ix < BinsCount(dim.width, binWidth) && iy < BinsCount(dim.height, binHeight) ==>
        (IsPointInBin(px, py, MakeBin(dim, ix, iy, binWidth, binHeight)) <==>
         ix == px / binWidth && iy == py / binHeight)
  {
    CellOf(px, binWidth, px / binWidth);
    CellOf(py, binHeight, py / binHeight);
    CeilDivIndex(dim.width, binWidth, px / binWidth);
    CeilDivIndex(dim.height, binHeight, py / binHeight);
    forall ix: u32, iy: u32 | ix < BinsCount(dim.width, binWidth) && iy < BinsCount(dim.height, binHeight)
      ensures IsPointInBin(px, py, MakeBin(dim, ix, iy, binWidth, binHeight)) <==>
        ix == px / binWidth && iy == py / binHeight
    {
      MakeBinClipped(dim, ix, iy, binWidth, binHeight);
      CellOf(px, binWidth, ix);
      CellOf(py, binHeight, iy);
    }
  }

  // ------------------------------------------------------------------
  // Bounding boxes and the corner test

  function Min(a: real, b: real): real
  {
    if a <= b then a else b
  }

  function Max(a: real, b: real): real
  {
    if a >= b then a else b
  }

  function Min3(a: real, b: real, c: real): real
  {
    Min(a, Min(b, c))
  }

  function Max3(a: real, b: real, c: real): real
  {
    Max(a, Max(b, c))
  }

  /** The axis-aligned box of a triangle given by its three x and its three
      y coordinates: each bound is one of the coordinates, and every vertex
      lies between the bounds. */
  function MkTriangleBoundingRect(x: seq<real>, y: seq<real>): (r: Rect)
    requires |x| == 3 && |y| == 3
    ensures forall k :: 0 <= k < 3 ==> r.minX <= x[k] <= r.maxX && r.minY <= y[k] <= r.maxY
    ensures r.minX in x && r.maxX in x && r.minY in y && r.maxY in y
  {
    Rect(Min3(x[0], x[1], x[2]), Min3(y[0], y[1], y[2]), Max3(x[0], x[1], x[2]), Max3(y[0], y[1], y[2]))
  }

  /** Inclusive on all four sides. */
  predicate IsPointInBounds(p: Point2, bounds: Rect)
  {
    bounds.minX <= p.x <= bounds.maxX && bounds.minY <= p.y <= bounds.maxY
  }

  /** Some corner of `rect` lies in `bounds`. */
  predicate IsRectIntersectsBounds(rect: Rect, bounds: Rect)
  {
    IsPointInBounds(Point2(rect.minX, rect.minY), bounds) ||
    IsPointInBounds(Point2(rect.minX, rect.maxY), bounds) ||
    IsPointInBounds(Point2(rect.maxX, rect.minY), bounds) ||
    IsPointInBounds(Point2(rect.maxX, rect.maxY), bounds)
  }

  /** The bin's pixel box re-expressed in NDC. `ndcFromScreen` stands for the
      kernel helper `axis_ndc_from_screen(position, length)`, whose
      definition is not part of this model. */
  function BinBounds(bin: Bin, dim: ScreenDimension, ndcFromScreen: (u32, u32) -> real): Rect
  {
    Rect(ndcFromScreen(bin.x, dim.width), ndcFromScreen(bin.y, dim.height),
         ndcFromScreen(Wrap(bin.x + bin.width), dim.width), ndcFromScreen(Wrap(bin.y + bin.height), dim.height))
  }

  /** The kernel's triangle-versus-bin test: a corner of either box lies in the other. */
  predicate IsTriangleInBin(x: seq<real>, y: seq<real>, bin: Bin, dim: ScreenDimension,
                            ndcFromScreen: (u32, u32) -> real)
    requires |x| == 3 && |y| == 3
  {
    var triangleBounds := MkTriangleBoundingRect(x, y);
    var binBounds := BinBounds(bin, dim, ndcFromScreen);
    IsRectIntersectsBounds(triangleBounds, binBounds) || IsRectIntersectsBounds(binBounds, triangleBounds)
  }

  predicate WellFormed(r: Rect)
  {
    r.minX <= r.maxX && r.minY <= r.maxY
  }

  /** The closed boxes share at least one point. */
  predicate Overlaps(a: Rect, b: Rect)
  {
    a.minX <= b.maxX && b.minX <= a.maxX && a.minY <= b.maxY && b.minY <= a.maxY
  }

  predicate Contains(outer: Rect, inner: Rect)
  {
    outer.minX <= inner.minX && inner.maxX <= outer.maxX &&
    outer.minY <= inner.minY && inner.maxY <= outer.maxY
  }

  /** The corner test never reports boxes that do not overlap; in
      particular boxes separated along either axis are never reported. */
  lemma CornerTestSound(a: Rect, b: Rect)
    requires WellFormed(a) && WellFormed(b)
    ensures IsRectIntersectsBounds(a, b) || IsRectIntersectsBounds(b, a) ==> Overlaps(a, b)
    ensures a.maxX < b.minX || b.maxX < a.minX || a.maxY < b.minY || b.maxY < a.minY ==>
      !IsRectIntersectsBounds(a, b) && !IsRectIntersectsBounds(b, a)
  {
  }

  /** A box lying wholly inside the other is detected in both argument
      orders, which is why the kernel runs the corner test both ways. */
  lemma CornerTestContainment(a: Rect, b: Rect)
    requires WellFormed(a)
    requires Contains(b, a)
    ensures IsRectIntersectsBounds(a, b)
  {
  }

  /** The corner test is not a full overlap test: two boxes crossing like a
      plus sign overlap, yet no corner of either lies in the other. */
  lemma CornerTestMissesCrossing()
    ensures var wide := Rect(0.0, 1.0, 3.0, 2.0);
      var tall := Rect(1.0, 0.0, 2.0, 3.0);
      WellFormed(wide) && WellFormed(tall) && Overlaps(wide, tall) &&
      !IsRectIntersectsBounds(wide, tall) && !IsRectIntersectsBounds(tall, wide)
  {
  }

  /** `axis_ndc_from_screen` never reverses the order of two pixel positions. */
  ghost predicate MonotoneMapping(ndcFromScreen: (u32, u32) -> real)
  {
    forall p: u32, q: u32, length: u32 {:trigger ndcFromScreen(p, length), ndcFromScreen(q, length)} ::
      p <= q ==> ndcFromScreen(p, length) <= ndcFromScreen(q, length)
  }

  /** When the screen-to-NDC mapping is monotone and the bin does not reach
      past 2^32, a triangle reported for a bin has a bounding box that
      overlaps the bin's NDC box, inclusive on both axes. */
  lemma IsTriangleInBinSound(x: seq<real>, y: seq<real>, bin: Bin, dim: ScreenDimension,
                             ndcFromScreen: (u32, u32) -> real)
    requires |x| == 3 && |y| == 3
    requires MonotoneMapping(ndcFromScreen)
    requires bin.x + bin.width < UINT_LIMIT && bin.y + bin.height < UINT_LIMIT
    ensures IsTriangleInBin(x, y, bin, dim, ndcFromScreen) ==>
      Overlaps(MkTriangleBoundingRect(x, y), BinBounds(bin, dim, ndcFromScreen))
  {
    var b := BinBounds(bin, dim, ndcFromScreen);
    assert WellFormed(b) by {
      assert ndcFromScreen(bin.x, dim.width) <= ndcFromScreen(Wrap(bin.x + bin.width), dim.width);
      assert ndcFromScreen(bin.y, dim.height) <= ndcFromScreen(Wrap(bin.y + bin.height), dim.height);
    }
    CornerTestSound(MkTriangleBoundingRect(x, y), b);
  }

  /** A triangle whose box wholly contains the (well-formed) bin box, or
      lies wholly inside it, is reported for the bin. */
  lemma IsTriangleInBinContainment(x: seq<real>, y: seq<real>, bin: Bin, dim: ScreenDimension,
                                   ndcFromScreen: (u32, u32) -> real)
    requires |x| == 3 && |y| == 3
    ensures var t := MkTriangleBoundingRect(x, y);
      var b := BinBounds(bin, dim, ndcFromScreen);
      (WellFormed(b) && Contains(t, b)) || Contains(b, t) ==> IsTriangleInBin(x, y, bin, dim, ndcFromScreen)
  {
    var t := MkTriangleBoundingRect(x, y);
    var b := BinBounds(bin, dim, ndcFromScreen);
    if WellFormed(b) && Contains(t, b) {
      CornerTestContainment(b, t);
    } else if Contains(b, t) {
      CornerTestContainment(t, b);
    }
  }
}
