/** The batch stager of the binning kernel: `reduce_triangle_buffer` pulls
    the x and the y coordinate of every vertex of a batch out of the flat
    triangle buffer into two local arrays, by two strided copies.

    The triangle buffer is viewed as a flat sequence of floats: triangle
    `t` holds 3 points of `n` floats each (`n` is `RENDER_DIMENSION`), so
    axis `a` of vertex `j` of triangle `t` sits at `(3 * t + j) * n + a`. */
module Staging {
  import opened Base

  /** Triangles claimed per batch. */
  const BATCH_COUNT: nat := 256

  /** Axis `axis` of vertex `j` of triangle `t` in the flat buffer. */
  function VertexCoord(src: seq<real>, n: nat, t: nat, j: nat, axis: nat): real
    requires (3 * t + j) * n + axis < |src|
  {
    src[(3 * t + j) * n + axis]
  }

  /** Every read of a strided copy of `count` elements starting at `from`
      lies inside `src`. */
  predicate StrideInBounds(src: seq<real>, from: nat, count: nat, stride: nat)
  {
    count == 0 || from + (count - 1) * stride < |src|
  }

  lemma StrideInBoundsShorter(src: seq<real>, from: nat, count: nat, stride: nat, shorter: nat)
    requires StrideInBounds(src, from, count, stride) && shorter <= count
    ensures StrideInBounds(src, from, shorter, stride)
  {
    if shorter > 0 {
      assert (shorter - 1) * stride <= (count - 1) * stride by {
        assert (count - shorter) * stride >= 0;
      }
    }
  }

  /** With points of at least three floats, the x copy (from `offset`) and
      the y copy (from `offset + 1`) never read the same float. */
  lemma CopiesReadDistinctFloats(offset: nat, n: nat, k: nat, m: nat)
    requires ValidRenderDimension(n)
    ensures offset + k * n != offset + 1 + m * n
  {
    if offset + k * n == offset + 1 + m * n {
      assert (k - m) * n == 1;
      SmallMultipleIsZero(k - m, n);
    }
  }

  /** The `count` elements a strided copy reads: element `k` comes from
      `src[from + k * stride]`. */
  function StridedSlice(src: seq<real>, from: nat, count: nat, stride: nat): (r: seq<real>)
    requires StrideInBounds(src, from, count, stride)
    ensures |r| == count
  {
    if count == 0 then []
    else
      StrideInBoundsShorter(src, from, count, stride, count - 1);
      StridedSlice(src, from, count - 1, stride) + [src[from + (count - 1) * stride]]
  }

  lemma {:induction false} StridedSliceAt(src: seq<real>, from: nat, count: nat, stride: nat, k: nat)
    requires StrideInBounds(src, from, count, stride)
    requires k < count
    ensures from + k * stride < |src|
    ensures StridedSlice(src, from, count, stride)[k] == src[from + k * stride]
    decreases count
  {
    StrideInBoundsShorter(src, from, count, stride, count - 1);
    if k < count - 1 {
      StridedSliceAt(src, from, count - 1, stride, k);
    }
  }

  /** `async_work_group_strided_copy(dest, src + from, count, stride)`,
      followed by the wait on its event: the copy has completed. */
  method StridedCopy(dest: array<real>, src: seq<real>, from: nat, count: nat, stride: nat)
    requires count <= dest.Length
    requires StrideInBounds(src, from, count, stride)
    modifies dest
    ensures dest[..count] == StridedSlice(src, from, count, stride)
    ensures dest[count..] == old(dest[count..])
  {
    ghost var slice := StridedSlice(src, from, count, stride);
    var k := 0;
    while k < count
      invariant 0 <= k <= count
      invariant forall m :: 0 <= m < k ==> dest[m] == slice[m]
      invariant dest[count..] == old(dest[count..])
    {
      StridedSliceAt(src, from, count, stride, k);
      dest[k] := src[from + k * stride];
      k := k + 1;
    }
  }

  /** `reduce_triangle_buffer`: `count * 3` x coordinates from `offset` and
      as many y coordinates from `offset + 1`, both with the stride of one
      point. */
  method ReduceTriangleBuffer(triangles: seq<real>, count: nat, offset: nat, n: nat,
                              resultX: array<real>, resultY: array<real>)
    requires ValidRenderDimension(n)
    requires resultX != resultY
    requires count * 3 <= resultX.Length && count * 3 <= resultY.Length
    requires StrideInBounds(triangles, offset + 1, count * 3, n)
    modifies resultX, resultY
    ensures resultX[..count * 3] == StridedSlice(triangles, offset, count * 3, n)
    ensures resultY[..count * 3] == StridedSlice(triangles, offset + 1, count * 3, n)
    ensures resultX[count * 3..] == old(resultX[count * 3..])
    ensures resultY[count * 3..] == old(resultY[count * 3..])
  {
    StridedCopy(resultX, triangles, offset, count * 3, n);
    StridedCopy(resultY, triangles, offset + 1, count * 3, n);
  }

  /** The size of the batch claimed at `start`: `min(BATCH_COUNT, count - start)`. */
  function BatchSize(triangleCount: nat, start: nat): (size: nat)
    requires start < triangleCount
    ensures 0 < size <= BATCH_COUNT && start + size <= triangleCount
    ensures size < BATCH_COUNT ==> start + size == triangleCount
  {
    if BATCH_COUNT <= triangleCount - start then BATCH_COUNT else triangleCount - start
  }

  /** Staging a batch as the kernel does (offset `start`, not scaled to
      floats) reads only inside a buffer of `triangleCount` triangles, and
      fits the local arrays of `BATCH_COUNT * n` floats. */
  lemma BatchStagingInBounds(triangles: seq<real>, triangleCount: nat, start: nat, n: nat)
    requires ValidRenderDimension(n)
    requires |triangles| >= triangleCount * 3 * n
    requires start < triangleCount
    ensures StrideInBounds(triangles, start + 1, BatchSize(triangleCount, start) * 3, n)
    ensures StrideInBounds(triangles, start, BatchSize(triangleCount, start) * 3, n)
    ensures BatchSize(triangleCount, start) * 3 <= BATCH_COUNT * n
  {
    var size := BatchSize(triangleCount, start);
    var last := start + 1 + (size * 3 - 1) * n;
    assert (size * 3 - 1) * n == size * 3 * n - n;
    assert size * 3 * n <= (triangleCount - start) * 3 * n by {
      assert (triangleCount - start - size) * 3 * n >= 0;
    }
    assert (triangleCount - start) * 3 * n == triangleCount * 3 * n - start * 3 * n;
    assert start <= start * 3 * n by {
      assert start * (3 * n - 1) >= 0;
    }
    assert last < |triangles|;
    assert size * 3 <= BATCH_COUNT * n by {
      assert BATCH_COUNT * n >= BATCH_COUNT * 3;
    }
  }

  /** What the copies stage when the offset is a whole number of triangles
      (`3 * n` floats each): element `3 * i + j` is axis 0 (x copy) or
      axis 1 (y copy) of vertex `j` of triangle `offset / (3 * n) + i`.
      The kernel passes the batch's first triangle index as the offset: the
      batch at 0 stages its own triangles; a batch at `start > 0` stages the
      floats from `start`. When `3 * n` divides `start`, these are the
      vertices of triangles `start / (3 * n) + i`. When only `n` divides
      `start`, they are whole points from point `start / n` on, grouped in
      threes across triangle boundaries (`StagedPoint`). Otherwise they are
      floats from the middle of points. */
  lemma StagedVertex(triangles: seq<real>, offset: nat, count: nat, n: nat, i: nat, j: nat)
    requires ValidRenderDimension(n)
    requires offset % (3 * n) == 0
    requires StrideInBounds(triangles, offset + 1, count * 3, n)
    requires i < count && j < 3
    ensures StrideInBounds(triangles, offset, count * 3, n)
    ensures (3 * (offset / (3 * n) + i) + j) * n + 1 < |triangles|
    ensures StridedSlice(triangles, offset, count * 3, n)[3 * i + j]
         == VertexCoord(triangles, n, offset / (3 * n) + i, j, 0)
    ensures StridedSlice(triangles, offset + 1, count * 3, n)[3 * i + j]
         == VertexCoord(triangles, n, offset / (3 * n) + i, j, 1)
  {
    var t0 := offset / (3 * n);
    assert offset == t0 * (3 * n);
    assert (3 * (t0 + i) + j) * n == offset + (3 * i + j) * n by {
      assert (3 * (t0 + i) + j) * n == t0 * (3 * n) + (3 * i + j) * n;
    }
    StridedSliceAt(triangles, offset, count * 3, n, 3 * i + j);
    StridedSliceAt(triangles, offset + 1, count * 3, n, 3 * i + j);
  }

  /** What the copies stage when the offset is a whole number of points
      (`n` floats each): element `k` is axis 0 (x copy) or axis 1 (y copy)
      of point `offset / n + k`, that is, of vertex `p % 3` of triangle
      `p / 3` with `p == offset / n + k`. */
  lemma StagedPoint(triangles: seq<real>, offset: nat, count: nat, n: nat, k: nat)
    requires ValidRenderDimension(n)
    requires offset % n == 0
    requires StrideInBounds(triangles, offset + 1, count, n)
    requires k < count
    ensures StrideInBounds(triangles, offset, count, n)
    ensures (3 * ((offset / n + k) / 3) + (offset / n + k) % 3) * n + 1 < |triangles|
    ensures StridedSlice(triangles, offset, count, n)[k]
         == VertexCoord(triangles, n, (offset / n + k) / 3, (offset / n + k) % 3, 0)
    ensures StridedSlice(triangles, offset + 1, count, n)[k]
         == VertexCoord(triangles, n, (offset / n + k) / 3, (offset / n + k) % 3, 1)
  {
    var p := offset / n + k;
    assert offset == (offset / n) * n;
    assert 3 * (p / 3) + p % 3 == p;
    assert p * n == offset + k * n by {
      assert p * n == (offset / n) * n + k * n;
    }
    StridedSliceAt(triangles, offset, count, n, k);
    StridedSliceAt(triangles, offset + 1, count, n, k);
  }
}
