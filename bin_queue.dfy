/** The per-thread part of the `bin_rasterize` kernel, run sequentially:
    each thread owns one bin and one queue region of `queueSize + 1` slots
    in the output buffer. Slot 0 of the region is the "empty" flag (1 until
    the first hit, then 0); slots 1 .. queueSize receive the indices of the
    triangles reported for the bin, in ascending order, followed by a zero
    sentinel after at least one batch while the region is not full. A region that becomes full
    raises the overflow flag and ends the scan of the batch at once; the
    thread then leaves at its next claim.

    Batches are claimed by a single sequential claimer: starts 0,
    BATCH_COUNT, 2 * BATCH_COUNT, ... until the start reaches the triangle
    count. */
module BinQueue {
  import opened Base
  import opened Geometry
  import opened Staging

  // ------------------------------------------------------------------
  // Queue regions

  /** Row-major position of a workgroup in the dispatch grid. */
  function GroupLinearId(groupX: nat, groupY: nat, groupsX: nat): nat
  {
    groupY * groupsX + groupX
  }

  /** Position of a thread's queue among all queues: the workgroup's block
      of `binsX * binsY` queues, then the bin's row-major position. */
  function QueueSlot(binsX: nat, binsY: nat, group: nat, indexX: nat, indexY: nat): nat
  {
    binsX * binsY * group + binsX * indexY + indexX
  }

  /** `bin_queue_base`, in 32-bit unsigned arithmetic (wrapping the final
      product is the same as wrapping every step of it). */
  function QueueBase(queueSize: u32, binsX: nat, binsY: nat, group: nat, indexX: nat, indexY: nat): u32
  {
    Wrap((queueSize + 1) * QueueSlot(binsX, binsY, group, indexX, indexY))
  }

  /** Slots of different threads are different, and all lie below the
      number of queues the dispatch needs. */
  lemma QueueSlotInjective(binsX: nat, binsY: nat, groups: nat,
                           g1: nat, x1: nat, y1: nat, g2: nat, x2: nat, y2: nat)
    requires g1 < groups && x1 < binsX && y1 < binsY
    requires g2 < groups && x2 < binsX && y2 < binsY
    ensures QueueSlot(binsX, binsY, g1, x1, y1) < binsX * binsY * groups
    ensures QueueSlot(binsX, binsY, g1, x1, y1) == QueueSlot(binsX, binsY, g2, x2, y2) <==>
      g1 == g2 && x1 == x2 && y1 == y2
  {
    var area := binsX * binsY;
    RowMajorBound(x1, y1, binsX, binsY);
    RowMajorBound(binsX * y1 + x1, g1, area, groups);
    assert QueueSlot(binsX, binsY, g1, x1, y1) == g1 * area + (y1 * binsX + x1);
    if QueueSlot(binsX, binsY, g1, x1, y1) == QueueSlot(binsX, binsY, g2, x2, y2) {
      RowMajorBound(x2, y2, binsX, binsY);
      assert QueueSlot(binsX, binsY, g2, x2, y2) == g2 * area + (y2 * binsX + x2);
      RowMajorUnique(y1 * binsX + x1, g1, y2 * binsX + x2, g2, area);
      RowMajorUnique(x1, y1, x2, y2, binsX);
    }
  }

  /** When the output buffer of `(queueSize + 1) * binsX * binsY * groups`
      slots is addressable with 32-bit indices, every thread's region
      `[base, base + queueSize]` lies in the buffer and the regions of two
      different threads are disjoint. */
  lemma QueueRegionsDisjoint(queueSize: u32, binsX: nat, binsY: nat, groups: nat,
                             g1: nat, x1: nat, y1: nat, g2: nat, x2: nat, y2: nat)
    requires g1 < groups && x1 < binsX && y1 < binsY
    requires g2 < groups && x2 < binsX && y2 < binsY
    requires (queueSize + 1) * (binsX * binsY * groups) <= UINT_LIMIT
    ensures QueueBase(queueSize, binsX, binsY, g1, x1, y1) + queueSize
          < (queueSize + 1) * (binsX * binsY * groups)
    ensures (g1, x1, y1) != (g2, x2, y2) ==>
      var b1 := QueueBase(queueSize, binsX, binsY, g1, x1, y1);
      var b2 := QueueBase(queueSize, binsX, binsY, g2, x2, y2);
      b1 + queueSize < b2 || b2 + queueSize < b1
  {
    var total := binsX * binsY * groups;
    var size := queueSize + 1;
    QueueSlotInjective(binsX, binsY, groups, g1, x1, y1, g2, x2, y2);
    QueueSlotInjective(binsX, binsY, groups, g2, x2, y2, g1, x1, y1);
    var s1 := QueueSlot(binsX, binsY, g1, x1, y1);
    var s2 := QueueSlot(binsX, binsY, g2, x2, y2);
    RegionInBuffer(size, s1, total);
    RegionInBuffer(size, s2, total);
    if s1 < s2 {
      RegionsApart(size, s1, s2);
    } else if s2 < s1 {
      RegionsApart(size, s2, s1);
    }
  }

  lemma RegionInBuffer(size: nat, slot: nat, total: nat)
    requires slot < total && size * total <= UINT_LIMIT
    ensures size * slot + size <= size * total
    ensures Wrap(size * slot) == size * slot
  {
    MulMonotone(slot + 1, total, size);
    assert (slot + 1) * size == slot * size + size;
  }

  lemma RegionsApart(size: nat, lo: nat, hi: nat)
    requires lo < hi
    ensures size * lo + size <= size * hi
  {
    MulMonotone(lo + 1, hi, size);
    assert (lo + 1) * size == lo * size + size;
  }

  /** The region at `base` records `stored`: the empty flag says whether
      anything was stored, and slots base + 1 .. hold the stored indices. */
  ghost predicate QueueHolds(q: seq<nat>, base: nat, stored: seq<nat>)
  {
    base + |stored| < |q| &&
    q[base] == (if stored == [] then 1 else 0) &&
    forall k :: 0 <= k < |stored| ==> q[base + 1 + k] == stored[k]
  }

  // ------------------------------------------------------------------
  // Which triangles a thread reports

  predicate StrictlyIncreasing(s: seq<nat>)
  {
    forall i, j :: 0 <= i < j < |s| ==> s[i] < s[j]
  }

  lemma ConcatIncreasing(a: seq<nat>, b: seq<nat>)
    requires StrictlyIncreasing(a) && StrictlyIncreasing(b)
    requires forall i, j :: 0 <= i < |a| && 0 <= j < |b| ==> a[i] < b[j]
    ensures StrictlyIncreasing(a + b)
  {
    var c := a + b;
    forall i, j | 0 <= i < j < |c| ensures c[i] < c[j] {
      if j < |a| {
        assert c[i] == a[i] && c[j] == a[j];
      } else if i >= |a| {
        assert c[i] == b[i - |a|] && c[j] == b[j - |a|];
      } else {
        assert c[i] == a[i] && c[j] == b[j - |a|];
      }
    }
  }

  /** A per-triangle test on the three x and the three y coordinates of a
      triangle. The scan below does not depend on which test it runs; the
      kernel's is `BinTest`. */
  type TriangleTest = (seq<real>, seq<real>) -> bool

  /** `is_triangle_in_bin` for one bin, as a test on coordinate triples. */
  function BinTest(bin: Bin, dim: ScreenDimension, ndcFromScreen: (u32, u32) -> real): TriangleTest
  {
    (x: seq<real>, y: seq<real>) => |x| == 3 && |y| == 3 && IsTriangleInBin(x, y, bin, dim, ndcFromScreen)
  }

  /** The test run on local triangle `i` of a staged batch: its three x and
      three y coordinates are elements 3i .. 3i + 2. */
  predicate LocalHit(stagedX: seq<real>, stagedY: seq<real>, i: nat, test: TriangleTest)
    requires 3 * i + 3 <= |stagedX| && 3 * i + 3 <= |stagedY|
  {
    test(stagedX[3 * i .. 3 * i + 3], stagedY[3 * i .. 3 * i + 3])
  }

  /** The outcome of the test on each of the first `size` triangles of a
      staged batch. */
  function BatchTests(stagedX: seq<real>, stagedY: seq<real>, size: nat, test: TriangleTest): (tests: seq<bool>)
    requires 3 * size <= |stagedX| && 3 * size <= |stagedY|
    ensures |tests| == size
  {
    if size == 0 then []
    else BatchTests(stagedX, stagedY, size - 1, test)
           + [LocalHit(stagedX, stagedY, size - 1, test)]
  }

  /** Outcome `i` is the test on local triangle `i`. */
  lemma {:induction false} BatchTestsAt(stagedX: seq<real>, stagedY: seq<real>, size: nat, test: TriangleTest, i: nat)
    requires 3 * size <= |stagedX| && 3 * size <= |stagedY|
    requires i < size
    ensures BatchTests(stagedX, stagedY, size, test)[i]
         == test(stagedX[3 * i .. 3 * i + 3], stagedY[3 * i .. 3 * i + 3])
    decreases size
  {
    if i < size - 1 {
      BatchTestsAt(stagedX, stagedY, size - 1, test, i);
    }
  }

  /** The outcomes depend only on the first `3 * size` staged values. */
  lemma {:induction false} BatchTestsPrefix(x1: seq<real>, x2: seq<real>, y1: seq<real>, y2: seq<real>,
                                            size: nat, test: TriangleTest)
    requires 3 * size <= |x1| && 3 * size <= |x2| && 3 * size <= |y1| && 3 * size <= |y2|
    requires x1[..3 * size] == x2[..3 * size] && y1[..3 * size] == y2[..3 * size]
    ensures BatchTests(x1, y1, size, test) == BatchTests(x2, y2, size, test)
    decreases size
  {
    if size > 0 {
      var i := size - 1;
      assert x1[..3 * i] == x2[..3 * i] by { assert x1[..3 * i] == x1[..3 * size][..3 * i]; assert x2[..3 * i] == x2[..3 * size][..3 * i]; }
      assert y1[..3 * i] == y2[..3 * i] by { assert y1[..3 * i] == y1[..3 * size][..3 * i]; assert y2[..3 * i] == y2[..3 * size][..3 * i]; }
      BatchTestsPrefix(x1, x2, y1, y2, i, test);
      assert x1[3 * i .. 3 * i + 3] == x1[..3 * size][3 * i .. 3 * i + 3];
      assert x2[3 * i .. 3 * i + 3] == x2[..3 * size][3 * i .. 3 * i + 3];
      assert y1[3 * i .. 3 * i + 3] == y1[..3 * size][3 * i .. 3 * i + 3];
      assert y2[3 * i .. 3 * i + 3] == y2[..3 * size][3 * i .. 3 * i + 3];
    }
  }

  /** The global indices `start + i` of the positive outcomes, in scan order. */
  function Hits(tests: seq<bool>, start: nat): seq<nat>
  {
    if tests == [] then []
    else Hits(tests[..|tests| - 1], start) + (if tests[|tests| - 1] then [start + |tests| - 1] else [])
  }

  /** The hits are listed in ascending order, and each is the index of one
      of the scanned outcomes. */
  lemma {:induction false} HitsOrdered(tests: seq<bool>, start: nat)
    ensures StrictlyIncreasing(Hits(tests, start))
    ensures forall k :: 0 <= k < |Hits(tests, start)| ==> start <= Hits(tests, start)[k] < start + |tests|
    decreases |tests|
  {
    if tests != [] {
      var before := Hits(tests[..|tests| - 1], start);
      var last: seq<nat> := if tests[|tests| - 1] then [start + |tests| - 1] else [];
      HitsOrdered(tests[..|tests| - 1], start);
      ConcatIncreasing(before, last);
      assert Hits(tests, start) == before + last;
    }
  }

  /** Index `start + i` is a hit exactly when outcome `i` is positive. */
  lemma {:induction false} HitsMember(tests: seq<bool>, start: nat, i: nat)
    requires i < |tests|
    ensures start + i in Hits(tests, start) <==> tests[i]
    decreases |tests|
  {
    var init := tests[..|tests| - 1];
    var before := Hits(init, start);
    var last: seq<nat> := if tests[|tests| - 1] then [start + |tests| - 1] else [];
    assert Hits(tests, start) == before + last;
    HitsOrdered(init, start);
    if i < |tests| - 1 {
      HitsMember(init, start, i);
      assert init[i] == tests[i];
      assert start + i !in last;
    } else {
      assert start + i !in before;
    }
  }

  /** Scanning more of a batch only appends hits. */
  lemma {:induction false} HitsPrefix(tests: seq<bool>, start: nat, m: nat)
    requires m <= |tests|
    ensures var prefix := Hits(tests[..m], start);
      |prefix| <= |Hits(tests, start)| && Hits(tests, start)[..|prefix|] == prefix
    decreases |tests|
  {
    if m < |tests| {
      var init := tests[..|tests| - 1];
      assert init[..m] == tests[..m];
      HitsPrefix(init, start, m);
    } else {
      assert tests[..m] == tests;
    }
  }

  /** Extending the scanned part by one outcome appends at most its index. */
  lemma HitsSnoc(tests: seq<bool>, start: nat, i: nat)
    requires i < |tests|
    ensures Hits(tests[..i + 1], start) ==
      Hits(tests[..i], start) + (if tests[i] then [start + i] else [])
  {
    assert tests[..i + 1][..i] == tests[..i];
  }

  /** Well-formed kernel input: `triangleCount` triangles of 3 points of
      `n` floats each. */
  predicate ValidInput(triangles: seq<real>, triangleCount: nat, n: nat)
  {
    ValidRenderDimension(n) && |triangles| >= triangleCount * 3 * n
  }

  /** The x coordinates the kernel stages for the batch claimed at `start`. */
  function StagedX(triangles: seq<real>, triangleCount: nat, n: nat, start: nat): (s: seq<real>)
    requires ValidInput(triangles, triangleCount, n) && start < triangleCount
    ensures |s| == 3 * BatchSize(triangleCount, start)
  {
    BatchStagingInBounds(triangles, triangleCount, start, n);
    StridedSlice(triangles, start, BatchSize(triangleCount, start) * 3, n)
  }

  /** The y coordinates the kernel stages for the batch claimed at `start`. */
  function StagedY(triangles: seq<real>, triangleCount: nat, n: nat, start: nat): (s: seq<real>)
    requires ValidInput(triangles, triangleCount, n) && start < triangleCount
    ensures |s| == 3 * BatchSize(triangleCount, start)
  {
    BatchStagingInBounds(triangles, triangleCount, start, n);
    StridedSlice(triangles, start + 1, BatchSize(triangleCount, start) * 3, n)
  }

  /** The test outcomes for the batch claimed at `start`, on the data the
      kernel stages for it. */
  function BatchOutcomes(triangles: seq<real>, triangleCount: nat, n: nat, start: nat, test: TriangleTest): (tests: seq<bool>)
    requires ValidInput(triangles, triangleCount, n) && start < triangleCount
    ensures |tests| == BatchSize(triangleCount, start)
  {
    BatchTests(StagedX(triangles, triangleCount, n, start), StagedY(triangles, triangleCount, n, start),
               BatchSize(triangleCount, start), test)
  }

  /** Every triangle index the batches claimed from `start` on report for
      the bin, in the order the thread meets them. */
  function RunHits(triangles: seq<real>, triangleCount: nat, n: nat, start: nat, test: TriangleTest): seq<nat>
    requires ValidInput(triangles, triangleCount, n)
    decreases triangleCount - start
  {
    if start >= triangleCount then []
    else
      Hits(BatchOutcomes(triangles, triangleCount, n, start, test), start)
        + RunHits(triangles, triangleCount, n, start + BATCH_COUNT, test)
  }

  /** The thread's list is in ascending order and holds only indices of
      triangles from `start` on. */
  lemma {:induction false} RunHitsOrdered(triangles: seq<real>, triangleCount: nat, n: nat, start: nat,
                                          test: TriangleTest)
    requires ValidInput(triangles, triangleCount, n)
    ensures var hits := RunHits(triangles, triangleCount, n, start, test);
      StrictlyIncreasing(hits) && forall k :: 0 <= k < |hits| ==> start <= hits[k] < triangleCount
    decreases triangleCount - start
  {
    if start < triangleCount {
      var tests := BatchOutcomes(triangles, triangleCount, n, start, test);
      var batch := Hits(tests, start);
      var rest := RunHits(triangles, triangleCount, n, start + BATCH_COUNT, test);
      HitsOrdered(tests, start);
      RunHitsOrdered(triangles, triangleCount, n, start + BATCH_COUNT, test);
      ConcatIncreasing(batch, rest);
      assert RunHits(triangles, triangleCount, n, start, test) == batch + rest;
    }
  }

  /** Whether the kernel reports triangle `t`: the outcome of the test run
      on the data staged for the batch holding `t` (the batch at
      `t / BATCH_COUNT * BATCH_COUNT`), at `t`'s position in that batch. */
  predicate TriangleReported(triangles: seq<real>, triangleCount: nat, n: nat, t: nat, test: TriangleTest)
    requires ValidInput(triangles, triangleCount, n) && t < triangleCount
  {
    var start := t / BATCH_COUNT * BATCH_COUNT;
    BatchOutcomes(triangles, triangleCount, n, start, test)[t - start]
  }

  /** The batch holding `t` is the one claimed at `start`. */
  lemma BatchStartOf(t: nat, start: nat)
    requires start % BATCH_COUNT == 0 && start <= t < start + BATCH_COUNT
    ensures t / BATCH_COUNT * BATCH_COUNT == start
  {
    CellOf(t, BATCH_COUNT, start / BATCH_COUNT);
  }

  /** Every triangle is tested exactly once, in the batch that holds it:
      an index is in the thread's list exactly when that test reports it. */
  lemma {:induction false} RunHitsReported(triangles: seq<real>, triangleCount: nat, n: nat, start: nat,
                                           test: TriangleTest, t: nat)
    requires ValidInput(triangles, triangleCount, n)
    requires start % BATCH_COUNT == 0
    ensures t in RunHits(triangles, triangleCount, n, start, test) <==>
      start <= t < triangleCount && TriangleReported(triangles, triangleCount, n, t, test)
    decreases triangleCount - start
  {
    if start < triangleCount {
      var batch := Hits(BatchOutcomes(triangles, triangleCount, n, start, test), start);
      var rest := RunHits(triangles, triangleCount, n, start + BATCH_COUNT, test);
      assert RunHits(triangles, triangleCount, n, start, test) == batch + rest;
      assert t in batch + rest <==> t in batch || t in rest;
      if start <= t < start + BatchSize(triangleCount, start) {
        ReportedInBatch(triangles, triangleCount, n, start, test, t);
      } else {
        NotInBatch(triangles, triangleCount, n, start, test, t);
        RunHitsReported(triangles, triangleCount, n, start + BATCH_COUNT, test, t);
      }
    }
  }

  /** A triangle of the batch at `start` is listed by that batch exactly
      when its test reports it, and by no later batch. */
  lemma ReportedInBatch(triangles: seq<real>, triangleCount: nat, n: nat, start: nat,
                        test: TriangleTest, t: nat)
    requires ValidInput(triangles, triangleCount, n)
    requires start % BATCH_COUNT == 0 && start < triangleCount
    requires start <= t < start + BatchSize(triangleCount, start)
    ensures t in Hits(BatchOutcomes(triangles, triangleCount, n, start, test), start) <==>
      TriangleReported(triangles, triangleCount, n, t, test)
    ensures t !in RunHits(triangles, triangleCount, n, start + BATCH_COUNT, test)
  {
    BatchStartOf(t, start);
    HitsMember(BatchOutcomes(triangles, triangleCount, n, start, test), start, t - start);
    RunHitsOrdered(triangles, triangleCount, n, start + BATCH_COUNT, test);
  }

  /** A triangle outside the batch at `start` is not listed by it, and lies
      in the triangle range from `start` on exactly when it lies in the
      range from the next batch on. */
  lemma NotInBatch(triangles: seq<real>, triangleCount: nat, n: nat, start: nat,
                   test: TriangleTest, t: nat)
    requires ValidInput(triangles, triangleCount, n)
    requires start < triangleCount
    requires !(start <= t < start + BatchSize(triangleCount, start))
    ensures t !in Hits(BatchOutcomes(triangles, triangleCount, n, start, test), start)
    ensures start <= t < triangleCount <==> start + BATCH_COUNT <= t < triangleCount
  {
    HitsOrdered(BatchOutcomes(triangles, triangleCount, n, start, test), start);
  }

  /** Axis `axis` (0 for x, 1 for y) of the three vertices of triangle `t`,
      read from the triangle buffer itself. */
  function TriangleAxis(triangles: seq<real>, triangleCount: nat, n: nat, t: nat, axis: nat): (r: seq<real>)
    requires ValidInput(triangles, triangleCount, n) && t < triangleCount && axis < 2
    ensures |r| == 3
  {
    TriangleInBuffer(triangles, triangleCount, n, t);
    [VertexCoord(triangles, n, t, 0, axis), VertexCoord(triangles, n, t, 1, axis),
     VertexCoord(triangles, n, t, 2, axis)]
  }

  /** The x and y of every vertex of a triangle below the count lie in the buffer. */
  lemma TriangleInBuffer(triangles: seq<real>, triangleCount: nat, n: nat, t: nat)
    requires ValidInput(triangles, triangleCount, n) && t < triangleCount
    ensures (3 * t + 2) * n + 1 < |triangles|
  {
    MulMonotone(t + 1, triangleCount, 3 * n);
    assert (3 * t + 2) * n + 1 < (t + 1) * (3 * n) by {
      assert (t + 1) * (3 * n) == (3 * t + 2) * n + n;
    }
  }

  /** In the first batch the kernel tests each triangle on its own
      vertices: a triangle below both the count and `BATCH_COUNT` is in the
      thread's list exactly when the test holds for its three vertices. */
  lemma FirstBatchReported(triangles: seq<real>, triangleCount: nat, n: nat, test: TriangleTest, t: nat)
    requires ValidInput(triangles, triangleCount, n)
    requires t < triangleCount && t < BATCH_COUNT
    ensures t in RunHits(triangles, triangleCount, n, 0, test) <==>
      test(TriangleAxis(triangles, triangleCount, n, t, 0), TriangleAxis(triangles, triangleCount, n, t, 1))
  {
    RunHitsReported(triangles, triangleCount, n, 0, test, t);
    assert t / BATCH_COUNT * BATCH_COUNT == 0;
    var x := StagedX(triangles, triangleCount, n, 0);
    var y := StagedY(triangles, triangleCount, n, 0);
    BatchTestsAt(x, y, BatchSize(triangleCount, 0), test, t);
    FirstBatchStaged(triangles, triangleCount, n, t);
  }

  /** The batch at 0 stages the vertices of its own triangles: local
      triangle `t` holds triangle `t`'s x and y coordinates. */
  lemma FirstBatchStaged(triangles: seq<real>, triangleCount: nat, n: nat, t: nat)
    requires ValidInput(triangles, triangleCount, n)
    requires t < triangleCount && t < BATCH_COUNT
    ensures StagedX(triangles, triangleCount, n, 0)[3 * t .. 3 * t + 3] == TriangleAxis(triangles, triangleCount, n, t, 0)
    ensures StagedY(triangles, triangleCount, n, 0)[3 * t .. 3 * t + 3] == TriangleAxis(triangles, triangleCount, n, t, 1)
  {
    var size := BatchSize(triangleCount, 0);
    BatchStagingInBounds(triangles, triangleCount, 0, n);
    var x := StridedSlice(triangles, 0, size * 3, n);
    var y := StridedSlice(triangles, 1, size * 3, n);
    forall j | 0 <= j < 3
      ensures x[3 * t + j] == TriangleAxis(triangles, triangleCount, n, t, 0)[j]
      ensures y[3 * t + j] == TriangleAxis(triangles, triangleCount, n, t, 1)[j]
    {
      StagedVertex(triangles, 0, size, n, t, j);
    }
  }

  /** The unscaled copy offset: with points of 3 floats, the batch at 256
      stages as its first x coordinate float 256 of the buffer, while the
      first x coordinate of triangle 256 is float 2304. */
  lemma SecondBatchStagesOffset(triangles: seq<real>, triangleCount: nat)
    requires ValidInput(triangles, triangleCount, 3) && triangleCount > BATCH_COUNT
    ensures StagedX(triangles, triangleCount, 3, BATCH_COUNT)[0] == triangles[256]
    ensures TriangleAxis(triangles, triangleCount, 3, BATCH_COUNT, 0)[0] == triangles[2304]
  {
    BatchStagingInBounds(triangles, triangleCount, BATCH_COUNT, 3);
    StridedSliceAt(triangles, BATCH_COUNT, BatchSize(triangleCount, BATCH_COUNT) * 3, 3, 0);
  }

  /** With 3-float points the batch at 768 (768 == 3 * 256, not a multiple
      of 9) stages whole points from point 256 on, grouped across triangle
      boundaries: its local triangle 0 is vertices 1 and 2 of triangle 85
      and vertex 0 of triangle 86. */
  lemma FourthBatchStagesShiftedPoints(triangles: seq<real>, triangleCount: nat)
    requires ValidInput(triangles, triangleCount, 3) && triangleCount > 3 * BATCH_COUNT
    ensures StagedX(triangles, triangleCount, 3, 3 * BATCH_COUNT)[..3]
         == [VertexCoord(triangles, 3, 85, 1, 0), VertexCoord(triangles, 3, 85, 2, 0),
             VertexCoord(triangles, 3, 86, 0, 0)]
    ensures StagedY(triangles, triangleCount, 3, 3 * BATCH_COUNT)[..3]
         == [VertexCoord(triangles, 3, 85, 1, 1), VertexCoord(triangles, 3, 85, 2, 1),
             VertexCoord(triangles, 3, 86, 0, 1)]
  {
    var start := 3 * BATCH_COUNT;
    var count := BatchSize(triangleCount, start) * 3;
    BatchStagingInBounds(triangles, triangleCount, start, 3);
    StagedPoint(triangles, start, count, 3, 0);
    StagedPoint(triangles, start, count, 3, 1);
    StagedPoint(triangles, start, count, 3, 2);
  }

  // ------------------------------------------------------------------
  // The kernel loops

  /** Appending a triangle index at the cursor and clearing the empty flag
      records one more entry. */
  lemma QueueHoldsPush(q: seq<nat>, base: nat, stored: seq<nat>, x: nat)
    requires QueueHolds(q, base, stored) && base + 1 + |stored| < |q|
    ensures QueueHolds(q[base + 1 + |stored| := x][base := 0], base, stored + [x])
  {
  }

  /** Writes outside `[base, base + |stored|]` leave the record intact. */
  lemma QueueHoldsFrame(q: seq<nat>, q': seq<nat>, base: nat, stored: seq<nat>)
    requires QueueHolds(q, base, stored) && |q'| == |q|
    requires forall j :: base <= j <= base + |stored| ==> q'[j] == q[j]
    ensures QueueHolds(q', base, stored)
  {
    assert q'[base] == q[base];
    forall k | 0 <= k < |stored| ensures q'[base + 1 + k] == stored[k] {
      assert q'[base + 1 + k] == q[base + 1 + k];
    }
  }

  /** Reporting a triangle: store its index at the cursor, advance the
      cursor, and clear the empty flag. */
  method Push(queues: array<nat>, base: nat, cursor: nat, ghost stored: seq<nat>, index: nat)
    returns (newCursor: nat)
    requires cursor == base + 1 + |stored| && cursor < queues.Length
    requires QueueHolds(queues[..], base, stored)
    modifies queues
    ensures newCursor == cursor + 1
    ensures QueueHolds(queues[..], base, stored + [index])
    ensures forall j :: 0 <= j < queues.Length && j != base && j != cursor ==> queues[j] == old(queues[j])
  {
    ghost var before := queues[..];
    QueueHoldsPush(before, base, stored, index);
    queues[cursor] := index;
    newCursor := cursor + 1;
    queues[base] := 0;
    assert queues[..] == before[cursor := index][base := 0];
  }

  /** The zero written after the last entry of a region that is not full. */
  method WriteSentinel(queues: array<nat>, base: nat, cursor: nat, ghost stored: seq<nat>)
    requires cursor == base + 1 + |stored| && cursor < queues.Length
    requires QueueHolds(queues[..], base, stored)
    modifies queues
    ensures QueueHolds(queues[..], base, stored) && queues[cursor] == 0
    ensures forall j :: 0 <= j < queues.Length && j != cursor ==> queues[j] == old(queues[j])
  {
    QueueHoldsFrame(queues[..], queues[..][cursor := 0], base, stored);
    queues[cursor] := 0;
  }

  /** Scanning outcome `i` appends `start + i` exactly when it is positive. */
  lemma ScanStep(stored: seq<nat>, tests: seq<bool>, start: nat, i: nat)
    requires i < |tests|
    ensures stored + Hits(tests[..i + 1], start) ==
      stored + Hits(tests[..i], start) + (if tests[i] then [start + i] else [])
  {
    HitsSnoc(tests, start, i);
  }

  /** When the scan of outcomes `..i` fills the region, what it stored is
      the first `queueSize` entries of the whole batch's list. */
  lemma ScanOverflow(stored: seq<nat>, tests: seq<bool>, start: nat, i: nat, queueSize: nat)
    requires i < |tests|
    requires |stored + Hits(tests[..i + 1], start)| == queueSize
    ensures |stored + Hits(tests, start)| >= queueSize
    ensures (stored + Hits(tests, start))[..queueSize] == stored + Hits(tests[..i + 1], start)
  {
    HitsPrefix(tests, start, i + 1);
  }

  /** The inner `for` loop over one staged batch: every triangle the test
      reports is appended at the cursor and clears the empty flag; once
      the region is full the overflow flag is raised and the scan stops. */
  method ScanBatch(queues: array<nat>, base: nat, queueSize: nat, cursor: nat, ghost stored: seq<nat>,
                   stagedX: array<real>, stagedY: array<real>, start: nat, size: nat, test: TriangleTest)
    returns (newCursor: nat, overflow: bool)
    requires base + queueSize < queues.Length
    requires cursor == base + 1 + |stored| && |stored| < queueSize
    requires QueueHolds(queues[..], base, stored)
    requires 3 * size <= stagedX.Length && 3 * size <= stagedY.Length
    modifies queues
    ensures var all := stored + Hits(BatchTests(stagedX[..], stagedY[..], size, test), start);
      overflow == (|all| >= queueSize)
    ensures var all := stored + Hits(BatchTests(stagedX[..], stagedY[..], size, test), start);
      var kept := if overflow then all[..queueSize] else all;
      newCursor == base + 1 + |kept| && QueueHolds(queues[..], base, kept)
    ensures forall j :: 0 <= j < queues.Length && (j < base || j >= newCursor) ==> queues[j] == old(queues[j])
  {
    ghost var tests := BatchTests(stagedX[..], stagedY[..], size, test);
    newCursor, overflow := cursor, false;
    var i := 0;
    while i < size
      invariant 0 <= i <= size
      invariant var current := stored + Hits(tests[..i], start);
        newCursor == base + 1 + |current| && |current| < queueSize && QueueHolds(queues[..], base, current)
      invariant forall j :: 0 <= j < queues.Length && (j < base || j >= newCursor) ==> queues[j] == old(queues[j])
    {
      ghost var current := stored + Hits(tests[..i], start);
      var hit := test(stagedX[3 * i .. 3 * i + 3], stagedY[3 * i .. 3 * i + 3]);
      BatchTestsAt(stagedX[..], stagedY[..], size, test, i);
      ScanStep(stored, tests, start, i);
      ghost var next := stored + Hits(tests[..i + 1], start);
      if hit {
        newCursor := Push(queues, base, newCursor, current, start + i);
      }
      assert QueueHolds(queues[..], base, next);
      if newCursor >= queueSize + base + 1 {
        overflow := true;
        ScanOverflow(stored, tests, start, i, queueSize);
        break;
      }
      i := i + 1;
    }
    if !overflow {
      assert tests[..i] == tests;
    }
  }

  /** The staged local arrays give the outcomes of the batch at `start`. */
  lemma StagedOutcomes(triangles: seq<real>, triangleCount: nat, n: nat, start: nat, test: TriangleTest,
                       reducedX: seq<real>, reducedY: seq<real>)
    requires ValidInput(triangles, triangleCount, n) && start < triangleCount
    requires 3 * BatchSize(triangleCount, start) <= |reducedX| && 3 * BatchSize(triangleCount, start) <= |reducedY|
    requires reducedX[..BatchSize(triangleCount, start) * 3] == StagedX(triangles, triangleCount, n, start)
    requires reducedY[..BatchSize(triangleCount, start) * 3] == StagedY(triangles, triangleCount, n, start)
    ensures BatchTests(reducedX, reducedY, BatchSize(triangleCount, start), test)
         == BatchOutcomes(triangles, triangleCount, n, start, test)
  {
    var x := StagedX(triangles, triangleCount, n, start);
    var y := StagedY(triangles, triangleCount, n, start);
    assert x[..3 * BatchSize(triangleCount, start)] == x;
    assert y[..3 * BatchSize(triangleCount, start)] == y;
    BatchTestsPrefix(reducedX, x, reducedY, y, BatchSize(triangleCount, start), test);
  }

  /** Claiming a batch below the triangle count splits what is left of the
      run into that batch's hits and the rest after it. */
  lemma ClaimStep(triangles: seq<real>, triangleCount: nat, n: nat, start: nat, test: TriangleTest,
                  stored: seq<nat>, rest: seq<nat>)
    returns (scanned: seq<nat>, rest': seq<nat>)
    requires ValidInput(triangles, triangleCount, n) && start < triangleCount
    requires rest == RunHits(triangles, triangleCount, n, start, test)
    ensures scanned == stored + Hits(BatchOutcomes(triangles, triangleCount, n, start, test), start)
    ensures rest' == RunHits(triangles, triangleCount, n, start + BATCH_COUNT, test)
    ensures stored + rest == scanned + rest'
  {
    var batch := Hits(BatchOutcomes(triangles, triangleCount, n, start, test), start);
    scanned := stored + batch;
    rest' := RunHits(triangles, triangleCount, n, start + BATCH_COUNT, test);
    assert rest == batch + rest';
    assert stored + (batch + rest') == stored + batch + rest';
  }

  /** Once the claim passes the last triangle nothing is left to find. */
  lemma RunHitsPastEnd(triangles: seq<real>, triangleCount: nat, n: nat, start: nat, test: TriangleTest)
    requires ValidInput(triangles, triangleCount, n) && start >= triangleCount
    ensures RunHits(triangles, triangleCount, n, start, test) == []
  {
  }

  /** A full prefix of the scanned hits is the same prefix of the whole run. */
  lemma PrefixOfRun(scanned: seq<nat>, rest: seq<nat>, queueSize: nat)
    requires |scanned| >= queueSize
    ensures |scanned + rest| >= queueSize && (scanned + rest)[..queueSize] == scanned[..queueSize]
  {
  }

  /** What one thread leaves in the buffer `q`, which held `q0` before it
      ran, when the run reports `hits`: the overflow flag says whether the
      hits fill the region; the region holds the hits, cut at the region's
      size on overflow; when the region is not full, the slot after the hits
      holds a zero sentinel if at least one batch was claimed and keeps its
      old value otherwise; the thread changes no slot
      outside its region, nor any slot after the sentinel. */
  ghost predicate RegionResult(q: seq<nat>, q0: seq<nat>, base: nat, queueSize: nat, hits: seq<nat>,
                               overflow: bool, nonEmpty: bool)
  {
    |q| == |q0| && base + queueSize < |q| &&
    overflow == (|hits| >= queueSize) &&
    QueueHolds(q, base, if overflow then hits[..queueSize] else hits) &&
    (!overflow ==> q[base + 1 + |hits|] == (if nonEmpty then 0 else q0[base + 1 + |hits|])) &&
    (forall j :: 0 <= j < |q| && (j < base || j > base + queueSize) ==> q[j] == q0[j]) &&
    (forall j :: 0 <= j < |q| && base + 1 + |hits| < j ==> q[j] == q0[j])
  }

  /** The state of the outer loop between claims: the region holds
      `stored` up to `cursor`; without overflow, `stored` followed by what
      the run has `rest` to find is the whole run, and a sentinel follows
      `stored` once a batch was `started`; on overflow `stored` is the
      run's first `queueSize` hits; nothing after the cursor has changed. */
  ghost predicate ClaimState(q: seq<nat>, q0: seq<nat>, base: nat, queueSize: nat, cursor: nat,
                             stored: seq<nat>, rest: seq<nat>, hits: seq<nat>, overflow: bool, started: bool)
  {
    |q| == |q0| && base + queueSize < |q| &&
    cursor == base + 1 + |stored| &&
    QueueHolds(q, base, stored) &&
    (!overflow ==> |stored| < queueSize && stored + rest == hits) &&
    (overflow ==> |hits| >= queueSize && stored == hits[..queueSize]) &&
    (!overflow && started ==> q[cursor] == 0) &&
    (forall j :: 0 <= j < |q| && (j < base || j > cursor) ==> q[j] == q0[j]) &&
    ((overflow || !started) && cursor < |q| ==> q[cursor] == q0[cursor])
  }

  /** The loop's exits: an overflow, or a claim past the last triangle
      after which nothing is left to find, give the thread's result. */
  lemma ClaimStateDone(q: seq<nat>, q0: seq<nat>, base: nat, queueSize: nat, cursor: nat,
                       stored: seq<nat>, rest: seq<nat>, hits: seq<nat>, overflow: bool, started: bool, nonEmpty: bool)
    requires ClaimState(q, q0, base, queueSize, cursor, stored, rest, hits, overflow, started)
    requires !overflow ==> rest == [] && (nonEmpty <==> started)
    ensures RegionResult(q, q0, base, queueSize, hits, overflow, nonEmpty)
  {
    if !overflow {
      assert stored == hits;
    }
  }

  /** The body of the outer loop once a batch at `start` is claimed:
      stage it, scan it, and write the zero sentinel after the last entry
      unless the region is full. `rest` is what the run has left to find
      from `start` on; `scanned` is the stored list followed by this
      batch's hits and `rest'` what is left after the batch, `next` being
      the following claim. */
  method ProcessBatch(triangles: seq<real>, triangleCount: nat, n: nat, test: TriangleTest,
                      queues: array<nat>, ghost q0: seq<nat>, base: nat, queueSize: nat, cursor: nat,
                      ghost stored: seq<nat>, ghost rest: seq<nat>, ghost hits: seq<nat>, ghost started: bool,
                      start: nat, next: nat, reducedX: array<real>, reducedY: array<real>)
    returns (newCursor: nat, overflow: bool, ghost kept: seq<nat>, ghost rest': seq<nat>)
    requires ValidInput(triangles, triangleCount, n) && start < triangleCount && next == start + BATCH_COUNT
    requires rest == RunHits(triangles, triangleCount, n, start, test)
    requires ClaimState(queues[..], q0, base, queueSize, cursor, stored, rest, hits, false, started)
    requires reducedX != reducedY && reducedX.Length == BATCH_COUNT * n && reducedY.Length == BATCH_COUNT * n
    modifies queues, reducedX, reducedY
    ensures rest' == RunHits(triangles, triangleCount, n, next, test)
    ensures var scanned := stored + Hits(BatchOutcomes(triangles, triangleCount, n, start, test), start);
      overflow == (|scanned| >= queueSize) &&
      kept == (if overflow then scanned[..queueSize] else scanned)
    ensures newCursor == base + 1 + |kept| && QueueHolds(queues[..], base, kept)
    ensures !overflow ==> queues[newCursor] == 0
    ensures forall j :: 0 <= j < queues.Length && (j < base || j > newCursor) ==> queues[j] == old(queues[j])
    ensures ClaimState(queues[..], q0, base, queueSize, newCursor, kept, rest', hits, overflow, true)
  {
    ghost var scanned;
    scanned, rest' := ClaimStep(triangles, triangleCount, n, start, test, stored, rest);
    var batchSize := BatchSize(triangleCount, start);
    BatchStagingInBounds(triangles, triangleCount, start, n);
    ReduceTriangleBuffer(triangles, batchSize, start, n, reducedX, reducedY);
    StagedOutcomes(triangles, triangleCount, n, start, test, reducedX[..], reducedY[..]);
    newCursor, overflow := ScanBatch(queues, base, queueSize, cursor, stored, reducedX, reducedY,
                                     start, batchSize, test);
    kept := if overflow then scanned[..queueSize] else scanned;
    if overflow {
      PrefixOfRun(scanned, rest', queueSize);
    } else {
      WriteSentinel(queues, base, newCursor, scanned);
    }
  }

  /** The outer loop of one thread, from the empty flag's initialisation
      on: claim a batch, stop on overflow or when the claim passes the last
      triangle, stage the batch, scan it, and write the zero sentinel after
      the last entry unless the region is full. */
  method ClaimBatches(triangles: seq<real>, triangleCount: nat, n: nat, test: TriangleTest,
                      queues: array<nat>, base: nat, queueSize: nat)
    returns (hasOverflow: bool)
    requires ValidInput(triangles, triangleCount, n)
    requires queueSize >= 1 && base + queueSize < queues.Length
    modifies queues
    ensures RegionResult(queues[..], old(queues[..]), base, queueSize,
                         RunHits(triangles, triangleCount, n, 0, test), hasOverflow, triangleCount > 0)
  {
    ghost var hits := RunHits(triangles, triangleCount, n, 0, test);
    ghost var q0 := queues[..];
    var reducedX := new real[BATCH_COUNT * n];
    var reducedY := new real[BATCH_COUNT * n];
    var cursor: nat := base + 1;
    var claim: nat := 0;
    hasOverflow := false;
    queues[base] := 1;
    ghost var stored: seq<nat> := [];
    ghost var rest := hits;

    while true
      invariant claim <= triangleCount + BATCH_COUNT
      invariant claim > 0 ==> triangleCount > 0
      invariant ClaimState(queues[..], q0, base, queueSize, cursor, stored, rest, hits, hasOverflow, claim > 0)
      invariant !hasOverflow ==> rest == RunHits(triangles, triangleCount, n, claim, test)
      decreases triangleCount + BATCH_COUNT - claim
    {
      // the claimer's fetch-and-add on the batch cursor
      var batchStart := claim;
      claim := claim + BATCH_COUNT;

      if hasOverflow {
        ClaimStateDone(queues[..], q0, base, queueSize, cursor, stored, rest, hits, true, batchStart > 0,
                       triangleCount > 0);
        return;
      }
      if batchStart >= triangleCount {
        RunHitsPastEnd(triangles, triangleCount, n, batchStart, test);
        ClaimStateDone(queues[..], q0, base, queueSize, cursor, stored, rest, hits, false, batchStart > 0,
                       triangleCount > 0);
        return;
      }

      cursor, hasOverflow, stored, rest := ProcessBatch(triangles, triangleCount, n, test, queues, q0, base,
                                                        queueSize, cursor, stored, rest, hits, batchStart > 0,
                                                        batchStart, claim, reducedX, reducedY);
    }
  }

  /** One thread of `bin_rasterize`, at local position (indexX, indexY) of
      the workgroup (groupX, groupY) in a dispatch of groupsX by groupsY
      workgroups. Its workgroup claims every batch, one after another: the
      thread owns the bin made for its position and the queue region at
      `bin_queue_base`, and runs `is_triangle_in_bin` for that bin on the
      staged triangles in order, until the region fills. Returns the
      overflow flag. */
  method BinRasterize(triangles: seq<real>, triangleCount: u32, n: nat, dim: ScreenDimension,
                      config: BinQueueConfig, groupsX: nat, groupsY: nat, groupX: nat, groupY: nat,
                      indexX: u32, indexY: u32, ndcFromScreen: (u32, u32) -> real, queues: array<nat>)
    returns (hasOverflow: bool)
    requires ValidInput(triangles, triangleCount, n)
    requires config.binWidth > 0 && config.binHeight > 0 && config.queueSize >= 1
    requires groupX < groupsX && groupY < groupsY
    requires indexX < BinsCount(dim.width, config.binWidth) && indexY < BinsCount(dim.height, config.binHeight)
    requires queues.Length >= (config.queueSize + 1) *
      (BinsCount(dim.width, config.binWidth) * BinsCount(dim.height, config.binHeight) * (groupsX * groupsY))
    requires queues.Length < UINT_LIMIT
    modifies queues
    ensures var binsX, binsY := BinsCount(dim.width, config.binWidth), BinsCount(dim.height, config.binHeight);
      var base := QueueBase(config.queueSize, binsX, binsY, GroupLinearId(groupX, groupY, groupsX), indexX, indexY);
      var test := BinTest(MakeBin(dim, indexX, indexY, config.binWidth, config.binHeight), dim, ndcFromScreen);
      base + config.queueSize < queues.Length &&
      RegionResult(queues[..], old(queues[..]), base, config.queueSize,
                   RunHits(triangles, triangleCount, n, 0, test), hasOverflow, triangleCount > 0)
  {
    var binsX := BinsCount(dim.width, config.binWidth);
    var binsY := BinsCount(dim.height, config.binHeight);
    var group := GroupLinearId(groupX, groupY, groupsX);
    RowMajorBound(groupX, groupY, groupsX, groupsY);
    QueueRegionsDisjoint(config.queueSize, binsX, binsY, groupsX * groupsY,
                         group, indexX, indexY, group, indexX, indexY);
    var base := QueueBase(config.queueSize, binsX, binsY, group, indexX, indexY);
    var bin := MakeBin(dim, indexX, indexY, config.binWidth, config.binHeight);
    hasOverflow := ClaimBatches(triangles, triangleCount, n, BinTest(bin, dim, ndcFromScreen),
                                queues, base, config.queueSize);
  }
}
