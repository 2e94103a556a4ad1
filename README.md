# Nraster binning stage, modelled in Dafny

This project models the binning stage of the Nraster tile-based rasterizer.
That stage is the OpenCL kernel `bin_rasterize` together with the helpers it uses.
For every bin of the screen, a thread of the kernel decides which projected triangles may cover the bin.
It writes their indices into the bin's region of a flat queue buffer and raises an overflow flag when a region fills up.

The model has four modules:

- `Base` (`base.dfy`): the records of `base.cl.h` and its helpers.
  - The records are `ScreenDimension`, `Bin` and `BinQueueConfig`.
  - OpenCL `uint` is the subset type `u32`, with explicit wrap-around modulo 2^32 (`Wrap`).
  - It also holds the row-major pixel index and the NDC / screen / centred-screen conversions.
- `Geometry` (`geometry.dfy`): the pure part of `bin_rasterizer.cl.h`.
  - The bin grid: `make_bin`, the bin count, and `is_point_in_bin`.
  - The triangle bounding box, and the corner test `is_triangle_in_bin`.
- `Staging` (`staging.dfy`): `reduce_triangle_buffer`.
  - It makes two strided copies from the flat float view of the triangle buffer into local arrays.
  - Each copy is an imperative loop over an `array<real>`, proved against the function `StridedSlice`.
- `BinQueue` (`bin_queue.dfy`): one thread of `bin_rasterize`, run sequentially.
  - Each thread has a queue region of `queue_size + 1` slots. Slot 0 is the "empty" flag and the following slots hold triangle indices.
  - After at least one batch, while the region is not full, a zero sentinel follows the last index. A full region has no sentinel (bin_rasterizer.cl.h:210), and with no triangles the kernel returns before writing one (line 178).
  - The thread claims batches of 256 triangles at 0, 256, 512, … until the claim reaches the triangle count (line 178 tests `>=`).
  - It stages each batch, runs the bin test on the staged triangles in order and appends the hits.
  - When the region fills, the scan of the batch stops at once (line 206). The thread then leaves at its next claim (line 172).
  - The loops are methods over an `array<nat>`, proved against the function `RunHits`. `RunHits` is the ordered list of every index the run reports.

The per-triangle test is a function value of type `TriangleTest`.
The kernel's test is `BinTest`, which is `is_triangle_in_bin` for the thread's bin.
The queue proofs hold for any test, and the geometry lemmas say what `BinTest` decides.

The overflow flag is raised as soon as the cursor reaches `base + 1 + queue_size`
(bin_rasterizer.cl.h:203-207), that is, when the `queue_size`-th entry is stored,
not when a further hit arrives: `BinQueue.ClaimBatches` states that overflow holds
exactly when the run has at least `queue_size` hits. With `queue_size == 0` the first
check already raises overflow and a first hit is written at `base + 1`, outside the
region (bin_rasterizer.cl.h:197, 203), so the model requires `queueSize >= 1`.

The kernel passes the batch's first triangle index to `reduce_triangle_buffer` as a
float offset, without scaling it by `3 * RENDER_DIMENSION` (bin_rasterizer.cl.h:93, 185).
The model keeps that arithmetic: the data staged for the batch at `start` is read from
float `start` of the buffer. So a batch stages its own triangles only at start 0
(`BinQueue.FirstBatchReported`: there a triangle is listed exactly when the test holds
for its own vertices). A batch at `start > 0` stages the floats from `start`.
When `3n` divides `start`, these are the vertices of triangles `start / (3n) + i`
(`Staging.StagedVertex`). When only `n` divides `start`, they are whole points from
point `start / n` on, grouped in threes across triangle boundaries
(`Staging.StagedPoint`; `BinQueue.FourthBatchStagesShiftedPoints` shows that with
3-float points the batch at 768 groups vertices 1 and 2 of triangle 85 with vertex 0
of triangle 86). Otherwise they are floats from the middle of points.
`BinQueue.SecondBatchStagesOffset` shows that with 3-float points the batch at 256
stages float 256 as its first x coordinate, where triangle 256's is float 2304.
`BinQueue.RunHitsReported` states what the kernel reports in terms of the data it
actually stages.

## Model

| member | source | states |
|---|---|---|
| Base.Wrap | lib/inc/kernels/base.cl.h:96-99 | A value stored in a `uint` is congruent to the exact value modulo 2^32, and equal to it when it fits. |
| Base.IndexFromScreenInRange | lib/inc/kernels/base.cl.h:96-99 | For an on-screen pixel of a screen with at most 2^32 pixels, `index_from_screen` does not wrap: it is `y * width + x` and below `width * height`. |
| Base.IndexFromScreenInjective | lib/inc/kernels/base.cl.h:96-99 | Two on-screen pixels get the same index exactly when they are the same pixel. |
| Base.AxisScreenFromNdcRange | lib/inc/kernels/base.cl.h:101-109 | For NDC in [-1, 1] and a length of at least 1, `axis_screen_from_ndc` lands in [0, length - 1]. |
| Base.AxisScreenFromNdcMonotone | lib/inc/kernels/base.cl.h:101-109 | `axis_screen_from_ndc` is non-decreasing in the NDC coordinate for a fixed length, including a zero length, where `length - 1` wraps. |
| Base.SignedRoundTrip | lib/inc/kernels/base.cl.h:111-132 | `screen_from_signed(signed_from_ndc(p))` equals `screen_from_ndc(p)`. |
| Base.SignedFromNdcRange | lib/inc/kernels/base.cl.h:117-126 | For on-screen NDC, each centred coordinate lies between `-(L / 2)` and `L - 1 - L / 2`, with integer halving. |
| Base.ConversionAxesIndependent | lib/inc/kernels/base.cl.h:111-126 | x is converted with the width only and y with the height only, in both the plain and the centred mapping. |
| Geometry.CeilDiv | lib/inc/kernels/bin_rasterizer.cl.h:132-133 | The bin count along an axis is the least number of bins that covers the axis: `(r - 1) * b < a <= r * b`. |
| Geometry.CeilDivIndex | lib/inc/kernels/bin_rasterizer.cl.h:132-133 | A grid index is inside the bin grid exactly when its cell starts before the screen edge. |
| Geometry.ClipAxis | lib/inc/kernels/bin_rasterizer.cl.h:73-81 | On one axis, inside the grid: the bin starts at `i * bin_size` without wrapping, is non-empty, is at most one bin wide and stays on screen. It reaches the screen edge exactly in the last column or row. |
| Geometry.MakeBinClipped | lib/inc/kernels/bin_rasterizer.cl.h:73-81 | `make_bin` for a grid position: `x = ix * bin_width`, `0 < width <= bin_width`, `x + width <= screen width`, with equality exactly in the last column, and the same for y. |
| Geometry.BinTiling | lib/inc/kernels/bin_rasterizer.cl.h:25-28 | Every on-screen pixel is in exactly one bin of the grid under the half-open `is_point_in_bin`: the bin `(px / bin_width, py / bin_height)`. |
| Geometry.MkTriangleBoundingRect | lib/inc/kernels/bin_rasterizer.cl.h:30-43 | Every vertex lies between the box's bounds on each axis, and each bound is one of the vertex coordinates. |
| Geometry.CornerTestSound | lib/inc/kernels/bin_rasterizer.cl.h:45-58 | For well-formed boxes, the corner test in either direction reports only boxes that overlap (inclusively). Boxes separated on either axis are never reported. |
| Geometry.CornerTestContainment | lib/inc/kernels/bin_rasterizer.cl.h:45-58 | A well-formed box lying wholly inside another has a corner in it, so the corner test reports it. |
| Geometry.CornerTestMissesCrossing | lib/inc/kernels/bin_rasterizer.cl.h:52-58 | Two well-formed boxes crossing like a plus sign overlap, yet neither has a corner inside the other: the corner test is not an overlap test. |
| Geometry.IsTriangleInBinSound | lib/inc/kernels/bin_rasterizer.cl.h:60-71 | With a monotone screen-to-NDC mapping and a bin that does not wrap, a triangle reported for a bin has a bounding box overlapping the bin's NDC box on both axes. |
| Geometry.IsTriangleInBinContainment | lib/inc/kernels/bin_rasterizer.cl.h:60-71 | The triangle is reported when its box contains the bin's well-formed box, or lies wholly inside the bin's box: the test runs the corner test in both directions for this. |
| Staging.CopiesReadDistinctFloats | lib/inc/kernels/base.cl.h:18-24 | With at least three floats per point, the x copy and the y copy never read the same float. |
| Staging.StridedSliceAt | lib/inc/kernels/bin_rasterizer.cl.h:83-99 | Element `k` of a strided copy is `src[from + k * stride]`, and that read is inside the buffer. |
| Staging.StridedCopy | lib/inc/kernels/bin_rasterizer.cl.h:95-98 | The completed copy fills the first `count` slots of the destination with the strided elements and leaves the other slots unchanged. |
| Staging.ReduceTriangleBuffer | lib/inc/kernels/bin_rasterizer.cl.h:83-99 | For every `k < 3 * count`: `result_x[k] = src[offset + k * n]` and `result_y[k] = src[offset + 1 + k * n]`. The rest of both arrays is unchanged. |
| Staging.BatchSize | lib/inc/kernels/bin_rasterizer.cl.h:183 | `batch_actual_size` is between 1 and 256, stays within the triangle count, and is short only for the last batch. |
| Staging.BatchStagingInBounds | lib/inc/kernels/bin_rasterizer.cl.h:117-118 | Staging a claimed batch at its unscaled offset reads only inside the triangle buffer and fits the local arrays of `BATCH_COUNT * RENDER_DIMENSION` floats. |
| Staging.StagedVertex | lib/inc/kernels/bin_rasterizer.cl.h:83-99 | At an offset that is a whole number of triangles, staged element `3i + j` is the x (or y) coordinate of vertex `j` of triangle `offset / (3n) + i`. |
| Staging.StagedPoint | lib/inc/kernels/bin_rasterizer.cl.h:83-99 | At an offset that is a whole number of points, staged element `k` is the x (or y) coordinate of point `offset / n + k`, that is, of vertex `p % 3` of triangle `p / 3`, so the points are grouped in threes regardless of triangle boundaries. |
| BinQueue.QueueSlotInjective | lib/inc/kernels/bin_rasterizer.cl.h:134 | Different (workgroup, bin x, bin y) triples get different queue slots, and every slot is below the number of queues. |
| BinQueue.QueueRegionsDisjoint | lib/inc/kernels/bin_rasterizer.cl.h:134-135 | When the buffer is addressable with 32-bit indices, every region `[base, base + queue_size]` lies in the buffer and the regions of different threads are disjoint. |
| BinQueue.HitsOrdered | lib/inc/kernels/bin_rasterizer.cl.h:188-198 | A batch's stored indices `start + i` are strictly increasing and lie within the scanned range. |
| BinQueue.HitsMember | lib/inc/kernels/bin_rasterizer.cl.h:188-198 | Index `start + i` is stored for a batch exactly when the test on local triangle `i` is positive. |
| BinQueue.HitsPrefix | lib/inc/kernels/bin_rasterizer.cl.h:188-208 | A scan stopped early stores a prefix of what the full scan of the batch stores. |
| BinQueue.BatchTestsAt | lib/inc/kernels/bin_rasterizer.cl.h:190-195 | Outcome `i` is the test on staged elements `3i .. 3i + 2` of both local arrays. |
| BinQueue.RunHitsOrdered | lib/inc/kernels/bin_rasterizer.cl.h:160-213 | Over the whole run, the thread's list is strictly increasing and every index is below `triangle_count`. |
| BinQueue.FirstBatchReported | lib/inc/kernels/bin_rasterizer.cl.h:83-99 | In the batch at 0, a triangle is in the thread's list exactly when the test holds for the x and y coordinates of its own three vertices. |
| BinQueue.SecondBatchStagesOffset | lib/inc/kernels/bin_rasterizer.cl.h:93 | With 3-float points, the batch at 256 stages buffer float 256 as its first x coordinate, while triangle 256's first x coordinate is float 2304: the copy offset is a triangle index, not scaled to floats. |
| BinQueue.FourthBatchStagesShiftedPoints | lib/inc/kernels/bin_rasterizer.cl.h:93 | With 3-float points, the batch at 768 stages as its local triangle 0 the x and y coordinates of vertices 1 and 2 of triangle 85 and vertex 0 of triangle 86. |
| BinQueue.RunHitsReported | lib/inc/kernels/bin_rasterizer.cl.h:160-198 | Each triangle is tested once, in the batch that holds it, and is in the thread's list exactly when that test is positive. |
| BinQueue.Push | lib/inc/kernels/bin_rasterizer.cl.h:197-198 | A hit writes its index at the cursor, advances the cursor and clears the empty flag. The region then records one more entry and no other slot changes. |
| BinQueue.WriteSentinel | lib/inc/kernels/bin_rasterizer.cl.h:210-213 | The zero written after the last entry keeps the recorded entries and changes only the slot at the cursor. |
| BinQueue.ScanBatch | lib/inc/kernels/bin_rasterizer.cl.h:188-208 | After the scan of one staged batch, the region holds the previous entries followed by the batch's hits, cut at `queue_size`. Overflow is raised exactly when the region becomes full. Nothing outside `[base, cursor)` changes. |
| BinQueue.ProcessBatch | lib/inc/kernels/bin_rasterizer.cl.h:183-213 | Staging, scanning and the sentinel together move the batch's hits from the list still to come to the stored list. The sentinel follows them unless the region is full, and on overflow the stored list is the whole run's first `queue_size` hits. |
| BinQueue.ClaimBatches | lib/inc/kernels/bin_rasterizer.cl.h:158-214 | After the loop, overflow holds exactly when the run has at least `queue_size` hits. The region holds the run's list, or its first `queue_size` entries on overflow. The empty flag is 1 exactly when the list is empty. When the region is not full, the slot after the list holds a zero sentinel if there was at least one triangle, and keeps its old value when `triangle_count == 0` (line 178 returns before any write to that slot). No slot outside the region or after the sentinel changes. |
| BinQueue.BinRasterize | lib/inc/kernels/bin_rasterizer.cl.h:105-215 | One thread at local `(x, y)` of workgroup `(gx, gy)` uses `make_bin(x, y)` and the region at `bin_queue_base`, computed from the row-major group id `gy * groupsX + gx`; the region fits any buffer of at least the needed size. When its workgroup claims every batch, it leaves in that region the result `ClaimBatches` states for the `is_triangle_in_bin` test of its bin. |

## Left out

- GPU concurrency is not modelled: the barriers, the `atomic_fetch_add` on `g_batch_index` and the interleaving of threads and workgroups. A single sequential claimer hands out the batches 0, 256, 512, … to the one thread modelled.
- The global `has_overflow` flag written by other threads is left out. In the model, a thread stops only on its own overflow or when the claims pass the last triangle.
- The one-time initialisation by global id 0 is left out: the batch cursor starts at 0 and the overflow flag starts false.
- `async_work_group_strided_copy` and `wait_group_events` are modelled as a completed synchronous copy. The event argument of `reduce_triangle_buffer` is not modelled.
- The `DEBUG(...)` group-count guard, the `DEBUG_*` / `printf` macros and the test kernels are left out. They have no effect on the queues.
- IEEE float arithmetic is idealised as real arithmetic: `axis_screen_from_ndc`, the coordinates and the corner test. The float `ceil` of the bin counts is integer ceiling division.
- Float-to-`uint` conversions that do not fit are undefined behaviour in OpenCL C. The screen and centred coordinates are therefore kept as mathematical integers.
- Base.ScreenFromSigned: `screen_from_signed` (base.cl.h:128-132) adds an `int` to a `uint`, which wraps modulo 2^32. A centred coordinate below `-(length / 2)` therefore wraps to a large `uint` in the kernel, while the model returns a negative integer. The two agree for the centred coordinates of on-screen points (`Base.SignedFromNdcRange`).
- `axis_ndc_from_screen` is not defined in `base.cl.h` or `bin_rasterizer.cl.h`. Its definition is not part of this model, so it is the function parameter `ndcFromScreen`. `Geometry.IsTriangleInBinSound` assumes only that it is monotone.
- The `Triangle` type is not defined in the modelled files. The triangle buffer is its flat float view: 3 points of `RENDER_DIMENSION` floats per triangle.
- BinQueue.ClaimBatches: the batch cursor is an unbounded integer, so a `uint` cursor wrapping around for triangle counts within 256 of 2^32 is not modelled.
- BinQueue.ClaimBatches: requires `queue_size >= 1`. With 0, the code writes outside the region and raises overflow with no hits.
- BinQueue.BinRasterize: requires a queue buffer of fewer than 2^32 slots. Then `bin_queue_base + 1 + queue_size` and the cursor do not wrap around in `uint`.
- BinQueue.BinRasterize: its contract describes the schedule in which this thread's workgroup claims every batch. With several workgroups the shared cursor splits the batches between them, and each workgroup's copy of the queues receives only the batches that workgroup claimed; that split is not modelled.
