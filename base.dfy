/** Records and coordinate helpers shared by the rasterizer kernels:
    the 32-bit unsigned integer of OpenCL C, the screen, bin and
    queue-configuration records, and the conversions between normalised
    device coordinates (NDC), screen pixels and centred ("signed") pixels. */
module Base {

  /** 2^32: OpenCL `uint` arithmetic is taken modulo this value. */
  const UINT_LIMIT: int := 0x1_0000_0000

  /** OpenCL `uint`. */
  type u32 = x: int | 0 <= x < UINT_LIMIT

  /** The value a `uint` variable holds after an assignment of `v`:
      unsigned arithmetic wraps around modulo 2^32. */
  function Wrap(v: int): (r: u32)
    ensures 0 <= v < UINT_LIMIT ==> r == v
    ensures (r - v) % UINT_LIMIT == 0
  {
    v % UINT_LIMIT
  }

  /** Screen size in pixels. */
  datatype ScreenDimension = ScreenDimension(width: u32, height: u32)

  /** A rectangle of screen pixels owned by one bin. */
  datatype Bin = Bin(width: u32, height: u32, x: u32, y: u32)

  /** Host-chosen bin size and per-bin queue capacity. */
  datatype BinQueueConfig = BinQueueConfig(binWidth: u32, binHeight: u32, queueSize: u32)

  /** A pixel position (`uint2` in the kernels). The coordinates are kept as
      mathematical integers: the conversions below produce them by `floor`,
      and the kernels store them in 32-bit variables only when they fit. */
  datatype ScreenPosition = ScreenPosition(x: int, y: int)

  /** A pixel position relative to the screen centre (`int2`). */
  datatype SignedScreenPosition = SignedScreenPosition(x: int, y: int)

  /** A position in normalised device coordinates, nominally in [-1, 1]^2. */
  datatype NdcPosition = NdcPosition(x: real, y: real)

  /** The smallest number of points a vertex may carry; the build refuses
      a smaller `RENDER_DIMENSION`. */
  const MIN_RENDER_DIMENSION: nat := 3

  predicate ValidRenderDimension(n: nat)
  {
    n >= MIN_RENDER_DIMENSION
  }

  /** Row-major linear index of a pixel, in 32-bit unsigned arithmetic. */
  function IndexFromScreen(pos: ScreenPosition, dim: ScreenDimension): u32
  {
    Wrap(pos.y * dim.width + pos.x)
  }

  lemma IndexFromScreenInRange(pos: ScreenPosition, dim: ScreenDimension)
    requires 0 <= pos.x < dim.width && 0 <= pos.y < dim.height
    requires dim.width * dim.height <= UINT_LIMIT
    ensures IndexFromScreen(pos, dim) == pos.y * dim.width + pos.x
    ensures IndexFromScreen(pos, dim) < dim.width * dim.height
  {
    RowMajorBound(pos.x, pos.y, dim.width, dim.height);
  }

  /** Two on-screen pixels share a linear index only if they are the same pixel. */
  lemma IndexFromScreenInjective(p: ScreenPosition, q: ScreenPosition, dim: ScreenDimension)
    requires 0 <= p.x < dim.width && 0 <= p.y < dim.height
    requires 0 <= q.x < dim.width && 0 <= q.y < dim.height
    requires dim.width * dim.height <= UINT_LIMIT
    ensures IndexFromScreen(p, dim) == IndexFromScreen(q, dim) <==> p == q
  {
    IndexFromScreenInRange(p, dim);
    IndexFromScreenInRange(q, dim);
    if IndexFromScreen(p, dim) == IndexFromScreen(q, dim) {
      RowMajorUnique(p.x, p.y, q.x, q.y, dim.width);
    }
  }

  lemma RowMajorBound(x: int, y: int, w: int, h: int)
    requires 0 <= x < w && 0 <= y < h
    ensures y * w + x < w * h
  {
    MulMonotone(y, h - 1, w);
    assert (h - 1) * w == h * w - w;
  }

  lemma RowMajorUnique(x1: int, y1: int, x2: int, y2: int, w: int)
    requires 0 <= x1 < w && 0 <= x2 < w && 0 <= y1 && 0 <= y2
    requires y1 * w + x1 == y2 * w + x2
    ensures x1 == x2 && y1 == y2
  {
    assert (y1 - y2) * w == x2 - x1;
    SmallMultipleIsZero(y1 - y2, w);
  }

  lemma SmallMultipleIsZero(d: int, w: int)
    requires w > 0 && -w < d * w < w
    ensures d == 0
  {
    if d > 0 {
      MulMonotone(1, d, w);
    } else if d < 0 {
      MulMonotone(d, -1, w);
    }
  }

  /** Multiplying by a non-negative factor keeps the order. */
  lemma MulMonotone(a: int, b: int, c: int)
    requires a <= b && 0 <= c
    ensures a * c <= b * c
  {
    assert b * c - a * c == (b - a) * c;
  }

  /** `from_continuous`: the float-to-integer step of the screen mapping. */
  function FromContinuous(continuous: real): int
  {
    continuous.Floor
  }

  /** One axis of the NDC-to-screen mapping over a span of `length` pixels.
      `length - 1` is unsigned, so a zero length wraps to 2^32 - 1. */
  function AxisScreenFromNdc(pos: real, length: u32): int
  {
    FromContinuous((pos + 1.0) * (Wrap(length - 1) as real) / 2.0)
  }

  /** An NDC coordinate in [-1, 1] lands on a pixel of the axis. */
  lemma AxisScreenFromNdcRange(pos: real, length: u32)
    requires -1.0 <= pos <= 1.0
    requires length >= 1
    ensures 0 <= AxisScreenFromNdc(pos, length) <= length - 1
  {
    var span := (length - 1) as real;
    var h := (pos + 1.0) / 2.0;
    assert 0.0 <= h <= 1.0;
    assert (pos + 1.0) * span / 2.0 == h * span;
    RealScaleInUnit(h, span);
  }

  /** Scaling by a factor in [0, 1] keeps a non-negative value between 0 and itself. */
  lemma RealScaleInUnit(h: real, s: real)
    requires 0.0 <= h <= 1.0 && 0.0 <= s
    ensures 0.0 <= h * s <= s
  {
    assert s - h * s == (1.0 - h) * s;
  }

  /** The mapping never reverses the order of two NDC coordinates. */
  lemma AxisScreenFromNdcMonotone(p: real, q: real, length: u32)
    requires p <= q
    ensures AxisScreenFromNdc(p, length) <= AxisScreenFromNdc(q, length)
  {
    var span := Wrap(length - 1) as real;
    assert (p + 1.0) * span <= (q + 1.0) * span by {
      assert (q - p) * span >= 0.0;
    }
  }

  /** `screen_from_ndc`: x uses the width, y the height. */
  function ScreenFromNdc(ndc: NdcPosition, dim: ScreenDimension): ScreenPosition
  {
    ScreenPosition(AxisScreenFromNdc(ndc.x, dim.width), AxisScreenFromNdc(ndc.y, dim.height))
  }

  /** `axis_signed_from_ndc`: the screen coordinate shifted so that the
      centre pixel `length / 2` (integer division) becomes 0. */
  function AxisSignedFromNdc(pos: real, length: u32): int
  {
    AxisScreenFromNdc(pos, length) - length / 2
  }

  function SignedFromNdc(ndc: NdcPosition, dim: ScreenDimension): SignedScreenPosition
  {
    SignedScreenPosition(AxisSignedFromNdc(ndc.x, dim.width), AxisSignedFromNdc(ndc.y, dim.height))
  }

  function ScreenFromSigned(pos: SignedScreenPosition, dim: ScreenDimension): ScreenPosition
  {
    ScreenPosition(pos.x + dim.width / 2, pos.y + dim.height / 2)
  }

  /** Converting to centred coordinates and back gives the plain screen mapping. */
  lemma SignedRoundTrip(ndc: NdcPosition, dim: ScreenDimension)
    ensures ScreenFromSigned(SignedFromNdc(ndc, dim), dim) == ScreenFromNdc(ndc, dim)
  {
  }

  /** On an on-screen NDC position the signed mapping stays within half a
      screen of the centre: from -(L / 2) to L - 1 - L / 2 on each axis. */
  lemma SignedFromNdcRange(ndc: NdcPosition, dim: ScreenDimension)
    requires -1.0 <= ndc.x <= 1.0 && -1.0 <= ndc.y <= 1.0
    requires dim.width >= 1 && dim.height >= 1
    ensures var s := SignedFromNdc(ndc, dim);
      -(dim.width / 2) <= s.x <= dim.width - 1 - dim.width / 2 &&
      -(dim.height / 2) <= s.y <= dim.height - 1 - dim.height / 2
  {
    AxisScreenFromNdcRange(ndc.x, dim.width);
    AxisScreenFromNdcRange(ndc.y, dim.height);
  }

  /** Each axis of both mappings depends only on that axis of the input and
      on the matching side of the screen. */
  lemma ConversionAxesIndependent(a: NdcPosition, b: NdcPosition, da: ScreenDimension, db: ScreenDimension)
    ensures a.x == b.x && da.width == db.width ==>
      ScreenFromNdc(a, da).x == ScreenFromNdc(b, db).x && SignedFromNdc(a, da).x == SignedFromNdc(b, db).x
    ensures a.y == b.y && da.height == db.height ==>
      ScreenFromNdc(a, da).y == ScreenFromNdc(b, db).y && SignedFromNdc(a, da).y == SignedFromNdc(b, db).y
  {
  }
}
