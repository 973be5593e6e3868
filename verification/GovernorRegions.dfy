/**
 * Which frames the governor asks to be delivered how, and that the regions it asks for are no larger than they must
 * be.
 */
module GovernorRegions {
  import opened Arithmetic
  import opened Basics
  import opened Governor

  // ---------------------------------------------------------------- the changed blocks

  ghost function ChangedBlocks(a: Signature, b: Signature, threshold: real, n: nat): set<nat> {
    set block: nat | block < n && Changed(a, b, threshold, block)
  }

  lemma {:induction false} CountsChanged(a: Signature, b: Signature, threshold: real, n: nat)
    requires n <= Blocks(b)
    ensures ScanBlocks(a, b, threshold, n).changedBlocks == |ChangedBlocks(a, b, threshold, n)|
  {
    hide Changed, BlockDistance, Blocks;
    if n == 0 {
      assert ChangedBlocks(a, b, threshold, 0) == {};
    } else {
      CountsChanged(a, b, threshold, n - 1);
      var before, all := ChangedBlocks(a, b, threshold, n - 1), ChangedBlocks(a, b, threshold, n);
      assert all == if Changed(a, b, threshold, n - 1) then before + {n - 1} else before;
    }
  }

  /** Some changed block lies in the column `x`, or in the row `y`. */
  ghost predicate ColumnChanged(a: Signature, b: Signature, threshold: real, n: nat, x: int)
    requires b.width > 0
  {
    exists block: nat :: block < n && Changed(a, b, threshold, block) && block % b.width == x
  }

  ghost predicate RowChanged(a: Signature, b: Signature, threshold: real, n: nat, y: int)
    requires b.width > 0
  {
    exists block: nat :: block < n && Changed(a, b, threshold, block) && block / b.width == y
  }

  ghost predicate Tight(a: Signature, b: Signature, threshold: real, n: nat, box: Bounds)
    requires b.width > 0
  {
    && ColumnChanged(a, b, threshold, n, box.minX) && ColumnChanged(a, b, threshold, n, box.maxX)
    && RowChanged(a, b, threshold, n, box.minY) && RowChanged(a, b, threshold, n, box.maxY)
  }

  /** The box is the smallest that holds the changed blocks: one of them touches each side. */
  lemma {:induction false} BoxIsTight(a: Signature, b: Signature, threshold: real, n: nat)
    requires n <= Blocks(b) && b.width > 0
    ensures var s := ScanBlocks(a, b, threshold, n); s.changedBlocks > 0 ==> Tight(a, b, threshold, n, s.bounds)
  {
    hide Changed, BlockDistance, ColumnChanged, RowChanged;
    if n > 0 {
      BoxIsTight(a, b, threshold, n - 1);
      ScanBoxes(a, b, threshold, n - 1);
      RowOfBlock(b, n - 1);
      var box := ScanBlocks(a, b, threshold, n - 1).bounds;
      LineStays(a, b, threshold, n, box.minX, box.minY);
      LineStays(a, b, threshold, n, box.maxX, box.maxY);
      LineOfLast(a, b, threshold, n);
    }
  }

  lemma LineStays(a: Signature, b: Signature, threshold: real, n: nat, x: int, y: int)
    requires n > 0 && b.width > 0
    ensures ColumnChanged(a, b, threshold, n - 1, x) ==> ColumnChanged(a, b, threshold, n, x)
    ensures RowChanged(a, b, threshold, n - 1, y) ==> RowChanged(a, b, threshold, n, y)
  {
  }

  lemma LineOfLast(a: Signature, b: Signature, threshold: real, n: nat)
    requires n > 0 && b.width > 0
    ensures Changed(a, b, threshold, n - 1) ==>
              && ColumnChanged(a, b, threshold, n, (n - 1) % b.width)
              && RowChanged(a, b, threshold, n, (n - 1) / b.width)
  {
  }

  // ---------------------------------------------------------------- the edges of a region

  /** Along one axis, pixel `p` of the frame is the one that holds the centre of the cell. */
  predicate Central(p: int, cell: nat, grid: nat, size: nat) {
    0 <= p < size && p * (2 * grid) <= (2 * cell + 1) * size < (p + 1) * (2 * grid)
  }

  lemma SampledIsCentral(cell: nat, grid: nat, size: nat)
    requires cell < grid && size > 0
    ensures Central(SampledAt(cell, grid, size), cell, grid, size)
  {
    var middle := (2 * cell + 1) * size;
    ScaleOrder(2 * cell + 2, 2 * grid, size);
    assert (2 * cell + 2) * size == middle + size;
    QuotientBelow(middle, 2 * grid, size);
    QuotientAtLeast(0, middle, 2 * grid);
    QuotientBounds(middle, 2 * grid);
  }

  /** Where channel `k` of a pixel of an RGBA raster stands, and channel `k` of a cell of a signature. */
  function PixelIndex(column: int, row: int, width: nat, k: nat): int { (row * width + column) * 4 + k }

  function SampleIndex(x: nat, y: nat, gridWidth: nat, k: nat): nat { (y * gridWidth + x) * 3 + k }

  /** Each sample of a whole raster is one channel of the pixel that holds the centre of its cell. */
  lemma SampleIsCentralPixel(pixels: seq<nat>, width: nat, height: nat, gridWidth: nat, gridHeight: nat, x: nat,
                             y: nat, k: nat)
    requires x < gridWidth && y < gridHeight && k < 3 && width > 0 && height > 0 && |pixels| == height * width * 4
    ensures exists column, row ::
              && Central(column, x, gridWidth, width) && Central(row, y, gridHeight, height)
              && 0 <= PixelIndex(column, row, width, k) < |pixels|
              && SampleAt(pixels, width, height, gridWidth, gridHeight, SampleIndex(x, y, gridWidth, k))
                 == pixels[PixelIndex(column, row, width, k)]
  {
    hide SampledAt, SampleAt, PixelAt, PixelIndex, SampleIndex, Central;
    var column, row := SampledAt(x, gridWidth, width), SampledAt(y, gridHeight, height);
    SampledIsCentral(x, gridWidth, width);
    SampledIsCentral(y, gridHeight, height);
    PixelInside(column, row, x, y, gridWidth, gridHeight, width, height, k);
    SampleIsRead(pixels, width, height, gridWidth, gridHeight, x, y, k);
    assert Central(column, x, gridWidth, width) && Central(row, y, gridHeight, height);
  }

  lemma SampleIsRead(pixels: seq<nat>, width: nat, height: nat, gridWidth: nat, gridHeight: nat, x: nat, y: nat,
                     k: nat)
    requires x < gridWidth && y < gridHeight && k < 3
    ensures var i := PixelIndex(SampledAt(x, gridWidth, width), SampledAt(y, gridHeight, height), width, k);
            0 <= i < |pixels| ==>
              SampleAt(pixels, width, height, gridWidth, gridHeight, SampleIndex(x, y, gridWidth, k)) == pixels[i]
  {
    hide SampledAt, SampleAt;
    CellSamples(pixels, width, height, gridWidth, gridHeight, x, y, k);
  }

  lemma PixelInside(column: int, row: int, x: nat, y: nat, gridWidth: nat, gridHeight: nat, width: nat, height: nat,
                    k: nat)
    requires Central(column, x, gridWidth, width) && Central(row, y, gridHeight, height) && k < 4
    ensures 0 <= PixelIndex(column, row, width, k) < height * width * 4
  {
    ScaleOrder(row + 1, height, width);
    ScaleOrder(0, row, width);
    assert (row + 1) * width == row * width + width;
  }

  /** The pixel the span of some cells starts in, and the first one after it. */
  predicate Edges(first: nat, last: nat, grid: nat, size: nat, lo: nat, hi: nat) {
    && lo * grid <= first * size < (lo + 1) * grid
    && (hi - 1) * grid < (last + 1) * size <= hi * grid
  }

  lemma EdgesAre(first: nat, last: nat, grid: nat, size: nat)
    requires grid > 0
    ensures Edges(first, last, grid, size, LowEdge(first, size, grid), HighEdge(last, size, grid))
  {
    QuotientBounds(first * size, grid);
    QuotientBounds((last + 1) * size + grid - 1, grid);
  }

  /** `lo..hi` is `a..b` when that is long enough, and otherwise as long as asked (or the whole side), holding `a..b` in
      its middle as far as the side allows. */
  predicate Fitted(a: int, b: int, size: nat, least: nat, lo: int, hi: int) {
    && 0 <= lo <= a && b <= hi <= size
    && (b - a >= least ==> lo == a && hi == b)
    && (b - a < least ==> hi - lo == Min(least, size))
    && (b - a < least ==> (-1 <= (hi - b) - (a - lo) <= 1 || lo == 0 || hi == size))
  }

  /** One axis of a region: the span of the changed cells and its padding, cut at the frame, and no wider. */
  lemma AxisIsFitted(first: nat, last: nat, grid: nat, size: nat, pad: nat, least: nat)
    requires first <= last < grid && size > 0
    ensures var (lo, hi) := Axis(first, last, grid, size, pad, least);
            exists lo0: nat, hi0: nat :: Edges(first, last, grid, size, lo0, hi0)
              && Fitted(Max(0, lo0 - pad), Min(size, hi0 + pad), size, least, lo, hi)
  {
    hide LowEdge, HighEdge, Edges;
    var lo0, hi0 := LowEdge(first, size, grid), HighEdge(last, size, grid);
    EdgesAre(first, last, grid, size);
    EdgesOrdered(first, last, grid, size, lo0, hi0);
    assert Fitted(Max(0, lo0 - pad), Min(size, hi0 + pad), size, least, Axis(first, last, grid, size, pad, least).0,
                  Axis(first, last, grid, size, pad, least).1);
  }

  lemma EdgesOrdered(first: nat, last: nat, grid: nat, size: nat, lo: nat, hi: nat)
    requires first <= last < grid && size > 0 && Edges(first, last, grid, size, lo, hi)
    ensures lo < hi && lo < size
  {
    ScaleOrder(first, last, size);
    ScaleOrder(last + 1, grid, size);
    assert (last + 1) * size == last * size + size;
    assert lo * grid < hi * grid && lo * grid < size * grid;
    if hi <= lo { ScaleOrder(hi, lo, grid); }
    if size <= lo { ScaleOrder(size, lo, grid); }
  }

  // ---------------------------------------------------------------- how a frame is delivered

  /** A frame the governor compares with the one before it. */
  predicate Compared(g: GovernorState, s: Settings, v: View) {
    g.previous.Some? && SameGeometry(g.previous.value, v) && g.forced == "" && !Due(g, s)
  }

  /**
   * A compared frame that is not skipped is delivered as a region if that takes at most the allowed share of the frame,
   * and whole if it takes more; rasterizing can fail only for a region.
   */
  lemma RegionIff(g: GovernorState, s: Settings, v: View, cropRenders: bool)
    requires Captured(v) && Compared(g, s, v)
    ensures var o := Observed(g, s, v, cropRenders).1;
            var d := DifferenceOf(g.previous.value.signature, v.signature, s.block);
            (o.Some? ==> o.value.disposition != Skip) ==>
              d.bounds.Some? && InsideGrid(d.bounds.value, v)
              && var c := CropOf(d.bounds.value, v, s);
                 var fits := (c.width * c.height) as real <= s.maxRoi * (v.width * v.height) as real;
                 if !fits then o.Some? && o.value.disposition == FullFrame && o.value.crop.None?
                 else if cropRenders then o.Some? && o.value.disposition == Roi && o.value.crop == Some(c)
                 else o.None?
  {
    hide CropOf, DifferenceOf;
    BoxInsideGrid(g.previous.value, v, s);
  }

  /** What an observation says of its frame, however it is delivered. */
  lemma ObservationReports(g: GovernorState, s: Settings, v: View, cropRenders: bool)
    requires Captured(v)
    ensures var (g', o) := Observed(g, s, v, cropRenders);
            && g'.previous == Some(v) && g'.sequence == g.sequence + 1
            && (o.Some? ==> o.value.sequence == g'.sequence)
            && (g'.lastKeyframe == if o.Some? && o.value.disposition == Keyframe then g'.sequence else g.lastKeyframe)
            && (g'.forced == if o.Some? && o.value.disposition == Keyframe then "" else g.forced)
            && (o.Some? && g.previous.Some? && SameGeometry(g.previous.value, v) && g.forced == "" ==>
                  var p, n := g.previous.value.signature, Blocks(v.signature);
                  && o.value.score == MeanDistance(p, v.signature)
                  && o.value.changedFraction * n as real == |ChangedBlocks(p, v.signature, s.block, n)| as real)
  {
    hide CropOf, Exceeds, Changed, ScanBlocks, Distance;
    if g.previous.Some? {
      var p, n := g.previous.value.signature, Blocks(v.signature);
      ScanTotal(p, v.signature, s.block, n);
      CountsChanged(p, v.signature, s.block, n);
      if n > 0 { ShareTimes(ScanBlocks(p, v.signature, s.block, n).changedBlocks as real, n as real); }
      else { assert ChangedBlocks(p, v.signature, s.block, n) == {}; }
    }
  }

  lemma ShareTimes(part: real, whole: real)
    requires whole > 0.0
    ensures part / whole * whole == part
  {
  }
}
