/** The observation governor: perceptual signatures, thresholds and keyframes, and the region of interest.
    Frame sizes are whole pixels, and scores are exact reals. */
module Governor {
  import opened Basics
  import opened Arithmetic

  // ---------------------------------------------------------------- signatures

  datatype Signature = Signature(width: nat, height: nat, samples: seq<nat>)

  /** The pixel a grid cell is sampled at, along one axis. */
  function SampledAt(cell: nat, grid: nat, size: nat): int
    requires grid > 0
  {
    Min(size - 1, ((2 * cell + 1) * size) / (2 * grid))
  }

  function PixelAt(pixels: seq<nat>, i: int): nat { if 0 <= i < |pixels| then pixels[i] else 0 }

  /** Channel `k` of the pixel sampled for grid cell `cell` (counted row by row). */
  function SampleOf(pixels: seq<nat>, width: nat, height: nat, gridWidth: nat, gridHeight: nat, cell: nat, k: nat): nat
    requires gridWidth > 0 && gridHeight > 0
  {
    PixelAt(pixels, (SampledAt(cell / gridWidth, gridHeight, height) * width
                     + SampledAt(cell % gridWidth, gridWidth, width)) * 4 + k)
  }

  /** The channel wanted at position `i` of the signature: three per cell, cells row by row. */
  function SampleAt(pixels: seq<nat>, width: nat, height: nat, gridWidth: nat, gridHeight: nat, i: nat): nat
    requires gridWidth > 0 && gridHeight > 0
  {
    SampleOf(pixels, width, height, gridWidth, gridHeight, i / 3, i % 3)
  }

  lemma CellIndex(gridX: nat, gridY: nat, gridWidth: nat, gridHeight: nat)
    requires gridX < gridWidth && gridY < gridHeight
    ensures (gridY * gridWidth + gridX) / gridWidth == gridY && (gridY * gridWidth + gridX) % gridWidth == gridX
    ensures gridY * gridWidth + gridX < gridWidth * gridHeight
  {
    QuotientIs(gridY * gridWidth + gridX, gridWidth, gridY);
    ScaleOrder(gridY + 1, gridHeight, gridWidth);
    assert (gridY + 1) * gridWidth == gridY * gridWidth + gridWidth;
  }

  /** What the inner loop writes for the cell at (gridX, gridY). */
  lemma CellSamples(pixels: seq<nat>, width: nat, height: nat, gridWidth: nat, gridHeight: nat, gridX: nat,
                    gridY: nat, k: nat)
    requires gridX < gridWidth && gridY < gridHeight && k < 3
    ensures gridY * gridWidth + gridX < gridWidth * gridHeight
    ensures SampleAt(pixels, width, height, gridWidth, gridHeight, (gridY * gridWidth + gridX) * 3 + k)
         == PixelAt(pixels, (SampledAt(gridY, gridHeight, height) * width + SampledAt(gridX, gridWidth, width)) * 4 + k)
  {
    hide PixelAt, SampledAt;
    CellIndex(gridX, gridY, gridWidth, gridHeight);
    var cell := gridY * gridWidth + gridX;
    assert (cell * 3 + k) / 3 == cell && (cell * 3 + k) % 3 == k;
  }

  /** The nested loops that fill a signature from RGBA pixels: at most 32 by 32 cells, three channels each. */
  method PerceptualSignature(pixels: seq<nat>, width: nat, height: nat) returns (s: Signature)
    requires width > 0 && height > 0
    ensures s.width == Min(32, width) && s.height == Min(32, height) && |s.samples| == s.width * s.height * 3
    ensures forall i: nat :: i < |s.samples| ==> s.samples[i] == SampleAt(pixels, width, height, s.width, s.height, i)
  {
    hide SampleAt, PixelAt, SampledAt;
    var gridWidth, gridHeight := Min(32, width), Min(32, height);
    var cells := gridWidth * gridHeight;
    var samples := new nat[cells * 3];
    FillGrid(samples, pixels, width, height, gridWidth, gridHeight, cells);
    s := Signature(gridWidth, gridHeight, samples[..]);
  }

  method FillGrid(samples: array<nat>, pixels: seq<nat>, width: nat, height: nat, gridWidth: nat, gridHeight: nat,
                  cells: nat)
    requires gridWidth > 0 && gridHeight > 0 && cells == gridWidth * gridHeight && samples.Length == cells * 3
    modifies samples
    ensures forall i: nat :: i < samples.Length ==>
              samples[i] == SampleAt(pixels, width, height, gridWidth, gridHeight, i)
  {
    hide SampleAt, PixelAt, SampledAt;
    var row := 0;
    for gridY := 0 to gridHeight
      invariant row == gridY * gridWidth && row <= cells
      invariant forall i: nat :: i < row * 3 ==> samples[i] == SampleAt(pixels, width, height, gridWidth, gridHeight, i)
    {
      FillRow(samples, pixels, width, height, gridWidth, gridHeight, gridY, row, cells);
      row := row + gridWidth;
    }
  }

  /** One pass of the inner loop. */
  method FillRow(samples: array<nat>, pixels: seq<nat>, width: nat, height: nat, gridWidth: nat, gridHeight: nat,
                 gridY: nat, row: nat, cells: nat)
    requires gridWidth > 0 && gridY < gridHeight && samples.Length == cells * 3
    requires row == gridY * gridWidth && cells == gridWidth * gridHeight && row <= cells
    requires forall i: nat :: i < row * 3 ==> samples[i] == SampleAt(pixels, width, height, gridWidth, gridHeight, i)
    modifies samples
    ensures row + gridWidth == (gridY + 1) * gridWidth <= cells
    ensures forall i: nat :: i < (row + gridWidth) * 3 ==>
              samples[i] == SampleAt(pixels, width, height, gridWidth, gridHeight, i)
  {
    hide SampleAt, PixelAt, SampledAt;
    assert row + gridWidth == (gridY + 1) * gridWidth <= cells by {
      CellIndex(gridWidth - 1, gridY, gridWidth, gridHeight);
    }
    var sourceY := SampledAt(gridY, gridHeight, height);
    for gridX := 0 to gridWidth
      invariant forall i: nat :: i < (row + gridX) * 3 ==>
                  samples[i] == SampleAt(pixels, width, height, gridWidth, gridHeight, i)
    {
      var source := (sourceY * width + SampledAt(gridX, gridWidth, width)) * 4;
      var target := (row + gridX) * 3;
      CellSamples(pixels, width, height, gridWidth, gridHeight, gridX, gridY, 0);
      CellSamples(pixels, width, height, gridWidth, gridHeight, gridX, gridY, 1);
      CellSamples(pixels, width, height, gridWidth, gridHeight, gridX, gridY, 2);
      samples[target] := PixelAt(pixels, source);
      samples[target + 1] := PixelAt(pixels, source + 1);
      samples[target + 2] := PixelAt(pixels, source + 2);
    }
  }

  // ---------------------------------------------------------------- differences

  function Sample(s: Signature, i: nat): nat { if i < |s.samples| then s.samples[i] else 0 }

  /** The summed channel difference of one block. */
  function BlockDistance(a: Signature, b: Signature, block: nat): nat {
    Abs(Sample(b, block * 3) - Sample(a, block * 3)) + Abs(Sample(b, block * 3 + 1) - Sample(a, block * 3 + 1))
    + Abs(Sample(b, block * 3 + 2) - Sample(a, block * 3 + 2))
  }

  function Distance(a: Signature, b: Signature, blocks: nat): nat {
    if blocks == 0 then 0 else Distance(a, b, blocks - 1) + BlockDistance(a, b, blocks - 1)
  }

  function Blocks(s: Signature): nat { s.width * s.height }

  /** The mean difference of a frame, in units of a full-scale channel. */
  function MeanDistance(a: Signature, b: Signature): real {
    if Blocks(b) == 0 then 0.0 else Distance(a, b, Blocks(b)) as real / (765.0 * Blocks(b) as real)
  }

  predicate Changed(a: Signature, b: Signature, threshold: real, block: nat) {
    !(BlockDistance(a, b, block) as real / 765.0 < threshold)
  }

  datatype Bounds = Bounds(minX: int, minY: int, maxX: int, maxY: int)

  datatype Scan = Scan(total: nat, changedBlocks: nat, bounds: Bounds)

  function ScanBlocks(a: Signature, b: Signature, threshold: real, n: nat): Scan
    requires n <= Blocks(b)
  {
    if n == 0 then Scan(0, 0, Bounds(b.width, b.height, -1, -1))
    else
      var block, before := n - 1, ScanBlocks(a, b, threshold, n - 1);
      var total := before.total + BlockDistance(a, b, block);
      if !Changed(a, b, threshold, block) then before.(total := total)
      else
        assert b.width > 0;
        var x, y, box := block % b.width, block / b.width, before.bounds;
        Scan(total, before.changedBlocks + 1,
             Bounds(Min(box.minX, x), Min(box.minY, y), Max(box.maxX, x), Max(box.maxY, y)))
  }

  datatype Difference = Difference(score: real, changedBlocks: nat, changedFraction: real, bounds: Option<Bounds>)

  function DifferenceOf(a: Signature, b: Signature, threshold: real): Difference {
    var n, scan := Blocks(b), ScanBlocks(a, b, threshold, Blocks(b));
    Difference(if n == 0 then 0.0 else scan.total as real / (765.0 * n as real), scan.changedBlocks,
               if n == 0 then 0.0 else scan.changedBlocks as real / n as real,
               if scan.changedBlocks > 0 then Some(scan.bounds) else None)
  }

  /** The accumulating loop over blocks. */
  method ComputeDifference(a: Signature, b: Signature, threshold: real) returns (d: Difference)
    ensures d == DifferenceOf(a, b, threshold)
  {
    var n := Blocks(b);
    var total, changed, minX, minY, maxX, maxY := 0, 0, b.width, b.height, -1, -1;
    for block := 0 to n
      invariant ScanBlocks(a, b, threshold, block) == Scan(total, changed, Bounds(minX, minY, maxX, maxY))
    {
      var distance := BlockDistance(a, b, block);
      total := total + distance;
      if distance as real / 765.0 < threshold { continue; }
      changed := changed + 1;
      assert b.width > 0;
      var x, y := block % b.width, block / b.width;
      minX, minY, maxX, maxY := Min(minX, x), Min(minY, y), Max(maxX, x), Max(maxY, y);
    }
    d := Difference(if n == 0 then 0.0 else total as real / (765.0 * n as real), changed,
                    if n == 0 then 0.0 else changed as real / n as real,
                    if changed > 0 then Some(Bounds(minX, minY, maxX, maxY)) else None);
  }

  lemma {:induction false} ScanTotal(a: Signature, b: Signature, threshold: real, n: nat)
    requires n <= Blocks(b)
    ensures ScanBlocks(a, b, threshold, n).total == Distance(a, b, n)
  {
    if n > 0 { ScanTotal(a, b, threshold, n - 1); }
  }

  predicate InBox(b: Signature, box: Bounds, block: nat)
    requires b.width > 0
  {
    box.minX <= block % b.width <= box.maxX && box.minY <= block / b.width <= box.maxY
  }

  lemma RowOfBlock(b: Signature, block: nat)
    requires block < Blocks(b)
    ensures b.width > 0 && 0 <= block % b.width < b.width && 0 <= block / b.width < b.height
  {
    assert b.width > 0;
    QuotientBelow(block, b.width, b.height);
  }

  /** The box holds every changed block and stays inside the grid. */
  lemma {:induction false} ScanBoxes(a: Signature, b: Signature, threshold: real, n: nat)
    requires n <= Blocks(b) && b.width > 0
    ensures var s := ScanBlocks(a, b, threshold, n);
            && (forall block: nat :: block < n && Changed(a, b, threshold, block) ==>
                  s.changedBlocks > 0 && InBox(b, s.bounds, block))
            && (s.changedBlocks > 0 ==>
                0 <= s.bounds.minX <= s.bounds.maxX < b.width && 0 <= s.bounds.minY <= s.bounds.maxY < b.height)
            && (s.changedBlocks == 0 ==> s.bounds == Bounds(b.width, b.height, -1, -1))
  {
    if n > 0 {
      ScanBoxes(a, b, threshold, n - 1);
      RowOfBlock(b, n - 1);
    }
  }

  /** With no changed block every block is below the threshold, hence so is the mean. */
  lemma {:induction false} UnchangedIsSmall(a: Signature, b: Signature, threshold: real, n: nat)
    requires n <= Blocks(b) && ScanBlocks(a, b, threshold, n).changedBlocks == 0
    ensures Distance(a, b, n) as real <= threshold * (765.0 * n as real)
  {
    hide BlockDistance;
    if n > 0 {
      UnchangedIsSmall(a, b, threshold, n - 1);
      OneMoreBlock(threshold, Distance(a, b, n - 1), BlockDistance(a, b, n - 1), n);
    }
  }

  lemma OneMoreBlock(threshold: real, before: nat, block: nat, n: nat)
    requires n > 0 && before as real <= threshold * (765.0 * (n - 1) as real) && block as real / 765.0 < threshold
    ensures (before + block) as real <= threshold * (765.0 * n as real)
  {
    assert threshold * (765.0 * n as real) == threshold * (765.0 * (n - 1) as real) + threshold * 765.0;
  }

  lemma UnchangedMean(a: Signature, b: Signature, threshold: real)
    requires threshold >= 0.0 && ScanBlocks(a, b, threshold, Blocks(b)).changedBlocks == 0
    ensures MeanDistance(a, b) <= threshold
  {
    hide ScanBlocks, Distance, Blocks;
    var n := Blocks(b);
    if n > 0 {
      UnchangedIsSmall(a, b, threshold, n);
      QuotientAtMostIff(Distance(a, b, n) as real, 765.0 * n as real, threshold);
    }
  }

  lemma {:induction false} Triangle(a: Signature, b: Signature, c: Signature, n: nat)
    ensures Distance(a, c, n) <= Distance(a, b, n) + Distance(b, c, n)
  {
    hide BlockDistance;
    if n > 0 {
      Triangle(a, b, c, n - 1);
      BlockTriangle(a, b, c, n - 1);
    }
  }

  lemma BlockTriangle(a: Signature, b: Signature, c: Signature, block: nat)
    ensures BlockDistance(a, c, block) <= BlockDistance(a, b, block) + BlockDistance(b, c, block)
  {
    hide Sample;
  }

  lemma MeanTriangle(a: Signature, b: Signature, c: Signature)
    requires Blocks(b) == Blocks(c)
    ensures MeanDistance(a, c) <= MeanDistance(a, b) + MeanDistance(b, c)
  {
    hide Distance, Blocks;
    var n := Blocks(c);
    if n > 0 {
      Triangle(a, b, c, n);
      AverageOfSum(Distance(a, c, n) as real, Distance(a, b, n) as real, Distance(b, c, n) as real, 765.0 * n as real);
    }
  }

  lemma AverageOfSum(x: real, y: real, z: real, d: real)
    requires x <= y + z && d > 0.0
    ensures x / d <= y / d + z / d
  {
    QuotientOfSum(y, z, d);
    QuotientAtMostIff(x, d, (y + z) / d);
  }

  // ---------------------------------------------------------------- the region of interest

  datatype Crop = Crop(x: int, y: int, width: int, height: int)

  function CeilDiv(n: nat, d: nat): nat
    requires d > 0
  {
    (n + d - 1) / d
  }

  /** The pixel a cell begins at, and the one it ends before. */
  function LowEdge(cell: nat, size: nat, grid: nat): nat
    requires grid > 0
  {
    cell * size / grid
  }

  function HighEdge(cell: nat, size: nat, grid: nat): nat
    requires grid > 0
  {
    CeilDiv((cell + 1) * size, grid)
  }

  /** Pad a span, clamp it to the frame, and widen it to `least` when it is shorter. */
  function Widened(lo0: nat, hi0: nat, size: nat, pad: nat, least: nat): (int, int) {
    var lo := Max(0, lo0 - pad);
    var hi := Min(size, hi0 + pad);
    if hi - lo < least then
      var expansion := least - (hi - lo);
      var lo1 := Max(0, lo - (expansion + 1) / 2);
      var hi1 := Min(size, lo1 + least);
      (Max(0, hi1 - least), hi1)
    else (lo, hi)
  }

  /** One axis of the crop: from the first to the last changed cell, in pixels. */
  function Axis(first: nat, last: nat, grid: nat, size: nat, pad: nat, least: nat): (int, int)
    requires grid > 0
  {
    Widened(LowEdge(first, size, grid), HighEdge(last, size, grid), size, pad, least)
  }

  /** The centre of a cell, (cell + 1/2) * size / grid, lies between `lo` and `hi`. */
  predicate CentreWithin(lo: int, hi: int, cell: nat, grid: nat, size: nat) {
    lo * (2 * grid) <= (2 * cell + 1) * size <= hi * (2 * grid)
  }

  lemma WiderCentre(lo: int, lo0: int, hi0: int, hi: int, cell: nat, grid: nat, size: nat)
    requires lo <= lo0 && hi0 <= hi
    ensures CentreWithin(lo0, hi0, cell, grid, size) ==> CentreWithin(lo, hi, cell, grid, size)
  {
    ScaleOrder(lo, lo0, 2 * grid);
    ScaleOrder(hi0, hi, 2 * grid);
  }

  lemma StartBeforeCentre(first: nat, cell: nat, size: nat)
    requires first <= cell
    ensures 2 * (first * size) <= (2 * cell + 1) * size
  {
    ScaleOrder(2 * first, 2 * cell + 1, size);
    assert 2 * first * size == 2 * (first * size);
  }

  lemma CentreBeforeEnd(cell: nat, last: nat, size: nat)
    requires cell <= last
    ensures (2 * cell + 1) * size + size <= 2 * ((last + 1) * size)
  {
    ScaleOrder(2 * cell + 2, 2 * (last + 1), size);
    assert (2 * cell + 2) * size == (2 * cell + 1) * size + size;
    assert 2 * (last + 1) * size == 2 * ((last + 1) * size);
  }

  lemma StartInside(first: nat, grid: nat, size: nat)
    requires first < grid && size > 0
    ensures first * size < size * grid
  {
    ScaleOrder(first + 1, grid, size);
    assert (first + 1) * size == first * size + size;
  }

  /** The cell's centre and the pixel it is sampled at lie between the floor and the ceiling of its span. */
  lemma CellInside(first: nat, cell: nat, last: nat, grid: nat, size: nat)
    requires first <= cell <= last < grid && size > 0
    ensures LowEdge(first, size, grid) <= SampledAt(cell, grid, size) < HighEdge(last, size, grid)
    ensures CentreWithin(LowEdge(first, size, grid), HighEdge(last, size, grid), cell, grid, size)
  {
    hide CeilDiv;
    StartBeforeCentre(first, cell, size);
    CentreBeforeEnd(cell, last, size);
    StartInside(first, grid, size);
    SpanInside(first * size, (2 * cell + 1) * size, (last + 1) * size, grid, size);
  }

  lemma SpanInside(a: nat, middle: nat, b: nat, grid: nat, size: nat)
    requires grid > 0 && size > 0 && 2 * a <= middle && middle + size <= 2 * b && a < size * grid
    ensures var mid := middle / (2 * grid);
            a / grid <= mid < CeilDiv(b, grid) && a / grid <= size - 1
    ensures (a / grid) * (2 * grid) <= middle <= CeilDiv(b, grid) * (2 * grid)
  {
    hide CeilDiv;
    FloorBefore(a, middle, grid);
    CeilingAfter(middle, b, grid);
    QuotientBelow(a, grid, size);
  }

  lemma FloorBefore(a: nat, middle: nat, grid: nat)
    requires grid > 0 && 2 * a <= middle
    ensures (a / grid) * (2 * grid) <= middle && a / grid <= middle / (2 * grid)
  {
    var lo := a / grid;
    QuotientBounds(a, grid);
    assert lo * (2 * grid) == 2 * (lo * grid);
    QuotientAtLeast(lo, middle, 2 * grid);
  }

  lemma CeilingAfter(middle: nat, b: nat, grid: nat)
    requires grid > 0 && middle < 2 * b
    ensures middle <= CeilDiv(b, grid) * (2 * grid) && middle / (2 * grid) < CeilDiv(b, grid)
  {
    var hi := CeilDiv(b, grid);
    QuotientBounds(b + grid - 1, grid);
    assert hi * (2 * grid) == 2 * (hi * grid);
    QuotientBelow(middle, 2 * grid, hi);
  }

  /** The axis lies inside the frame, is as wide as asked where the frame allows, and keeps every changed cell. */
  lemma AxisCovers(first: nat, cell: nat, last: nat, grid: nat, size: nat, pad: nat, least: nat)
    requires first <= cell <= last < grid && size > 0 && least > 0
    ensures var (lo, hi) := Axis(first, last, grid, size, pad, least);
            && 0 <= lo < hi <= size && hi - lo >= Min(least, size)
            && lo <= SampledAt(cell, grid, size) < hi
            && CentreWithin(lo, hi, cell, grid, size)
  {
    hide LowEdge, HighEdge, SampledAt, Widened, CentreWithin;
    CellInside(first, cell, last, grid, size);
    SpanCovers(LowEdge(first, size, grid), HighEdge(last, size, grid), cell, grid, size, pad, least);
  }

  /** A span keeps a cell: its sampled pixel lies inside, and its centre between the ends. */
  predicate Keeps(lo: int, hi: int, cell: nat, grid: nat, size: nat)
    requires grid > 0
  {
    lo <= SampledAt(cell, grid, size) < hi && CentreWithin(lo, hi, cell, grid, size)
  }

  lemma SpanCovers(lo0: nat, hi0: nat, cell: nat, grid: nat, size: nat, pad: nat, least: nat)
    requires cell < grid && size > 0 && least > 0
    ensures Keeps(lo0, hi0, cell, grid, size) ==>
            var (lo, hi) := Widened(lo0, hi0, size, pad, least);
            0 <= lo < hi <= size && hi - lo >= Min(least, size) && Keeps(lo, hi, cell, grid, size)
  {
    hide SampledAt, Widened, CentreWithin;
    if Keeps(lo0, hi0, cell, grid, size) {
      SampledInside(cell, grid, size);
      WideningCovers(lo0, hi0, size, pad, least);
      var (lo, hi) := Widened(lo0, hi0, size, pad, least);
      StillWithin(lo, lo0, hi0, hi, size, cell, grid);
    }
  }

  lemma SampledInside(cell: nat, grid: nat, size: nat)
    requires cell < grid && size > 0
    ensures SampledAt(cell, grid, size) < size
  {
  }

  lemma StillWithin(lo: int, lo0: int, hi0: int, hi: int, size: nat, cell: nat, grid: nat)
    requires lo <= lo0 && Min(hi0, size) <= hi && cell < grid && CentreWithin(lo0, hi0, cell, grid, size)
    ensures CentreWithin(lo, hi, cell, grid, size)
  {
    ScaleOrder(lo, lo0, 2 * grid);
    ScaleOrder(hi0, hi, 2 * grid);
    ScaleOrder(size, hi, 2 * grid);
    ScaleOrder(2 * cell + 1, 2 * grid, size);
    assert 2 * grid * size == size * (2 * grid);
  }

  lemma WideningCovers(lo0: nat, hi0: nat, size: nat, pad: nat, least: nat)
    requires lo0 < hi0 && lo0 < size && least > 0
    ensures var (lo, hi) := Widened(lo0, hi0, size, pad, least);
            0 <= lo <= lo0 && Min(hi0, size) <= hi <= size && hi - lo >= Min(least, size)
  {
  }

  // ---------------------------------------------------------------- the governor

  datatype Settings = Settings(difference: real, block: real, interval: nat, maxRoi: real, padding: nat, least: nat)

  /** What the constructor's range checks leave. */
  predicate Checked(s: Settings) {
    && 0.0 <= s.difference <= 1.0 && 0.0 <= s.block <= 1.0 && 0.0 <= s.maxRoi <= 1.0
    && s.interval >= 1 && s.least >= 1
  }

  /** A rasterized frame as the governor keeps it. */
  datatype View = View(signature: Signature, width: nat, height: nat)

  /** The signature's grid is the one the raster of a frame of this size gets. */
  predicate Captured(v: View) {
    v.signature.width == Min(32, v.width) && v.signature.height == Min(32, v.height)
  }

  predicate SameGeometry(p: View, v: View) {
    p.width == v.width && p.height == v.height && p.signature.width == v.signature.width
    && p.signature.height == v.signature.height
  }

  datatype Disposition = Keyframe | FullFrame | Roi | Skip

  datatype Observation = Observation(sequence: nat, disposition: Disposition, reason: string, score: real,
                                     changedFraction: real, crop: Option<Crop>)

  /** An empty `forced` reason forces nothing. */
  datatype GovernorState = GovernorState(previous: Option<View>, sequence: nat, lastKeyframe: nat, forced: string)

  const FRESH := GovernorState(None, 0, 0, "")

  predicate InsideGrid(box: Bounds, v: View) {
    0 <= box.minX <= box.maxX < v.signature.width && 0 <= box.minY <= box.maxY < v.signature.height
  }

  function CropOf(box: Bounds, v: View, s: Settings): Crop
    requires InsideGrid(box, v)
  {
    var (x, right) := Axis(box.minX, box.maxX, v.signature.width, v.width, s.padding, s.least);
    var (y, bottom) := Axis(box.minY, box.maxY, v.signature.height, v.height, s.padding, s.least);
    Crop(x, y, right - x, bottom - y)
  }

  /** The share of the frame a crop takes exceeds `limit`. */
  predicate Exceeds(c: Crop, width: nat, height: nat, limit: real)
    requires width > 0 && height > 0
  {
    (c.width * c.height) as real > limit * (width * height) as real
  }

  lemma BoxInsideGrid(a: View, v: View, s: Settings)
    requires Captured(v)
    ensures var d := DifferenceOf(a.signature, v.signature, s.block);
            d.bounds.Some? ==> InsideGrid(d.bounds.value, v) && v.width > 0 && v.height > 0
  {
    hide BlockDistance;
    if Blocks(v.signature) > 0 {
      RowOfBlock(v.signature, 0);
      ScanBoxes(a.signature, v.signature, s.block, Blocks(v.signature));
    }
  }

  function KeyframeAt(g: GovernorState, reason: string, score: real, changedFraction: real)
    : (GovernorState, Option<Observation>)
  {
    (g.(lastKeyframe := g.sequence, forced := ""),
     Some(Observation(g.sequence, Keyframe, reason, score, changedFraction, None)))
  }

  /** One observation. No result: rasterizing the crop threw, after the governor had recorded the frame. */
  function Observed(g: GovernorState, s: Settings, v: View, cropRenders: bool): (GovernorState, Option<Observation>)
    requires Captured(v)
  {
    var seen := g.(previous := Some(v), sequence := g.sequence + 1);
    if g.previous.None? then KeyframeAt(seen, "initial_keyframe", 0.0, 1.0)
    else if !SameGeometry(g.previous.value, v) then KeyframeAt(seen, "surface_geometry_changed", 1.0, 1.0)
    else if g.forced != "" then KeyframeAt(seen, g.forced, 1.0, 1.0)
    else
      var change := DifferenceOf(g.previous.value.signature, v.signature, s.block);
      if seen.sequence - g.lastKeyframe >= s.interval then
        KeyframeAt(seen, "periodic_resynchronization", change.score, change.changedFraction)
      else if change.score < s.difference || change.bounds.None? then
        (seen, Some(Observation(seen.sequence, Skip, "below_perceptual_threshold", change.score,
                                change.changedFraction, None)))
      else
        BoxInsideGrid(g.previous.value, v, s);
        var crop := CropOf(change.bounds.value, v, s);
        if Exceeds(crop, v.width, v.height, s.maxRoi) then
          (seen, Some(Observation(seen.sequence, FullFrame, "change_region_exceeds_roi_budget", change.score,
                                  change.changedFraction, None)))
        else if cropRenders then
          (seen, Some(Observation(seen.sequence, Roi, "localized_perceptual_change", change.score,
                                  change.changedFraction, Some(crop))))
        else (seen, None)
  }

  class ObservationGovernor {
    const settings: Settings
    var previous: Option<View>
    var sequence: nat
    var lastKeyframe: nat
    var forced: string

    constructor (settings: Settings)
      requires Checked(settings)
      ensures this.settings == settings && State() == FRESH
    {
      this.settings := settings;
      previous, sequence, lastKeyframe, forced := None, 0, 0, "";
    }

    function State(): GovernorState
      reads this
    {
      GovernorState(previous, sequence, lastKeyframe, forced)
    }

    method ForceNextKeyframe(reason: string)
      modifies this
      ensures State() == old(State()).(forced := reason)
    {
      forced := reason;
    }

    method Reset()
      modifies this
      ensures State() == FRESH
    {
      previous, sequence, lastKeyframe, forced := None, 0, 0, "";
    }

    method Observe(v: View, cropRenders: bool) returns (o: Option<Observation>)
      requires Captured(v)
      modifies this
      ensures (State(), o) == Observed(old(State()), settings, v, cropRenders)
    {
      hide DifferenceOf, CropOf;
      sequence := sequence + 1;
      var before := previous;
      previous := Some(v);
      if before.None? {
        o := TakeKeyframe("initial_keyframe", 0.0, 1.0);
        return;
      }
      if !SameGeometry(before.value, v) {
        o := TakeKeyframe("surface_geometry_changed", 1.0, 1.0);
        return;
      }
      if forced != "" {
        o := TakeKeyframe(forced, 1.0, 1.0);
        return;
      }
      var change := ComputeDifference(before.value.signature, v.signature, settings.block);
      if sequence - lastKeyframe >= settings.interval {
        o := TakeKeyframe("periodic_resynchronization", change.score, change.changedFraction);
        return;
      }
      if change.score < settings.difference || change.bounds.None? {
        o := Some(Observation(sequence, Skip, "below_perceptual_threshold", change.score, change.changedFraction,
                              None));
        return;
      }
      BoxInsideGrid(before.value, v, settings);
      var crop := ComputeCrop(change.bounds.value, v);
      if Exceeds(crop, v.width, v.height, settings.maxRoi) {
        o := Some(Observation(sequence, FullFrame, "change_region_exceeds_roi_budget", change.score,
                              change.changedFraction, None));
        return;
      }
      o := if cropRenders
        then Some(Observation(sequence, Roi, "localized_perceptual_change", change.score, change.changedFraction,
                              Some(crop)))
        else None;
    }

    method TakeKeyframe(reason: string, score: real, changedFraction: real) returns (o: Option<Observation>)
      modifies this
      ensures (State(), o) == KeyframeAt(old(State()), reason, score, changedFraction)
    {
      lastKeyframe := sequence;
      forced := "";
      o := Some(Observation(sequence, Keyframe, reason, score, changedFraction, None));
    }

    method ComputeCrop(box: Bounds, v: View) returns (c: Crop)
      requires InsideGrid(box, v)
      ensures c == CropOf(box, v, settings)
    {
      hide Axis;
      var x, right := ComputeAxis(box.minX, box.maxX, v.signature.width, v.width);
      var y, bottom := ComputeAxis(box.minY, box.maxY, v.signature.height, v.height);
      c := Crop(x, y, right - x, bottom - y);
    }

    /** The edges of the region along one axis, moved step by step. */
    method ComputeAxis(first: nat, last: nat, grid: nat, size: nat) returns (lo: int, hi: int)
      requires grid > 0
      ensures (lo, hi) == Axis(first, last, grid, size, settings.padding, settings.least)
    {
      hide LowEdge, HighEdge;
      lo := LowEdge(first, size, grid) - settings.padding;
      hi := HighEdge(last, size, grid) + settings.padding;
      lo := Max(0, lo);
      hi := Min(size, hi);
      if hi - lo < settings.least {
        var expansion := settings.least - (hi - lo);
        lo := Max(0, lo - (expansion + 1) / 2);
        hi := Min(size, lo + settings.least);
        lo := Max(0, hi - settings.least);
      }
    }
  }

  // ---------------------------------------------------------------- what a delivered region shows

  predicate InsideFrame(c: Crop, width: nat, height: nat) {
    0 <= c.x && 0 <= c.y && c.width > 0 && c.height > 0 && c.x + c.width <= width && c.y + c.height <= height
  }

  /** The lab's check of a requested crop, whose numbers are whole already. */
  function ValidateCrop(c: Crop, width: nat, height: nat): Option<Crop> {
    if c.x < 0 || c.y < 0 || c.width <= 0 || c.height <= 0 then None
    else if c.x + c.width > width || c.y + c.height > height then None
    else Some(c)
  }

  /** The pixel sampled for a block, and the block's centre, lie in the crop. */
  predicate Shows(c: Crop, v: View, block: nat)
    requires block < Blocks(v.signature)
  {
    RowOfBlock(v.signature, block);
    var gridX, gridY := block % v.signature.width, block / v.signature.width;
    && c.x <= SampledAt(gridX, v.signature.width, v.width) < c.x + c.width
    && c.y <= SampledAt(gridY, v.signature.height, v.height) < c.y + c.height
    && CentreWithin(c.x, c.x + c.width, gridX, v.signature.width, v.width)
    && CentreWithin(c.y, c.y + c.height, gridY, v.signature.height, v.height)
  }

  lemma CropShows(box: Bounds, v: View, s: Settings, block: nat)
    requires InsideGrid(box, v) && s.least >= 1 && v.width > 0 && v.height > 0
    requires block < Blocks(v.signature) && InBox(v.signature, box, block)
    ensures Shows(CropOf(box, v, s), v, block)
  {
    hide SampledAt, CentreWithin, Axis;
    RowOfBlock(v.signature, block);
    AxisCovers(box.minX, block % v.signature.width, box.maxX, v.signature.width, v.width, s.padding, s.least);
    AxisCovers(box.minY, block / v.signature.width, box.maxY, v.signature.height, v.height, s.padding, s.least);
  }

  lemma CropFits(box: Bounds, v: View, s: Settings)
    requires InsideGrid(box, v) && s.least >= 1 && v.width > 0 && v.height > 0
    ensures var c := CropOf(box, v, s);
            InsideFrame(c, v.width, v.height) && c.width >= Min(s.least, v.width) && c.height >= Min(s.least, v.height)
  {
    hide SampledAt, CentreWithin, Axis;
    AxisCovers(box.minX, box.minX, box.maxX, v.signature.width, v.width, s.padding, s.least);
    AxisCovers(box.minY, box.minY, box.maxY, v.signature.height, v.height, s.padding, s.least);
  }

  /** Every block that changed between two frames is in the crop. */
  ghost predicate ShowsChanges(c: Crop, before: View, v: View, s: Settings) {
    forall block: nat :: block < Blocks(v.signature) && Changed(before.signature, v.signature, s.block, block) ==>
      Shows(c, v, block)
  }

  /** Every region the governor asks for is one the lab accepts, is large enough, and shows every block that changed. */
  lemma RegionShowsEveryChange(g: GovernorState, s: Settings, v: View, cropRenders: bool)
    requires Checked(s) && Captured(v)
    ensures var o := Observed(g, s, v, cropRenders).1;
            && (o.Some? ==> (o.value.crop.Some? <==> o.value.disposition == Roi))
            && (o.Some? && o.value.crop.Some? ==>
                  var c, p := o.value.crop.value, g.previous.value;
                  && ValidateCrop(c, v.width, v.height) == Some(c)
                  && c.width >= Min(s.least, v.width) && c.height >= Min(s.least, v.height)
                  && InsideFrame(c, v.width, v.height) && ShowsChanges(c, p, v, s))
  {
    hide BlockDistance, CropOf, Shows, Exceeds, Changed;
    var o := Observed(g, s, v, cropRenders).1;
    if o.Some? && o.value.crop.Some? {
      var p := g.previous.value;
      var box := DifferenceOf(p.signature, v.signature, s.block).bounds.value;
      BoxInsideGrid(p, v, s);
      CropFits(box, v, s);
      ScanBoxes(p.signature, v.signature, s.block, Blocks(v.signature));
      forall block: nat | block < Blocks(v.signature) && Changed(p.signature, v.signature, s.block, block)
        ensures Shows(CropOf(box, v, s), v, block)
      {
        CropShows(box, v, s, block);
      }
    }
  }

  predicate Due(g: GovernorState, s: Settings) { g.sequence + 1 - g.lastKeyframe >= s.interval }

  /** Exactly the first frame, a change of geometry, a forced reason and a due interval make a keyframe. */
  lemma KeyframeIff(g: GovernorState, s: Settings, v: View, cropRenders: bool)
    requires Captured(v)
    ensures var o := Observed(g, s, v, cropRenders).1;
            (o.Some? && o.value.disposition == Keyframe)
            <==> g.previous.None? || !SameGeometry(g.previous.value, v) || g.forced != "" || Due(g, s)
  {
    hide DifferenceOf, CropOf, Exceeds;
  }

  /** Of the other frames, exactly those are skipped whose mean difference is below the threshold or none of whose
      blocks changed. */
  lemma SkipIff(g: GovernorState, s: Settings, v: View, cropRenders: bool)
    requires Captured(v) && g.previous.Some? && SameGeometry(g.previous.value, v) && g.forced == "" && !Due(g, s)
    ensures var p, o := g.previous.value.signature, Observed(g, s, v, cropRenders).1;
            (o.Some? && o.value.disposition == Skip)
            <==> MeanDistance(p, v.signature) < s.difference
                 || forall block: nat :: block < Blocks(v.signature) ==> !Changed(p, v.signature, s.block, block)
  {
    hide CropOf, Exceeds, Changed, ScanBlocks, Distance;
    var p := g.previous.value.signature;
    ScanTotal(p, v.signature, s.block, Blocks(v.signature));
    NothingChangedIff(p, v.signature, s.block, Blocks(v.signature));
  }

  lemma {:induction false} NothingChangedIff(a: Signature, b: Signature, threshold: real, n: nat)
    requires n <= Blocks(b)
    ensures ScanBlocks(a, b, threshold, n).changedBlocks == 0
            <==> forall block: nat :: block < n ==> !Changed(a, b, threshold, block)
  {
    hide Changed, BlockDistance;
    if n > 0 { NothingChangedIff(a, b, threshold, n - 1); }
  }

  // ---------------------------------------------------------------- drift

  datatype Event = ObserveFrame(view: View) | CropFails(view: View) | Force(reason: string) | StartOver

  /**
   * `anchor` is the last frame delivered, `skips` the frames passed over since, and `missed` the sum, over the crops
   * that failed since, of how far the frame was from the one before it.
   */
  datatype Watched = Watched(g: GovernorState, anchor: Option<View>, skips: nat, missed: real)

  predicate Well(e: Event) { (e.ObserveFrame? || e.CropFails?) ==> Captured(e.view) }

  function Watch(w: Watched, s: Settings, e: Event): Watched
    requires Well(e)
  {
    match e
    case Force(reason) => w.(g := w.g.(forced := reason))
    case StartOver => Watched(FRESH, None, 0, 0.0)
    case ObserveFrame(v) =>
      var (g, o) := Observed(w.g, s, v, true);
      if o.value.disposition == Skip then w.(g := g, skips := w.skips + 1) else Watched(g, Some(v), 0, 0.0)
    case CropFails(v) =>
      var (g, o) := Observed(w.g, s, v, false);
      if o.None? then w.(g := g, missed := w.missed + MeanDistance(w.g.previous.value.signature, v.signature))
      else if o.value.disposition == Skip then w.(g := g, skips := w.skips + 1) else Watched(g, Some(v), 0, 0.0)
  }

  function WatchAll(s: Settings, events: seq<Event>): Watched
    requires forall e :: e in events ==> Well(e)
  {
    if events == [] then Watched(FRESH, None, 0, 0.0)
    else Watch(WatchAll(s, events[..|events| - 1]), s, events[|events| - 1])
  }

  function Step(s: Settings): real { if s.difference < s.block then s.block else s.difference }

  /** What so many skips can add up to. */
  function SkipDrift(skips: nat, s: Settings): real { skips as real * Step(s) }

  ghost predicate Bounded(w: Watched, s: Settings) {
    && w.g.lastKeyframe <= w.g.sequence < w.g.lastKeyframe + s.interval
    && (w.g.previous.None? <==> w.anchor.None?)
    && (w.g.previous.None? ==> w.g.sequence == 0 && w.skips == 0)
    && w.skips <= w.g.sequence - w.g.lastKeyframe
    && (w.anchor.Some? ==>
          && SameGeometry(w.anchor.value, w.g.previous.value)
          && MeanDistance(w.anchor.value.signature, w.g.previous.value.signature) <= SkipDrift(w.skips, s) + w.missed)
  }

  /** A skipped frame is within one threshold of the frame before it. */
  lemma SkipIsSmall(a: Signature, b: Signature, s: Settings)
    requires Checked(s)
    requires var d := DifferenceOf(a, b, s.block); d.score < s.difference || d.bounds.None?
    ensures MeanDistance(a, b) <= Step(s)
  {
    hide ScanBlocks, Distance, Blocks;
    ScanTotal(a, b, s.block, Blocks(b));
    if DifferenceOf(a, b, s.block).bounds.None? { UnchangedMean(a, b, s.block); }
  }

  lemma SelfDistance(a: Signature, n: nat)
    ensures Distance(a, a, n) == 0
  {
  }

  lemma OneSkipMore(skips: nat, s: Settings)
    ensures SkipDrift(skips + 1, s) == SkipDrift(skips, s) + Step(s) && SkipDrift(0, s) == 0.0
  {
    hide Step;
  }

  lemma ObserveKeepsBound(w: Watched, s: Settings, e: Event)
    requires Checked(s) && Bounded(w, s) && Well(e) && (e.ObserveFrame? || e.CropFails?)
    ensures Bounded(Watch(w, s, e), s)
  {
    hide DifferenceOf, MeanDistance, CropOf, Exceeds, Step, SkipDrift;
    var v := e.view;
    OneSkipMore(w.skips, s);
    SelfMean(v.signature);
    var (g, o) := Observed(w.g, s, v, e.ObserveFrame?);
    if o.None? || o.value.disposition == Skip {
      var p := w.g.previous.value;
      if o.Some? { SkipIsSmall(p.signature, v.signature, s); }
      MeanTriangle(w.anchor.value.signature, p.signature, v.signature);
    }
  }

  lemma SelfMean(a: Signature)
    ensures MeanDistance(a, a) == 0.0
  {
    hide Distance;
    SelfDistance(a, Blocks(a));
  }

  lemma {:induction false} EveryRunIsBounded(s: Settings, events: seq<Event>)
    requires Checked(s) && forall e :: e in events ==> Well(e)
    ensures Bounded(WatchAll(s, events), s)
  {
    hide MeanDistance, Observed;
    if events != [] {
      var e, w := events[|events| - 1], WatchAll(s, events[..|events| - 1]);
      EveryRunIsBounded(s, events[..|events| - 1]);
      if e.ObserveFrame? || e.CropFails? { ObserveKeepsBound(w, s, e); }
    }
  }

  /** What the skips between two keyframes can add up to. */
  function Limit(s: Settings): real
    requires s.interval >= 1
  {
    SkipDrift(s.interval - 1, s)
  }

  lemma BoundedIsWithinLimit(w: Watched, s: Settings)
    requires Checked(s) && Bounded(w, s)
    ensures w.g.sequence - w.g.lastKeyframe < s.interval
    ensures w.anchor.Some? <==> w.g.previous.Some?
    ensures w.anchor.Some? ==>
            MeanDistance(w.anchor.value.signature, w.g.previous.value.signature) <= Limit(s) + w.missed
  {
    assert Step(s) >= 0.0;
    hide MeanDistance, Step, Limit, SkipDrift;
    SkipsWithinLimit(w.skips, s);
  }

  lemma SkipsWithinLimit(skips: nat, s: Settings)
    requires skips < s.interval && Step(s) >= 0.0
    ensures SkipDrift(skips, s) <= Limit(s)
  {
    hide Step;
    ScaleReal(skips as real, (s.interval - 1) as real, Step(s));
  }

  /** Bounded drift, over every run: the current frame never strays further from the last delivered one than the skips
      allow, and the changes whose crops failed to rasterize. */
  lemma DriftIsBounded(s: Settings, events: seq<Event>)
    requires Checked(s) && forall e :: e in events ==> Well(e)
    ensures var w := WatchAll(s, events);
            && w.g.sequence - w.g.lastKeyframe < s.interval
            && (w.anchor.Some? <==> w.g.previous.Some?)
            && (w.anchor.Some? ==>
                  MeanDistance(w.anchor.value.signature, w.g.previous.value.signature) <= Limit(s) + w.missed)
            && ((forall e :: e in events ==> !e.CropFails?) ==> w.missed == 0.0)
  {
    hide *;
    EveryRunIsBounded(s, events);
    BoundedIsWithinLimit(WatchAll(s, events), s);
    if forall e :: e in events ==> !e.CropFails? { NothingIsMissed(s, events); }
  }

  lemma {:induction false} NothingIsMissed(s: Settings, events: seq<Event>)
    requires forall e :: e in events ==> Well(e) && !e.CropFails?
    ensures WatchAll(s, events).missed == 0.0
  {
    hide Observed;
    if events != [] { NothingIsMissed(s, events[..|events| - 1]); }
  }

  // ---------------------------------------------------------------- when a missed change is delivered

  /** The same frame observed `n` more times. */
  function Repeated(w: Watched, s: Settings, v: View, n: nat): Watched
    requires Captured(v)
  {
    if n == 0 then w else Watch(Repeated(w, s, v, n - 1), s, ObserveFrame(v))
  }

  /** An unchanged frame counts as unchanged: a threshold is positive, or the frame is empty. */
  predicate Settles(s: Settings, v: View) { Step(s) > 0.0 || Blocks(v.signature) == 0 }

  /** The frame seen last, observed again, is skipped exactly when no keyframe is due and it counts as unchanged. */
  lemma SameFrameIsSkippedIff(g: GovernorState, s: Settings, v: View)
    requires Checked(s) && Captured(v) && g.previous == Some(v) && g.forced == ""
    ensures Observed(g, s, v, true).1.value.disposition == Skip <==> !Due(g, s) && Settles(s, v)
  {
    KeyframeIff(g, s, v, true);
    if !Due(g, s) {
      SkipIff(g, s, v, true);
      SelfMean(v.signature);
      SelfBlocks(v.signature, s.block);
      assert Blocks(v.signature) > 0 ==> (Changed(v.signature, v.signature, s.block, 0) <==> s.block == 0.0);
    }
  }

  lemma SelfBlocks(a: Signature, threshold: real)
    requires threshold >= 0.0
    ensures forall block: nat :: Changed(a, a, threshold, block) <==> threshold == 0.0
  {
    forall block: nat ensures BlockDistance(a, a, block) == 0 { }
  }

  lemma SameFrameStep(w: Watched, s: Settings, v: View)
    requires Checked(s) && Captured(v) && w.g.previous == Some(v) && w.g.forced == ""
    ensures var r := Watch(w, s, ObserveFrame(v));
            && r.g.previous == Some(v) && r.g.forced == "" && r.skips <= w.skips + 1
            && (r.skips == w.skips + 1 <==> !Due(w.g, s) && Settles(s, v))
            && (r.skips == w.skips + 1 ==> r == w.(g := w.g.(sequence := w.g.sequence + 1), skips := w.skips + 1))
  {
    hide DifferenceOf, CropOf, Exceeds, Settles;
    SameFrameIsSkippedIff(w.g, s, v);
  }

  /** A missed change comes back with the next due keyframe and no sooner: while the frame stays as it is, all of `n`
      observations skip it exactly when no keyframe falls due among them and it counts as unchanged. */
  lemma {:induction false} RepeatsAreSkippedIff(w: Watched, s: Settings, v: View, n: nat)
    requires Checked(s) && Captured(v) && w.g.previous == Some(v) && w.g.forced == ""
    ensures var r := Repeated(w, s, v, n);
            && r.g.previous == Some(v) && r.g.forced == "" && r.skips <= w.skips + n
            && (r.skips == w.skips + n
                <==> n == 0 || (w.g.sequence + n - w.g.lastKeyframe < s.interval && Settles(s, v)))
            && (r.skips == w.skips + n ==> r == w.(g := w.g.(sequence := w.g.sequence + n), skips := w.skips + n))
  {
    hide Watch, Settles;
    if n > 0 {
      RepeatsAreSkippedIff(w, s, v, n - 1);
      SameFrameStep(Repeated(w, s, v, n - 1), s, v);
    }
  }

  lemma FailedCropHasBlocks(g: GovernorState, s: Settings, v: View)
    requires Captured(v)
    ensures Observed(g, s, v, false).1.None? ==> Blocks(v.signature) > 0
  {
    if Observed(g, s, v, false).1.None? {
      assert DifferenceOf(g.previous.value.signature, v.signature, s.block).bounds.Some?;
    }
  }

  /** After a crop failed to rasterize, in any run, the last delivered frame stays the last delivered one through `n`
      more observations of the same frame exactly when no keyframe falls due among them and a threshold is positive. */
  lemma MissedUntilKeyframeIff(s: Settings, events: seq<Event>, v: View, n: nat)
    requires Checked(s) && Captured(v) && forall e :: e in events ==> Well(e)
    ensures var w := WatchAll(s, events);
            var r := Repeated(Watch(w, s, CropFails(v)), s, v, n);
            Observed(w.g, s, v, false).1.None? ==>
              (r.anchor == w.anchor && r.skips == w.skips + n
               <==> n == 0 || (w.g.sequence + 1 + n - w.g.lastKeyframe < s.interval && Step(s) > 0.0))
  {
    hide DifferenceOf, CropOf, Exceeds, Step, WatchAll, MeanDistance;
    var w := WatchAll(s, events);
    if Observed(w.g, s, v, false).1.None? {
      FailedCropHasBlocks(w.g, s, v);
      RepeatsAreSkippedIff(Watch(w, s, CropFails(v)), s, v, n);
    }
  }

  function Flat(level: nat): View { View(Signature(1, 1, [level, level, level]), 1, 1) }

  const PLAIN := Settings(0.1, 0.1, 8, 1.0, 0, 1)

  lemma FlatFrames()
    ensures DifferenceOf(Flat(0).signature, Flat(255).signature, 0.1)
            == Difference(1.0, 1, 1.0, Some(Bounds(0, 0, 0, 0)))
    ensures DifferenceOf(Flat(255).signature, Flat(255).signature, 0.1) == Difference(0.0, 0, 0.0, None)
    ensures MeanDistance(Flat(0).signature, Flat(255).signature) == 1.0 && Limit(PLAIN) < 1.0
  {
    assert BlockDistance(Flat(0).signature, Flat(255).signature, 0) == 765;
    assert BlockDistance(Flat(255).signature, Flat(255).signature, 0) == 0;
  }

  lemma FlatCrop()
    ensures CropOf(Bounds(0, 0, 0, 0), Flat(255), PLAIN) == Crop(0, 0, 1, 1)
            && !Exceeds(Crop(0, 0, 1, 1), 1, 1, PLAIN.maxRoi)
  {
  }

  /** A crop that fails to rasterize is not asked for again: the frame is recorded as seen, the next one is skipped,
      and what was last delivered is further away than the bound allows. */
  lemma FailedCropLosesTheChange()
    ensures var w := WatchAll(PLAIN, [ObserveFrame(Flat(0)), CropFails(Flat(255)), ObserveFrame(Flat(255))]);
            && Checked(PLAIN) && w.missed == 1.0 && w.anchor == Some(Flat(0)) && w.g.previous == Some(Flat(255))
            && MeanDistance(w.anchor.value.signature, w.g.previous.value.signature) > Limit(PLAIN)
  {
    hide DifferenceOf, CropOf, Exceeds, MeanDistance, Limit;
    FlatFrames();
    FlatCrop();
    var e0, e1, e2 := ObserveFrame(Flat(0)), CropFails(Flat(255)), ObserveFrame(Flat(255));
    assert [e0, e1, e2][..2] == [e0, e1] && [e0, e1][..1] == [e0] && [e0][..0] == [];
    assert WatchAll(PLAIN, [e0]) == Watched(GovernorState(Some(Flat(0)), 1, 1, ""), Some(Flat(0)), 0, 0.0);
    assert WatchAll(PLAIN, [e0, e1]) == Watched(GovernorState(Some(Flat(255)), 2, 1, ""), Some(Flat(0)), 0, 1.0);
  }
}
