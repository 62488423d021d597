/**
 * The bookkeeping of `FractalRenderer` (python-claude-opus-4.5/fractal_generator/renderer.py):
 * how many workers the NumPy+multiprocessing path starts, how it cuts the
 * image into row chunks, how the chunk results are written back into one
 * iteration buffer, the progress values it reports, the palette lookup
 * table, and the pixel grid of the sequential path.
 *
 * The escape-time computation of a point and the palettes are parameters:
 * `escape(x, y, max_iter)` and `palette(count, max_iter)`.
 */
module ClaudeRendererModel {
  import opened RowPartition
  import opened Colour
  import opened Numeric
  import opened Wrappers

  /** `_min_rows_per_worker`: the fewest rows worth a worker of their own. */
  const MinRowsPerWorker := 50

  // ---------------------------------------------------------------
  // Worker count
  // ---------------------------------------------------------------

  /** `_worker_count = max(1, cpu_count())`. */
  function WorkerCount(cpus: int): (w: int)
    ensures w >= 1 && w >= cpus
    ensures cpus >= 1 ==> w == cpus
  {
    Max(1, cpus)
  }

  /**
   * `min(_worker_count, max(1, height // _min_rows_per_worker))`: never more
   * workers than the pool allows, never more than one per 50 rows, and at
   * least one.
   */
  function NumWorkers(workerCount: int, height: int): (n: int)
    requires workerCount >= 1
    ensures 1 <= n <= workerCount
    ensures n <= Max(1, height / MinRowsPerWorker)
    ensures n == workerCount || n == Max(1, height / MinRowsPerWorker)
  {
    Min(workerCount, Max(1, height / MinRowsPerWorker))
  }

  /** An image of at least 50 rows gives every chunk at least 50 rows. */
  lemma ChunksHoldMinimumRows(workerCount: int, height: int)
    requires workerCount >= 1 && height >= MinRowsPerWorker
    ensures height / NumWorkers(workerCount, height) >= MinRowsPerWorker
  {
    var n := NumWorkers(workerCount, height);
    var q := height / n;
    assert n <= height / MinRowsPerWorker;
    assert n * MinRowsPerWorker <= height;
    assert height == n * q + height % n && height % n < n;
    assert n * MinRowsPerWorker < n * (q + 1);
    MulLessCancel(n, MinRowsPerWorker, q + 1);
  }

  // ---------------------------------------------------------------
  // Chunk planning (`_render_numpy_parallel`)
  // ---------------------------------------------------------------

  /**
   * The chunk list of `_render_numpy_parallel`: `numWorkers` chunks of
   * `height // numWorkers` rows, the last one running to `height`.
   */
  method PlanChunks(workerCount: int, height: nat) returns (numWorkers: int, rowsPerChunk: int, chunks: seq<Span>)
    requires workerCount >= 1
    ensures numWorkers == NumWorkers(workerCount, height)
    ensures rowsPerChunk == height / numWorkers
    ensures |chunks| == numWorkers
    ensures Tiles(chunks, height)
    ensures forall i :: 0 <= i < |chunks| ==> chunks[i].start == i * rowsPerChunk
    ensures forall i :: 0 <= i < |chunks| - 1 ==> Length(chunks[i]) == rowsPerChunk
    ensures Length(chunks[|chunks| - 1]) == rowsPerChunk + height % numWorkers
  {
    numWorkers := NumWorkers(workerCount, height);
    rowsPerChunk := height / numWorkers;
    DivisionParts(height, numWorkers);
    chunks := [];
    var i := 0;
    while i < numWorkers
      invariant 0 <= i <= numWorkers
      invariant |chunks| == i
      invariant forall j :: 0 <= j < i ==> chunks[j].start == j * rowsPerChunk
      invariant forall j :: 0 <= j < i && j != numWorkers - 1 ==> chunks[j].end == (j + 1) * rowsPerChunk
      invariant forall j :: 0 <= j < i ==> chunks[j].start <= chunks[j].end
      invariant i == numWorkers ==> chunks[i - 1].end == height
    {
      var startRow := i * rowsPerChunk;
      var endRow := if i == numWorkers - 1 then height else (i + 1) * rowsPerChunk;
      MulStep(i, rowsPerChunk);
      if i == numWorkers - 1 {
        assert startRow + rowsPerChunk + height % numWorkers == height;
      }
      chunks := chunks + [Span(startRow, endRow)];
      i := i + 1;
    }
  }

  // ---------------------------------------------------------------
  // Merging the chunk results
  // ---------------------------------------------------------------

  /** `iterations[start:end, :] = chunk`: copy a chunk's rows into the buffer. */
  method CopyChunk(iterations: array2<int>, start: nat, rows: seq<seq<int>>)
    requires start + |rows| <= iterations.Length0
    requires forall i :: 0 <= i < |rows| ==> |rows[i]| == iterations.Length1
    modifies iterations
    ensures forall r, c :: 0 <= r < iterations.Length0 && 0 <= c < iterations.Length1 ==>
      iterations[r, c] == if start <= r < start + |rows| then rows[r - start][c] else old(iterations[r, c])
  {
    var i := 0;
    while i < |rows|
      invariant 0 <= i <= |rows|
      invariant forall r, c :: 0 <= r < iterations.Length0 && 0 <= c < iterations.Length1 ==>
        iterations[r, c] == if start <= r < start + i then rows[r - start][c] else old(iterations[r, c])
    {
      var c := 0;
      while c < iterations.Length1
        invariant 0 <= c <= iterations.Length1
        invariant forall r, c' :: 0 <= r < iterations.Length0 && 0 <= c' < iterations.Length1 ==>
          iterations[r, c'] ==
            if start <= r < start + i || (r == start + i && c' < c) then rows[r - start][c'] else old(iterations[r, c'])
      {
        iterations[start + i, c] := rows[i][c];
        c := c + 1;
      }
      i := i + 1;
    }
  }

  /** The progress value reported after `done` of `numWorkers` chunks have come back. */
  function ChunkProgress(done: int, numWorkers: int): real
    requires numWorkers >= 1
  {
    0.1 + 0.7 * (done as real / numWorkers as real)
  }

  /** Dividing by a positive number keeps the order. */
  lemma DivideMonotone(a: real, b: real, n: real)
    requires a <= b && n > 0.0
    ensures a / n <= b / n
    ensures b == n ==> b / n == 1.0
  {
    assert (b - a) / n >= 0.0;
  }

  /** Chunk progress grows with the number of chunks done and stays within `[0.1, 0.8]`. */
  lemma ChunkProgressBounds(i: int, j: int, numWorkers: int)
    requires numWorkers >= 1 && 0 <= i <= j <= numWorkers
    ensures 0.1 <= ChunkProgress(i, numWorkers) <= ChunkProgress(j, numWorkers) <= 0.8
    ensures ChunkProgress(numWorkers, numWorkers) == 0.8
  {
    var n := numWorkers as real;
    DivideMonotone(i as real, j as real, n);
    DivideMonotone(j as real, n, n);
    DivideMonotone(0.0, i as real, n);
  }

  /**
   * The result loop of `_render_numpy_parallel`: the chunks come back in
   * `order` (any order that returns every chunk once) and each is written
   * over its own rows of a zeroed `height` by `width` buffer; a progress
   * value is reported before the loop, after each chunk and after the loop.
   */
  method MergeChunks(height: nat, width: nat, chunks: seq<Span>, results: seq<seq<seq<int>>>, order: seq<nat>)
    returns (iterations: array2<int>, progress: seq<real>)
    requires Tiles(chunks, height)
    requires |results| == |chunks|
    requires forall k :: 0 <= k < |chunks| ==> |results[k]| == chunks[k].end - chunks[k].start
    requires forall k, i :: 0 <= k < |chunks| && 0 <= i < |results[k]| ==> |results[k][i]| == width
    requires |order| == |chunks|
    requires forall j :: 0 <= j < |order| ==> order[j] < |chunks|
    requires forall k :: 0 <= k < |chunks| ==> k in order
    ensures iterations.Length0 == height && iterations.Length1 == width
    ensures forall r, c :: 0 <= r < height && 0 <= c < width ==>
      var k := Owner(chunks, r);
      iterations[r, c] == results[k][r - chunks[k].start][c]
    ensures |chunks| >= 1 ==> |progress| == |order| + 2
    ensures |chunks| >= 1 ==> progress[0] == 0.1 && progress[|progress| - 1] == 0.8
    ensures |chunks| >= 1 ==> forall j :: 1 <= j <= |order| ==> progress[j] == ChunkProgress(j, |chunks|)
  {
    TilesBounds(chunks, height);
    iterations := new int[height, width]((_, _) => 0);
    progress := [0.1];
    var done := 0;
    while done < |order|
      invariant 0 <= done <= |order|
      invariant |progress| == done + 1 && progress[0] == 0.1
      invariant forall j :: 1 <= j <= done ==> progress[j] == ChunkProgress(j, |chunks|)
      invariant forall j, r, c :: 0 <= j < done && 0 <= c < width && InSpan(chunks[order[j]], r) ==>
        iterations[r, c] == results[order[j]][r - chunks[order[j]].start][c]
    {
      var k := order[done];
      CopyChunk(iterations, chunks[k].start, results[k]);
      forall j, r, c | 0 <= j < done + 1 && 0 <= c < width && InSpan(chunks[order[j]], r)
        ensures iterations[r, c] == results[order[j]][r - chunks[order[j]].start][c]
      {
        if InSpan(chunks[k], r) {
          OwnerUnique(chunks, r, k);
          OwnerUnique(chunks, r, order[j]);
        }
      }
      progress := progress + [ChunkProgress(done + 1, |chunks|)];
      done := done + 1;
    }
    progress := progress + [0.8];
    EveryRowMerged(height, width, chunks, results, order, iterations);
  }

  /** Once every chunk in `order` has been copied, each row holds the chunk that owns it. */
  lemma {:induction false} EveryRowMerged(height: nat, width: nat, chunks: seq<Span>, results: seq<seq<seq<int>>>, order: seq<nat>,
                       iterations: array2<int>)
    requires Tiles(chunks, height)
    requires |results| == |chunks|
    requires forall k :: 0 <= k < |chunks| ==> |results[k]| == chunks[k].end - chunks[k].start
    requires forall k, i :: 0 <= k < |chunks| && 0 <= i < |results[k]| ==> |results[k][i]| == width
    requires forall j :: 0 <= j < |order| ==> order[j] < |chunks|
    requires forall k :: 0 <= k < |chunks| ==> k in order
    requires iterations.Length0 == height && iterations.Length1 == width
    requires forall j, r, c :: 0 <= j < |order| && 0 <= r < height && 0 <= c < width && InSpan(chunks[order[j]], r) ==>
      iterations[r, c] == results[order[j]][r - chunks[order[j]].start][c]
    ensures forall r, c :: 0 <= r < height && 0 <= c < width ==>
      var k := Owner(chunks, r);
      iterations[r, c] == results[k][r - chunks[k].start][c]
  {
    forall r, c | 0 <= r < height && 0 <= c < width
      ensures var k := Owner(chunks, r); iterations[r, c] == results[k][r - chunks[k].start][c]
    {
      TilesCover(chunks, height, r);
      var k := Owner(chunks, r);
      assert k in order;
      var j :| 0 <= j < |order| && order[j] == k;
      assert InSpan(chunks[order[j]], r);
      assert iterations[r, c] == results[order[j]][r - chunks[order[j]].start][c];
    }
  }

  /** The progress list of the merge loop is non-decreasing and stays within `[0.1, 0.8]`. */
  lemma MergeProgressSorted(progress: seq<real>, numWorkers: int)
    requires numWorkers >= 1 && |progress| == numWorkers + 2
    requires progress[0] == 0.1 && progress[|progress| - 1] == 0.8
    requires forall j :: 1 <= j <= numWorkers ==> progress[j] == ChunkProgress(j, numWorkers)
    ensures forall i, j :: 0 <= i <= j < |progress| ==> 0.1 <= progress[i] <= progress[j] <= 0.8
  {
    forall i, j | 0 <= i <= j < |progress|
      ensures 0.1 <= progress[i] <= progress[j] <= 0.8
    {
      var a := if i == 0 then 0 else if i == |progress| - 1 then numWorkers else i;
      var b := if j == 0 then 0 else if j == |progress| - 1 then numWorkers else j;
      ChunkProgressBounds(a, b, numWorkers);
      ChunkProgressBounds(0, 0, numWorkers);
      assert ChunkProgress(0, numWorkers) == 0.1;
    }
  }

  // ---------------------------------------------------------------
  // `_apply_palette_vectorized`
  // ---------------------------------------------------------------

  /** `[palette(i, max_iter) for i in range(max_iter + 1)]`. */
  function PaletteLut(palette: (int, int) -> Rgb, maxIter: int): (lut: seq<Rgb>)
    ensures |lut| == Max(0, maxIter + 1)
    ensures forall i :: 0 <= i < |lut| ==> lut[i] == palette(i, maxIter)
  {
    seq(Max(0, maxIter + 1), i => palette(i, maxIter))
  }

  /** Python's `lut[v]`: a negative index counts from the end. */
  function PyIndex<T>(lut: seq<T>, v: int): T
    requires -|lut| <= v < |lut|
  {
    if v < 0 then lut[|lut| + v] else lut[v]
  }

  /**
   * Colour the buffer row by row through the lookup table. Counts outside
   * `-(max_iter + 1) .. max_iter` raise `IndexError` in the source.
   */
  method ApplyPalette(iterations: array2<int>, palette: (int, int) -> Rgb, maxIter: int, height: nat, width: nat)
    returns (pixels: seq<seq<Rgb>>)
    requires height <= iterations.Length0 && width <= iterations.Length1
    requires forall r, c :: 0 <= r < height && 0 <= c < width ==>
      -Max(0, maxIter + 1) <= iterations[r, c] < Max(0, maxIter + 1)
    ensures |pixels| == height
    ensures forall r :: 0 <= r < height ==> |pixels[r]| == width
    ensures forall r, c :: 0 <= r < height && 0 <= c < width ==>
      pixels[r][c] == PyIndex(PaletteLut(palette, maxIter), iterations[r, c])
  {
    var lut := PaletteLut(palette, maxIter);
    pixels := [];
    var py := 0;
    while py < height
      invariant 0 <= py <= height
      invariant |pixels| == py
      invariant forall r :: 0 <= r < py ==> |pixels[r]| == width
      invariant forall r, c :: 0 <= r < py && 0 <= c < width ==> pixels[r][c] == PyIndex(lut, iterations[r, c])
    {
      var row := [];
      var px := 0;
      while px < width
        invariant 0 <= px <= width
        invariant |row| == px
        invariant forall c :: 0 <= c < px ==> row[c] == PyIndex(lut, iterations[py, c])
      {
        row := row + [PyIndex(lut, iterations[py, px])];
        px := px + 1;
      }
      pixels := pixels + [row];
      py := py + 1;
    }
  }

  /** Counts from `0 .. max_iter` index the table from the front. */
  lemma LutIndexInRange(palette: (int, int) -> Rgb, maxIter: int, v: int)
    requires 0 <= v <= maxIter
    ensures PyIndex(PaletteLut(palette, maxIter), v) == palette(v, maxIter)
  {
  }

  // ---------------------------------------------------------------
  // The whole NumPy+multiprocessing path
  // ---------------------------------------------------------------

  /** The reported progress values never go down and stay within `[lo, hi]`. */
  predicate SortedWithin(progress: seq<real>, lo: real, hi: real)
  {
    forall i, j :: 0 <= i <= j < |progress| ==> lo <= progress[i] <= progress[j] <= hi
  }

  /**
   * A `height` by `width` image whose every pixel is the palette colour of
   * the count the chunk owning its row computed for it.
   */
  predicate ChunkImage(chunks: seq<Span>, height: nat, width: nat, maxIter: int,
                       compute: Span -> seq<seq<int>>, palette: (int, int) -> Rgb, pixels: seq<seq<Rgb>>)
    requires Tiles(chunks, height)
    requires forall s: Span :: s.start <= s.end ==> |compute(s)| == s.end - s.start
    requires forall s: Span, i :: s.start <= s.end && 0 <= i < |compute(s)| ==> |compute(s)[i]| == width
  {
    && |pixels| == height
    && (forall r :: 0 <= r < height ==> |pixels[r]| == width)
    && (forall r, c :: 0 <= r < height && 0 <= c < width ==>
          var k := Owner(chunks, r);
          pixels[r][c] == palette(compute(chunks[k])[r - chunks[k].start][c], maxIter))
  }

  /**
   * `_render_numpy_parallel` once the fractal is known: plan the chunks,
   * compute each (`compute` stands for `_calculate_chunk_numpy` in a worker
   * process), merge them in the order `executor.map` yields them, and
   * colour the result. An image of height 0 still gets one empty chunk,
   * whose worker divides by the height: the ZeroDivisionError it raises
   * comes back through `executor.map` after progress 0.1 was reported, and
   * there is no image (`None`).
   */
  method RenderNumpyParallel(workerCount: int, width: nat, height: nat, maxIter: int,
                             compute: Span -> seq<seq<int>>, palette: (int, int) -> Rgb)
    returns (chunks: seq<Span>, pixels: Option<seq<seq<Rgb>>>, progress: seq<real>)
    requires workerCount >= 1
    requires forall s: Span :: s.start <= s.end ==> |compute(s)| == s.end - s.start
    requires forall s: Span, i :: s.start <= s.end && 0 <= i < |compute(s)| ==> |compute(s)[i]| == width
    requires forall s: Span, i, c :: s.start <= s.end && 0 <= i < |compute(s)| && 0 <= c < |compute(s)[i]| ==>
      0 <= compute(s)[i][c] <= maxIter
    ensures |chunks| == NumWorkers(workerCount, height) && Tiles(chunks, height)
    ensures height == 0 ==> pixels == None && progress == [0.1]
    ensures height > 0 ==> pixels.Some?
    ensures pixels.Some? ==> ChunkImage(chunks, height, width, maxIter, compute, palette, pixels.value)
    ensures pixels.Some? ==> |progress| == |chunks| + 3 && progress[|progress| - 1] == 1.0
    ensures progress[0] == 0.1 && SortedWithin(progress, 0.1, 1.0)
  {
    if height == 0 {
      chunks := PlanNoRows(workerCount);
      pixels, progress := None, [0.1];
      return;
    }
    var image;
    chunks, image, progress := RenderChunks(workerCount, width, height, maxIter, compute, palette);
    pixels := Some(image);
  }

  /** The chunk plan of an image without rows: one empty chunk. */
  method PlanNoRows(workerCount: int) returns (chunks: seq<Span>)
    requires workerCount >= 1
    ensures |chunks| == NumWorkers(workerCount, 0) == 1 && Tiles(chunks, 0)
  {
    var numWorkers, rowsPerChunk;
    numWorkers, rowsPerChunk, chunks := PlanChunks(workerCount, 0);
  }

  /** The work of `_render_numpy_parallel` for an image with at least one row. */
  method RenderChunks(workerCount: int, width: nat, height: nat, maxIter: int,
                      compute: Span -> seq<seq<int>>, palette: (int, int) -> Rgb)
    returns (chunks: seq<Span>, pixels: seq<seq<Rgb>>, progress: seq<real>)
    requires workerCount >= 1 && height > 0
    requires forall s: Span :: s.start <= s.end ==> |compute(s)| == s.end - s.start
    requires forall s: Span, i :: s.start <= s.end && 0 <= i < |compute(s)| ==> |compute(s)[i]| == width
    requires forall s: Span, i, c :: s.start <= s.end && 0 <= i < |compute(s)| && 0 <= c < |compute(s)[i]| ==>
      0 <= compute(s)[i][c] <= maxIter
    ensures |chunks| == NumWorkers(workerCount, height) && Tiles(chunks, height)
    ensures ChunkImage(chunks, height, width, maxIter, compute, palette, pixels)
    ensures |progress| == |chunks| + 3 && progress[0] == 0.1 && progress[|progress| - 1] == 1.0
    ensures SortedWithin(progress, 0.1, 1.0)
  {
    var numWorkers, rowsPerChunk;
    numWorkers, rowsPerChunk, chunks := PlanChunks(workerCount, height);
    TilesBounds(chunks, height);
    var results := seq(|chunks|, k requires 0 <= k < |chunks| => compute(chunks[k]));
    var order := seq(|chunks|, k => k);
    forall k | 0 <= k < |chunks|
      ensures k in order
    {
      assert order[k] == k;
    }
    var iterations, mergeProgress := MergeChunks(height, width, chunks, results, order);
    MergeProgressSorted(mergeProgress, |chunks|);
    MergedInRange(chunks, height, width, maxIter, compute, results, iterations);
    CountsIndexTable(height, width, maxIter, iterations);
    pixels := ApplyPalette(iterations, palette, maxIter, height, width);
    progress := mergeProgress + [1.0];
    AppendFinalProgress(mergeProgress);
    PaletteApplied(height, width, maxIter, palette, iterations, pixels);
    ColouredChunks(chunks, height, width, maxIter, compute, palette, results, iterations, pixels);
  }

  /** Reporting `1.0` after a non-decreasing list within `[0.1, 0.8]` keeps it non-decreasing. */
  lemma AppendFinalProgress(progress: seq<real>)
    requires |progress| >= 1 && progress[0] == 0.1
    requires forall i, j :: 0 <= i <= j < |progress| ==> 0.1 <= progress[i] <= progress[j] <= 0.8
    ensures var p := progress + [1.0]; p[0] == 0.1 && p[|p| - 1] == 1.0
    ensures var p := progress + [1.0]; forall i, j :: 0 <= i <= j < |p| ==> 0.1 <= p[i] <= p[j] <= 1.0
  {
  }

  /** A count in `0 .. max_iter` is a valid index into the `max_iter + 1` entry table. */
  lemma CountsIndexTable(height: nat, width: nat, maxIter: int, iterations: array2<int>)
    requires height <= iterations.Length0 && width <= iterations.Length1
    requires forall r, c :: 0 <= r < height && 0 <= c < width ==> 0 <= iterations[r, c] <= maxIter
    ensures forall r, c :: 0 <= r < height && 0 <= c < width ==>
      -Max(0, maxIter + 1) <= iterations[r, c] < Max(0, maxIter + 1)
  {
  }

  /** Every merged count comes from some chunk's computation, so it lies in `0 .. max_iter`. */
  lemma {:induction false} MergedInRange(chunks: seq<Span>, height: nat, width: nat, maxIter: int,
                      compute: Span -> seq<seq<int>>, results: seq<seq<seq<int>>>, iterations: array2<int>)
    requires Tiles(chunks, height) && |results| == |chunks|
    requires forall k :: 0 <= k < |chunks| ==> results[k] == compute(chunks[k])
    requires forall s: Span, i, c :: s.start <= s.end && 0 <= i < |compute(s)| && 0 <= c < |compute(s)[i]| ==>
      0 <= compute(s)[i][c] <= maxIter
    requires forall k :: 0 <= k < |chunks| ==> |results[k]| == chunks[k].end - chunks[k].start
    requires forall k, i :: 0 <= k < |chunks| && 0 <= i < |results[k]| ==> |results[k][i]| == width
    requires iterations.Length0 == height && iterations.Length1 == width
    requires forall r, c :: 0 <= r < height && 0 <= c < width ==>
      var k := Owner(chunks, r);
      iterations[r, c] == results[k][r - chunks[k].start][c]
    ensures forall r, c :: 0 <= r < height && 0 <= c < width ==> 0 <= iterations[r, c] <= maxIter
  {
    TilesBounds(chunks, height);
    forall k, i, c | 0 <= k < |chunks| && 0 <= i < |results[k]| && 0 <= c < |results[k][i]|
      ensures 0 <= results[k][i][c] <= maxIter
    {
      assert results[k] == compute(chunks[k]);
    }
    forall r, c | 0 <= r < height && 0 <= c < width
      ensures 0 <= iterations[r, c] <= maxIter
    {
      var k := Owner(chunks, r);
      var i := r - chunks[k].start;
      assert 0 <= i < |results[k]| && 0 <= c < |results[k][i]|;
      assert iterations[r, c] == results[k][i][c];
    }
  }

  /** Colouring the merged buffer colours each row with the chunk that owns it. */
  lemma {:induction false} ColouredChunks(chunks: seq<Span>, height: nat, width: nat, maxIter: int,
                       compute: Span -> seq<seq<int>>, palette: (int, int) -> Rgb,
                       results: seq<seq<seq<int>>>, iterations: array2<int>, pixels: seq<seq<Rgb>>)
    requires Tiles(chunks, height) && |results| == |chunks|
    requires forall k :: 0 <= k < |chunks| ==> results[k] == compute(chunks[k])
    requires forall k :: 0 <= k < |chunks| ==> |results[k]| == chunks[k].end - chunks[k].start
    requires forall k, i :: 0 <= k < |chunks| && 0 <= i < |results[k]| ==> |results[k][i]| == width
    requires iterations.Length0 == height && iterations.Length1 == width
    requires forall r, c :: 0 <= r < height && 0 <= c < width ==>
      var k := Owner(chunks, r);
      iterations[r, c] == results[k][r - chunks[k].start][c]
    requires |pixels| == height && forall r :: 0 <= r < height ==> |pixels[r]| == width
    requires forall r, c :: 0 <= r < height && 0 <= c < width ==> pixels[r][c] == palette(iterations[r, c], maxIter)
    ensures forall r, c :: 0 <= r < height && 0 <= c < width ==>
      var k := Owner(chunks, r);
      pixels[r][c] == palette(compute(chunks[k])[r - chunks[k].start][c], maxIter)
  {
    forall r, c | 0 <= r < height && 0 <= c < width
      ensures var k := Owner(chunks, r); pixels[r][c] == palette(compute(chunks[k])[r - chunks[k].start][c], maxIter)
    {
      var k := Owner(chunks, r);
      assert results[k] == compute(chunks[k]);
    }
  }

  /** Looking a count up in the palette table gives the palette's colour for it. */
  lemma PaletteApplied(height: nat, width: nat, maxIter: int, palette: (int, int) -> Rgb,
                       iterations: array2<int>, pixels: seq<seq<Rgb>>)
    requires iterations.Length0 == height && iterations.Length1 == width
    requires forall r, c :: 0 <= r < height && 0 <= c < width ==> 0 <= iterations[r, c] <= maxIter
    requires |pixels| == height && forall r :: 0 <= r < height ==> |pixels[r]| == width
    requires forall r, c :: 0 <= r < height && 0 <= c < width ==>
      pixels[r][c] == PyIndex(PaletteLut(palette, maxIter), iterations[r, c])
    ensures forall r, c :: 0 <= r < height && 0 <= c < width ==> pixels[r][c] == palette(iterations[r, c], maxIter)
  {
    forall r, c | 0 <= r < height && 0 <= c < width
      ensures pixels[r][c] == palette(iterations[r, c], maxIter)
    {
      LutIndexInRange(palette, maxIter, iterations[r, c]);
    }
  }

  // ---------------------------------------------------------------
  // `_render_sequential`
  // ---------------------------------------------------------------

  /** `x_min + px * x_step` with `x_step = (x_max - x_min) / width`. */
  function GridX(xMin: real, xMax: real, width: int, px: int): real
    requires width != 0
  {
    xMin + px as real * ((xMax - xMin) / width as real)
  }

  /** `y_min + py * y_step` with `y_step = (y_max - y_min) / height`. */
  function GridY(yMin: real, yMax: real, height: int, py: int): real
    requires height != 0
  {
    yMin + py as real * ((yMax - yMin) / height as real)
  }

  /**
   * One `palette(escape(x, y))` per pixel, row by row; progress `py / height`
   * on every tenth row, then `1.0`. A zero width or height divides by zero
   * in the source.
   */
  method RenderSequential(width: int, height: int, xMin: real, xMax: real, yMin: real, yMax: real, maxIter: int,
                          escape: (real, real, int) -> int, palette: (int, int) -> Rgb)
    returns (pixels: seq<seq<Rgb>>, progress: seq<real>)
    requires width != 0 && height != 0
    ensures |pixels| == Max(0, height)
    ensures forall py :: 0 <= py < |pixels| ==> |pixels[py]| == Max(0, width)
    ensures forall py, px :: 0 <= py < |pixels| && 0 <= px < |pixels[py]| ==>
      pixels[py][px] == palette(escape(GridX(xMin, xMax, width, px), GridY(yMin, yMax, height, py), maxIter), maxIter)
    ensures |progress| == (Max(0, height) + 9) / 10 + 1
    ensures forall j :: 0 <= j < |progress| - 1 ==> progress[j] == (10 * j) as real / height as real
    ensures progress[|progress| - 1] == 1.0
  {
    pixels := [];
    progress := [];
    var py := 0;
    while py < height
      invariant 0 <= py <= Max(0, height)
      invariant |pixels| == py
      invariant forall r :: 0 <= r < py ==> |pixels[r]| == Max(0, width)
      invariant forall r, c :: 0 <= r < py && 0 <= c < |pixels[r]| ==>
        pixels[r][c] == palette(escape(GridX(xMin, xMax, width, c), GridY(yMin, yMax, height, r), maxIter), maxIter)
      invariant |progress| == (py + 9) / 10
      invariant forall j :: 0 <= j < |progress| ==> progress[j] == (10 * j) as real / height as real
    {
      var y := GridY(yMin, yMax, height, py);
      var row := [];
      var px := 0;
      while px < width
        invariant 0 <= px <= Max(0, width)
        invariant |row| == px
        invariant forall c :: 0 <= c < px ==> row[c] == palette(escape(GridX(xMin, xMax, width, c), y, maxIter), maxIter)
      {
        row := row + [palette(escape(GridX(xMin, xMax, width, px), y, maxIter), maxIter)];
        px := px + 1;
      }
      pixels := pixels + [row];
      TenthRowStep(py);
      if py % 10 == 0 {
        progress := progress + [py as real / height as real];
      }
      py := py + 1;
    }
    progress := progress + [1.0];
  }

  /** How the count of reports `(py + 9) / 10` moves as row `py` is finished. */
  lemma TenthRowStep(py: nat)
    ensures py % 10 == 0 ==> 10 * ((py + 9) / 10) == py && (py + 10) / 10 == (py + 9) / 10 + 1
    ensures py % 10 != 0 ==> (py + 10) / 10 == (py + 9) / 10
  {
  }

  /** The progress of the sequential path never goes down, stays in `[0, 1]` and ends at `1.0`. */
  lemma SequentialProgressSorted(height: int, progress: seq<real>)
    requires height > 0
    requires |progress| == (height + 9) / 10 + 1
    requires forall j :: 0 <= j < |progress| - 1 ==> progress[j] == (10 * j) as real / height as real
    requires progress[|progress| - 1] == 1.0
    ensures forall i, j :: 0 <= i <= j < |progress| ==> 0.0 <= progress[i] <= progress[j] <= 1.0
  {
    var h := height as real;
    forall i, j | 0 <= i <= j < |progress|
      ensures 0.0 <= progress[i] <= progress[j] <= 1.0
    {
      var a := if i == |progress| - 1 then height else 10 * i;
      var b := if j == |progress| - 1 then height else 10 * j;
      DivideMonotone(0.0, a as real, h);
      DivideMonotone(a as real, b as real, h);
      DivideMonotone(b as real, h, h);
    }
  }

  // ---------------------------------------------------------------
  // Row coordinates of a chunk
  // ---------------------------------------------------------------

  /** `np.linspace(start, stop, num, endpoint=False)[i]`. */
  function LinspaceOpen(start: real, stop: real, num: nat, i: nat): real
    requires i < num
  {
    start + i as real * ((stop - start) / num as real)
  }

  /** Row `i` of chunk `s` as `_calculate_chunk_numpy` places it. */
  function ChunkRowY(yMin: real, yMax: real, height: int, s: Span, i: nat): real
    requires height != 0 && 0 <= s.start && i < Length(s)
  {
    var yStep := (yMax - yMin) / height as real;
    LinspaceOpen(yMin + s.start as real * yStep, yMin + s.end as real * yStep, Length(s), i)
  }

  /**
   * A chunk's rows sit at the y coordinates of the sequential grid. (Only
   * the rows: the columns of a chunk are placed differently, see
   * `ChunkColumnsLeaveSequentialGrid`.)
   */
  lemma ChunkRowsMatchSequential(yMin: real, yMax: real, height: int, s: Span, i: nat)
    requires height != 0 && 0 <= s.start && i < Length(s)
    ensures ChunkRowY(yMin, yMax, height, s, i) == GridY(yMin, yMax, height, s.start + i)
  {
    var yStep := (yMax - yMin) / height as real;
    var n := Length(s) as real;
    assert n != 0.0;
    assert (yMin + s.end as real * yStep) - (yMin + s.start as real * yStep) == n * yStep;
    assert (n * yStep) / n == yStep;
  }

  // ---------------------------------------------------------------
  // Column coordinates of a chunk
  // ---------------------------------------------------------------

  /** `np.linspace(start, stop, num)[i]`: the end point is included, and a single value is `start`. */
  function LinspaceClosed(start: real, stop: real, num: nat, i: nat): real
    requires i < num
  {
    if num == 1 then start else start + i as real * ((stop - start) / (num - 1) as real)
  }

  /** Column `px` as `_calculate_chunk_numpy` places it: `np.linspace(x_min, x_max, width)[px]`. */
  function ChunkColumnX(xMin: real, xMax: real, width: nat, px: nat): (x: real)
    requires px < width
    ensures px == 0 ==> x == xMin
    ensures width >= 2 && px == width - 1 ==> x == xMax
  {
    LinspaceClosed(xMin, xMax, width, px)
  }

  /**
   * The chunks and the sequential path agree on the first column only: over
   * a view of non-zero width every later column of a chunk lies elsewhere
   * than the sequential path's column, whose grid stops one step short of
   * `x_max`.
   */
  lemma ChunkColumnsLeaveSequentialGrid(xMin: real, xMax: real, width: nat, px: nat)
    requires 0 < px < width && xMin != xMax
    ensures ChunkColumnX(xMin, xMax, width, px) != GridX(xMin, xMax, width, px)
    ensures ChunkColumnX(xMin, xMax, width, 0) == GridX(xMin, xMax, width, 0)
    ensures GridX(xMin, xMax, width, width - 1) == xMax - (xMax - xMin) / width as real
  {
    var d := xMax - xMin;
    var a := d / (width - 1) as real;
    var b := d / width as real;
    assert a * (width - 1) as real == d;
    assert b * width as real == d;
    assert a != b by {
      assert a * width as real - a == d;
    }
    assert (width - 1) as real * b == d - b;
  }
}
