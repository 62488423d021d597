/**
 * `ParallelRenderer` of python-glm-4.7-reap-218b-a32b-i1-opencode/rendering/parallel.py:
 * the worker count, the split of the image rows among the workers (the
 * last one takes the remainder), the per-row work of `_render_worker`, and
 * the loop that writes each returned row into the image and reports
 * progress.
 *
 * `pool.imap` hands back the workers' results in the order of
 * `worker_args`, so the model runs the workers one after another in that
 * order. The fractal and palette objects are the parameters
 * `escape(x, y, max_iter)` (`compute_pixel`, a real such as a smoothed
 * iteration count) and `colour(value, max_iter)` (`get_color`, which takes
 * that real).
 */
module GlmParallelModel {
  import opened RowPartition
  import opened Colour
  import opened Wrappers
  import opened Numeric

  /** `x_min + (px + 0.5) * dx`: the centre of column `px`. */
  function CentreX(xMin: real, xMax: real, width: int, px: int): real
    requires width != 0
  {
    xMin + (px as real + 0.5) * ((xMax - xMin) / width as real)
  }

  /** `y_max - (py + 0.5) * dy`: the centre of row `py`, counted down from the top. */
  function CentreY(yMin: real, yMax: real, height: int, py: int): real
    requires height != 0
  {
    yMax - (py as real + 0.5) * ((yMax - yMin) / height as real)
  }

  /** The pixel at column `px` of row `py`. */
  function PixelColour(escape: (real, real, int) -> real, colour: (real, int) -> Rgb,
                       xMin: real, xMax: real, yMin: real, yMax: real,
                       width: int, height: int, maxIter: int, px: int, py: int): Rgb
    requires width != 0 && height != 0
  {
    colour(escape(CentreX(xMin, xMax, width, px), CentreY(yMin, yMax, height, py), maxIter), maxIter)
  }

  /** Row `py` of the image, `width` pixels. */
  function ImageRow(escape: (real, real, int) -> real, colour: (real, int) -> Rgb,
                    xMin: real, xMax: real, yMin: real, yMax: real,
                    width: nat, height: int, maxIter: int, py: int): (row: seq<Rgb>)
    requires width != 0 && height != 0
    ensures |row| == width
  {
    seq(width, px => PixelColour(escape, colour, xMin, xMax, yMin, yMax, width, height, maxIter, px, py))
  }

  /** The centre of cell `k` of `n` equal cells of `[lo, hi]` lies strictly inside it. */
  lemma CellCentreInside(lo: real, hi: real, n: int, k: int)
    requires lo < hi && 0 <= k < n
    ensures lo < lo + (k as real + 0.5) * ((hi - lo) / n as real) < hi
  {
    var d := (hi - lo) / n as real;
    assert d > 0.0;
    assert d * n as real == hi - lo;
    var t := k as real + 0.5;
    assert t < n as real;
    assert n as real * d - t * d == (n as real - t) * d;
    assert (n as real - t) * d > 0.0;
  }

  /** Every sampled point lies strictly inside the view, rows running from the top down. */
  lemma CentresInsideView(xMin: real, xMax: real, yMin: real, yMax: real, width: int, height: int, px: int, py: int)
    requires xMin < xMax && yMin < yMax
    requires 0 <= px < width && 0 <= py < height
    ensures xMin < CentreX(xMin, xMax, width, px) < xMax
    ensures yMin < CentreY(yMin, yMax, height, py) < yMax
    ensures py + 1 < height ==> CentreY(yMin, yMax, height, py + 1) < CentreY(yMin, yMax, height, py)
  {
    CellCentreInside(xMin, xMax, width, px);
    CellCentreInside(yMin, yMax, height, py);
    var dy := (yMax - yMin) / height as real;
    assert dy > 0.0;
    assert CentreY(yMin, yMax, height, py) == yMax - (py as real + 0.5) * dy;
    assert yMax - (py as real + 0.5) * dy - yMin == (yMin + (height as real - py as real - 0.5) * dy) - yMin by {
      assert dy * height as real == yMax - yMin;
    }
  }

  /**
   * `_render_worker`: one `(py, row)` pair per requested row index, in the
   * order the indices were given.
   */
  method RenderWorker(escape: (real, real, int) -> real, colour: (real, int) -> Rgb, rowIndices: seq<int>,
                      xMin: real, xMax: real, yMin: real, yMax: real, width: nat, height: int, maxIter: int)
    returns (results: seq<(int, seq<Rgb>)>)
    requires width > 0 && height != 0
    ensures |results| == |rowIndices|
    ensures forall j :: 0 <= j < |results| ==> results[j].0 == rowIndices[j]
    ensures forall j :: 0 <= j < |results| ==>
      results[j].1 == ImageRow(escape, colour, xMin, xMax, yMin, yMax, width, height, maxIter, rowIndices[j])
  {
    results := [];
    var j := 0;
    while j < |rowIndices|
      invariant 0 <= j <= |rowIndices|
      invariant |results| == j
      invariant forall i :: 0 <= i < j ==> results[i].0 == rowIndices[i]
      invariant forall i :: 0 <= i < j ==>
        results[i].1 == ImageRow(escape, colour, xMin, xMax, yMin, yMax, width, height, maxIter, rowIndices[i])
    {
      var py := rowIndices[j];
      var rgbRow := [];
      var px := 0;
      while px < width
        invariant 0 <= px <= width
        invariant |rgbRow| == px
        invariant forall c :: 0 <= c < px ==>
          rgbRow[c] == PixelColour(escape, colour, xMin, xMax, yMin, yMax, width, height, maxIter, c, py)
      {
        rgbRow := rgbRow + [PixelColour(escape, colour, xMin, xMax, yMin, yMax, width, height, maxIter, px, py)];
        px := px + 1;
      }
      results := results + [(py, rgbRow)];
      j := j + 1;
    }
  }

  /** `list(range(start, end))`. */
  function Range(start: int, end: int): (r: seq<int>)
    ensures |r| == Max(0, end - start)
    ensures forall i :: 0 <= i < |r| ==> r[i] == start + i
  {
    seq(Max(0, end - start), i => start + i)
  }

  class ParallelRenderer {
    /** The number of worker processes. */
    var workers: int

    /**
     * `workers` as given, or one fewer than the CPUs when none is given;
     * never below one.
     */
    constructor(requested: Option<int>, cpus: int)
      ensures workers >= 1
      ensures requested.Some? ==> workers == Max(1, requested.value)
      ensures requested.None? ==> workers == Max(1, cpus - 1)
    {
      workers := if requested.None? then Max(1, cpus - 1) else Max(1, requested.value);
    }

    /**
     * The row ranges of `worker_args`: `workers` ranges of `height // workers`
     * rows, the last one running to `height`.
     */
    method PlanRows(height: nat) returns (spans: seq<Span>)
      requires workers >= 1
      ensures |spans| == workers
      ensures Tiles(spans, height)
      ensures forall i :: 0 <= i < |spans| - 1 ==> Length(spans[i]) == height / workers
      ensures Length(spans[|spans| - 1]) == height / workers + height % workers
    {
      var rowsPerWorker := height / workers;
      DivisionParts(height, workers);
      spans := [];
      var i := 0;
      while i < workers
        invariant 0 <= i <= workers
        invariant |spans| == i
        invariant forall j :: 0 <= j < i ==> spans[j].start == j * rowsPerWorker
        invariant forall j :: 0 <= j < i && j != workers - 1 ==> spans[j].end == spans[j].start + rowsPerWorker
        invariant forall j :: 0 <= j < i ==> spans[j].start <= spans[j].end
        invariant forall j :: 0 <= j < i - 1 ==> spans[j].end == spans[j + 1].start
        invariant 0 < i < workers ==> spans[i - 1].end == i * rowsPerWorker
        invariant i == workers ==> spans[i - 1].end == height
      {
        var startRow := i * rowsPerWorker;
        var endRow := if i == workers - 1 then height else startRow + rowsPerWorker;
        MulStep(i, rowsPerWorker);
        spans := spans + [Span(startRow, endRow)];
        i := i + 1;
      }
    }

    /**
     * `render`: every row `py` of the `height` by `width` image is the row
     * the worker computes for it; progress `(completed, height)` is reported
     * after every tenth row written and once more as `(height, height)`.
     */
    method Render(escape: (real, real, int) -> real, colour: (real, int) -> Rgb,
                  xMin: real, xMax: real, yMin: real, yMax: real, width: nat, height: nat, maxIter: int)
      returns (result: array<seq<Rgb>>, completed: int, progress: seq<(int, int)>)
      requires workers >= 1
      requires width > 0 && height > 0
      ensures result.Length == height
      ensures forall py :: 0 <= py < height ==>
        result[py] == ImageRow(escape, colour, xMin, xMax, yMin, yMax, width, height, maxIter, py)
      ensures completed == height
      ensures |progress| == height / 10 + 1
      ensures forall j :: 0 <= j < |progress| - 1 ==> progress[j] == (10 * (j + 1), height)
      ensures progress[|progress| - 1] == (height, height)
    {
      result := new seq<Rgb>[height](_ => seq(width, _ => Rgb(0, 0, 0)));
      var spans := PlanRows(height);
      TilesBounds(spans, height);
      completed := 0;
      progress := [];
      var i := 0;
      while i < |spans|
        invariant 0 <= i <= |spans|
        invariant completed == if i < |spans| then spans[i].start else height
        invariant forall py :: 0 <= py < completed ==>
          result[py] == ImageRow(escape, colour, xMin, xMax, yMin, yMax, width, height, maxIter, py)
        invariant |progress| == completed / 10
        invariant forall j :: 0 <= j < |progress| ==> progress[j] == (10 * (j + 1), height)
      {
        var rowIndices := Range(spans[i].start, spans[i].end);
        var workerResults := RenderWorker(escape, colour, rowIndices, xMin, xMax, yMin, yMax, width, height, maxIter);
        var j := 0;
        while j < |workerResults|
          invariant 0 <= j <= |workerResults|
          invariant completed == spans[i].start + j
          invariant forall py :: 0 <= py < completed ==>
            result[py] == ImageRow(escape, colour, xMin, xMax, yMin, yMax, width, height, maxIter, py)
          invariant |progress| == completed / 10
          invariant forall j' :: 0 <= j' < |progress| ==> progress[j'] == (10 * (j' + 1), height)
        {
          var (py, rgbRow) := workerResults[j];
          result[py] := rgbRow;
          completed := completed + 1;
          if completed % 10 == 0 {
            progress := progress + [(completed, height)];
          }
          j := j + 1;
        }
        i := i + 1;
      }
      progress := progress + [(height, height)];
    }
  }

  /** The reported row counts never go down and end at `height`. */
  lemma RenderProgressSorted(height: nat, progress: seq<(int, int)>)
    requires |progress| == height / 10 + 1
    requires forall j :: 0 <= j < |progress| - 1 ==> progress[j] == (10 * (j + 1), height)
    requires progress[|progress| - 1] == (height, height)
    ensures height > 0 ==> forall i :: 0 <= i < |progress| ==> progress[i].0 > 0
    ensures forall i, j :: 0 <= i <= j < |progress| ==> progress[i].0 <= progress[j].0 <= height
    ensures forall i :: 0 <= i < |progress| ==> progress[i].1 == height
  {
    forall i, j | 0 <= i <= j < |progress|
      ensures progress[i].0 <= progress[j].0 <= height
    {
      if j < |progress| - 1 {
        assert 10 * (j + 1) <= height;
      }
    }
  }
}
