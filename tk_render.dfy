/**
 * The rendering bookkeeping of the Tkinter generator
 * (python-minimax-v2.1/fractal_gen_tk/main.py): the class-name to factory-key
 * conversion the parallel workers use, the split of the image into
 * horizontal strips, putting the strips' results back together, the
 * y coordinate each strip gives its rows, and the palette lookup that turns
 * iteration counts into colours.
 *
 * The escape-time computation itself (`fractal.calculate`) and the process
 * pool are not modelled: a strip's result is an input of the merge.
 *
 * `_compute_strip` places row `r` at `y_max - r/height * (y_max - y_min)`,
 * while the sequential grid `linspace(y_max, y_min, height)` places it at
 * `y_max - r/(height-1) * (y_max - y_min)`. `StripRowYAsWritten` models the
 * former and `StripRowYAsWrittenDisagrees` exhibits the difference;
 * `StripRowY` takes each strip's end points from the sequential grid, and
 * `StripRowYMatchesSequential` proves that it reproduces that grid.
 */
module TkRenderModel {
  import opened Text
  import opened Colour
  import opened RowPartition
  import TkFractalFactoryModel
  import Wrappers
  import opened Numeric

  // ---------------------------------------------------------------
  // `_camel_to_snake`
  // ---------------------------------------------------------------

  /** What `re.sub(r'(?<!^)(?=[A-Z])', '_', ...)` does at one non-initial character. */
  function Mark(c: char): string { if IsUpper(c) then ['_', c] else [c] }

  /** Every capital of `s` gets an underscore in front of it. */
  function MarkCapitals(s: string): string
  {
    if s == [] then [] else Mark(s[0]) + MarkCapitals(s[1..])
  }

  /** The substitution: an underscore before every capital except at the start. */
  function Underscored(name: string): string
  {
    if name == [] then [] else [name[0]] + MarkCapitals(name[1..])
  }

  /** `_camel_to_snake` */
  function CamelToSnake(name: string): (r: string)
    ensures forall i :: 0 <= i < |r| ==> !IsUpper(r[i])
  {
    Lower(Underscored(name))
  }

  /** `s` with its underscores removed. */
  function DropUnderscores(s: string): string
  {
    if s == [] then [] else (if s[0] == '_' then [] else [s[0]]) + DropUnderscores(s[1..])
  }

  lemma {:induction false} DropUnderscoresConcat(a: string, b: string)
    ensures DropUnderscores(a + b) == DropUnderscores(a) + DropUnderscores(b)
  {
    if a == [] {
      assert a + b == b;
    } else {
      assert (a + b)[0] == a[0];
      assert (a + b)[1..] == a[1..] + b;
      DropUnderscoresConcat(a[1..], b);
    }
  }

  lemma {:induction false} DropMarkCapitals(s: string)
    requires !Contains(s, '_')
    ensures DropUnderscores(MarkCapitals(s)) == s
  {
    if s != [] {
      assert !Contains(s[1..], '_') by {
        forall i | 0 <= i < |s[1..]|
          ensures s[1..][i] != '_'
        {
          assert s[1..][i] == s[i + 1];
        }
      }
      DropMarkCapitals(s[1..]);
      DropUnderscoresConcat(Mark(s[0]), MarkCapitals(s[1..]));
      assert s[0] != '_';
      assert DropUnderscores(Mark(s[0])) == [s[0]];
      assert [s[0]] + s[1..] == s;
    }
  }

  lemma {:induction false} DropUnderscoresLower(s: string)
    ensures DropUnderscores(Lower(s)) == Lower(DropUnderscores(s))
  {
    if s != [] {
      DropUnderscoresLower(s[1..]);
      assert Lower(s) == [LowerChar(s[0])] + Lower(s[1..]);
      DropUnderscoresConcat([LowerChar(s[0])], Lower(s[1..]));
      LowerConcat(if s[0] == '_' then [] else [s[0]], DropUnderscores(s[1..]));
    }
  }

  /**
   * For a name without underscores the conversion only inserts underscores
   * and lowers the case: removing the underscores again gives the name in
   * lower case.
   */
  lemma {:induction false} CamelToSnakeOnlyInsertsUnderscores(name: string)
    requires !Contains(name, '_')
    ensures DropUnderscores(CamelToSnake(name)) == Lower(name)
  {
    if name != [] {
      assert !Contains(name[1..], '_') by {
        forall i | 0 <= i < |name[1..]|
          ensures name[1..][i] != '_'
        {
          assert name[1..][i] == name[i + 1];
        }
      }
      DropMarkCapitals(name[1..]);
      DropUnderscoresConcat([name[0]], MarkCapitals(name[1..]));
      assert name[0] != '_';
      assert [name[0]] + name[1..] == name;
      DropUnderscoresLower(Underscored(name));
    }
  }

  lemma {:induction false} MarkCapitalsConcat(a: string, b: string)
    ensures MarkCapitals(a + b) == MarkCapitals(a) + MarkCapitals(b)
  {
    if a == [] {
      assert a + b == b;
    } else {
      assert (a + b)[0] == a[0];
      assert (a + b)[1..] == a[1..] + b;
      MarkCapitalsConcat(a[1..], b);
    }
  }

  lemma {:induction false} MarkNoCapitals(s: string)
    requires NoCapitals(s)
    ensures MarkCapitals(s) == s
  {
    if s != [] {
      MarkNoCapitals(s[1..]);
      assert [s[0]] + s[1..] == s;
    }
  }

  /** A word whose only capital is its first letter is just lowered. */
  lemma CamelOneWord(name: string)
    requires name != [] && NoCapitals(name[1..])
    ensures Underscored(name) == name
  {
    MarkNoCapitals(name[1..]);
    assert [name[0]] + name[1..] == name;
  }

  lemma {:induction false} MarkOneCapital(a: string, c: char, b: string)
    requires NoCapitals(a)
    requires NoCapitals(b)
    requires IsUpper(c)
    ensures MarkCapitals(a + [c] + b) == a + ['_', c] + b
  {
    MarkNoCapitals(a);
    MarkNoCapitals(b);
    var cb := [c] + b;
    assert a + [c] + b == a + cb;
    MarkCapitalsConcat(a, cb);
    assert cb[0] == c && cb[1..] == b;
    assert Mark(c) == ['_', c];
    assert MarkCapitals(cb) == Mark(c) + MarkCapitals(b);
    assert MarkCapitals(a + cb) == a + (['_', c] + b);
    assert a + (['_', c] + b) == a + ['_', c] + b;
  }

  /** Two capitalised words, the second starting at `k`, are joined by one underscore. */
  lemma CamelTwoWords(name: string, k: int)
    requires 1 <= k < |name|
    requires NoCapitals(name[1..k]) && IsUpper(name[k]) && NoCapitals(name[k + 1..])
    ensures Underscored(name) == name[..k] + "_" + name[k..]
  {
    var a, d, b := name[1..k], name[k], name[k + 1..];
    assert name[1..] == a + [d] + b;
    MarkOneCapital(a, d, b);
    assert name[..k] == [name[0]] + a;
    assert name[k..] == [d] + b;
  }

  /** A one-word class name converts to its lower-cased letters. */
  lemma SnakeOneWord(name: string, key: string)
    requires name != [] && NoCapitals(name[1..])
    requires |name| == |key| && forall i :: 0 <= i < |name| ==> LowerChar(name[i]) == key[i]
    ensures CamelToSnake(name) == key
  {
    CamelOneWord(name);
    LowerByCharacters(name, key);
  }

  lemma LowerBurningShip() ensures var n := "BurningShip"; Lower(n[..7] + "_" + n[7..]) == "burning_ship"
  {
    var n := "BurningShip";
    LowerByCharacters(n[..7] + "_" + n[7..], "burning_ship");
  }

  predicate NoCapitals(s: string) { forall i :: 0 <= i < |s| ==> !IsUpper(s[i]) }

  /** The Python class names of the built-in fractals, position for position with the factory's keys. */
  const ClassNames: seq<string> := ["Mandelbrot", "Julia", "Julia3", "BurningShip", "Collatz", "Multibrot", "Phoenix"]

  lemma SnakeBurningShip() ensures CamelToSnake("BurningShip") == "burning_ship"
  {
    var n := "BurningShip";
    assert NoCapitals(n[1..7]) && IsUpper(n[7]) && NoCapitals(n[8..]);
    CamelTwoWords(n, 7);
    LowerBurningShip();
  }

  /** Each built-in class name converts to the key the factory registered it under. */
  lemma ClassNameConvertsToFactoryKey(i: int)
    requires 0 <= i < 7
    ensures CamelToSnake(ClassNames[i]) == TkFractalFactoryModel.BuiltinKeys[i]
  {
    var names, keys := ClassNames, TkFractalFactoryModel.BuiltinKeys;
    if i == 3 {
      assert names[i] == "BurningShip" && keys[i] == "burning_ship";
      SnakeBurningShip();
    } else {
      var n, k := names[i], keys[i];
      assert i == 0 ==> n == "Mandelbrot" && k == "mandelbrot";
      assert i == 1 ==> n == "Julia" && k == "julia";
      assert i == 2 ==> n == "Julia3" && k == "julia3";
      assert i == 4 ==> n == "Collatz" && k == "collatz";
      assert i == 5 ==> n == "Multibrot" && k == "multibrot";
      assert i == 6 ==> n == "Phoenix" && k == "phoenix";
      SnakeOneWord(n, k);
    }
  }

  /**
   * A worker process re-creates the fractal from the converted class name,
   * and for every built-in fractal the factory gives back the same class.
   */
  lemma WorkerRecreatesSameFractal(i: int)
    requires 0 <= i < 7
    ensures TkFractalFactoryModel.CreateIn(TkFractalFactoryModel.Builtin(), Wrappers.Some(CamelToSnake(ClassNames[i])))
      == TkFractalFactoryModel.FractalClass(ClassNames[i])
  {
    ClassNameConvertsToFactoryKey(i);
    TkFractalFactoryModel.DisplayNameAndKeyAgree(i);
    BuiltinClassAt(i);
  }

  /** The factory's built-in table stores each class under its converted name. */
  lemma BuiltinClassAt(i: int)
    requires 0 <= i < 7
    ensures TkFractalFactoryModel.Builtin().fractals[TkFractalFactoryModel.BuiltinKeys[i]]
      == TkFractalFactoryModel.FractalClass(ClassNames[i])
  {
    TkFractalFactoryModel.BuiltinTables(i);
  }

  // ---------------------------------------------------------------
  // Strips
  // ---------------------------------------------------------------

  /** The number of worker processes: at least one, and at most one per two rows. */
  function Workers(numWorkers: int, height: nat): (w: int)
    ensures 1 <= w <= Max(1, height / 2)
    ensures numWorkers >= 1 ==> w <= numWorkers
    ensures 1 <= numWorkers <= height / 2 ==> w == numWorkers
  {
    Max(1, Min(numWorkers, Max(1, height / 2)))
  }

  /** The height of every strip but possibly the last. */
  function StripHeight(height: nat, workers: int): (h: int)
    requires workers >= 1
    ensures h >= 1
    ensures h <= Max(1, height)
  {
    Max(1, height / workers)
  }

  /**
   * The strip list of `_compute_fractal`: strips of `stripH` rows from the
   * top, the last one cut off at `height`.
   */
  method PlanStrips(height: nat, numWorkers: int) returns (workers: int, stripH: int, strips: seq<Span>)
    ensures workers == Workers(numWorkers, height) && stripH == StripHeight(height, workers)
    ensures Tiles(strips, height)
    ensures forall k :: 0 <= k < |strips| - 1 ==> strips[k + 1].start == strips[k].start + stripH
    ensures forall k :: 0 <= k < |strips| ==> strips[k].end == Min(strips[k].start + stripH, height)
    ensures forall k :: 0 <= k < |strips| ==> strips[k].start < strips[k].end
  {
    workers := Workers(numWorkers, height);
    stripH := StripHeight(height, workers);
    strips := [];
    var ys := 0;
    while ys < height
      invariant 0 <= ys
      invariant StripsBelow(strips, ys, stripH, height)
      decreases height - ys
    {
      var ye := Min(ys + stripH, height);
      StripAppend(strips, ys, stripH, height);
      strips := strips + [Span(ys, ye)];
      ys := ys + stripH;
    }
  }

  /** Strips of `stripH` rows, each cut off at `height`, one after another from row 0. */
  predicate StripShape(strips: seq<Span>, stripH: int, height: int)
  {
    && (forall k :: 0 <= k < |strips| - 1 ==> strips[k + 1].start == strips[k].start + stripH)
    && (forall k :: 0 <= k < |strips| ==> strips[k].end == Min(strips[k].start + stripH, height))
    && (forall k :: 0 <= k < |strips| ==> strips[k].start < strips[k].end)
  }

  /** The strips made before row `ys`, the loop's invariant. */
  predicate StripsBelow(strips: seq<Span>, ys: int, stripH: int, height: int)
  {
    && StripShape(strips, stripH, height)
    && Contiguous(strips)
    && (strips == [] ==> ys == 0)
    && (strips != [] ==> strips[0].start == 0 && strips[|strips| - 1].end == Min(ys, height))
    && (strips != [] ==> ys == strips[|strips| - 1].start + stripH)
  }

  /** One more strip from row `ys` keeps the invariant, and the strips tile the image once `ys` reaches `height`. */
  lemma StripAppend(strips: seq<Span>, ys: int, stripH: int, height: int)
    requires StripsBelow(strips, ys, stripH, height) && 0 <= ys < height && stripH >= 1
    ensures StripsBelow(strips + [Span(ys, Min(ys + stripH, height))], ys + stripH, stripH, height)
    ensures ys + stripH >= height ==> Tiles(strips + [Span(ys, Min(ys + stripH, height))], height)
  {
    var last := Span(ys, Min(ys + stripH, height));
    var next := strips + [last];
    assert next[|strips|] == last;
    forall k | 0 <= k < |strips| ensures next[k] == strips[k] { }
    forall k | 0 <= k < |next| - 1
      ensures next[k + 1].start == next[k].start + stripH
      ensures next[k].end == next[k + 1].start
    {
      if k + 1 == |strips| {
        assert next[k] == strips[|strips| - 1];
      }
    }
    forall k | 0 <= k < |next|
      ensures next[k].end == Min(next[k].start + stripH, height)
      ensures next[k].start < next[k].end
    {
    }
    assert StripShape(next, stripH, height);
    assert Contiguous(next);
  }

  /** The strip list is `range(0, height, stripH)`: strip `k` starts at row `k * stripH`. */
  lemma {:induction false} StripStartsAreMultiples(strips: seq<Span>, stripH: int, k: int)
    requires strips != [] && strips[0].start == 0
    requires forall j :: 0 <= j < |strips| - 1 ==> strips[j + 1].start == strips[j].start + stripH
    requires 0 <= k < |strips|
    ensures strips[k].start == k * stripH
  {
    if k > 0 {
      StripStartsAreMultiples(strips, stripH, k - 1);
    }
  }

  /**
   * Writing each strip's rows into `result[ys:ye]`, in the order of the
   * strip list. `fill` is the value the result starts with. Every row ends
   * up holding the row its owning strip computed for it.
   */
  method MergeStrips<T>(height: nat, strips: seq<Span>, data: seq<seq<T>>, fill: T) returns (result: array<T>)
    requires Tiles(strips, height)
    requires |data| == |strips|
    requires forall k :: 0 <= k < |strips| ==> |data[k]| == strips[k].end - strips[k].start
    ensures result.Length == height
    ensures forall r :: 0 <= r < height ==>
      var k := Owner(strips, r);
      result[r] == data[k][r - strips[k].start]
  {
    TilesBounds(strips, height);
    ContiguousOrderedAll(strips);
    result := new T[height](_ => fill);
    var k := 0;
    while k < |strips|
      invariant 0 <= k <= |strips|
      invariant forall j, i :: 0 <= j < k && 0 <= i < |data[j]| ==> result[strips[j].start + i] == data[j][i]
    {
      var ys, ye := strips[k].start, strips[k].end;
      var r := ys;
      while r < ye
        invariant ys <= r <= ye
        invariant forall j, i :: 0 <= j < k && 0 <= i < |data[j]| ==> result[strips[j].start + i] == data[j][i]
        invariant forall i :: 0 <= i < r - ys ==> result[ys + i] == data[k][i]
      {
        result[r] := data[k][r - ys];
        r := r + 1;
      }
      k := k + 1;
    }
    StripRowsOwned(height, strips, data, result[..]);
  }

  /** Once every strip's rows are written, each row holds its owner's data. */
  lemma {:induction false} StripRowsOwned<T>(height: nat, strips: seq<Span>, data: seq<seq<T>>, rows: seq<T>)
    requires Tiles(strips, height) && |rows| == height
    requires |data| == |strips|
    requires forall k :: 0 <= k < |strips| ==> |data[k]| == strips[k].end - strips[k].start
    requires forall j, i :: 0 <= j < |strips| && 0 <= i < |data[j]| ==>
      0 <= strips[j].start + i < |rows| && rows[strips[j].start + i] == data[j][i]
    ensures forall r :: 0 <= r < height ==>
      var k := Owner(strips, r);
      rows[r] == data[k][r - strips[k].start]
  {
    forall r | 0 <= r < height
      ensures var o := Owner(strips, r); rows[r] == data[o][r - strips[o].start]
    {
      TilesCover(strips, height, r);
      var o := Owner(strips, r);
      var i := r - strips[o].start;
      assert 0 <= i < |data[o]|;
      assert rows[strips[o].start + i] == data[o][i];
    }
  }

  // ---------------------------------------------------------------
  // Row coordinates
  // ---------------------------------------------------------------

  /** `np.linspace(start, stop, num)[i]`, end point included. */
  function Linspace(start: real, stop: real, num: nat, i: nat): real
    requires i < num
  {
    if num == 1 then start else start + (i as real) * ((stop - start) / ((num - 1) as real))
  }

  /** The y coordinate of row `r` in the sequential grid `np.linspace(y_max, y_min, height)`. */
  function SequentialRowY(yMin: real, yMax: real, height: nat, r: nat): (y: real)
    requires r < height
    ensures r == 0 ==> y == yMax
    ensures height > 1 && r == height - 1 ==> y == yMin
  {
    Linspace(yMax, yMin, height, r)
  }

  /** Row `i` of a strip as `_compute_strip` computes it. */
  function StripRowYAsWritten(yMin: real, yMax: real, height: nat, s: Span, i: nat): real
    requires 0 <= s.start < s.end <= height && i < Length(s)
  {
    var span := yMax - yMin;
    Linspace(yMax - (s.start as real / height as real) * span,
             yMax - ((s.end - 1) as real / height as real) * span,
             Length(s), i)
  }

  /** `_compute_strip` places image row `r` at `y_max - r/height * (y_max - y_min)`. */
  lemma StripRowYAsWrittenIs(yMin: real, yMax: real, height: nat, s: Span, i: nat)
    requires 0 <= s.start < s.end <= height && i < Length(s)
    ensures StripRowYAsWritten(yMin, yMax, height, s, i)
      == yMax - ((s.start + i) as real / height as real) * (yMax - yMin)
  {
    var span := yMax - yMin;
    var n := Length(s);
    if n > 1 {
      var a := yMax - (s.start as real / height as real) * span;
      var b := yMax - ((s.end - 1) as real / height as real) * span;
      var step := span / height as real;
      assert b - a == -((n - 1) as real * step);
      assert (b - a) / ((n - 1) as real) == -step;
      assert a + (i as real) * (-step) == yMax - ((s.start + i) as real / height as real) * span;
    }
  }

  /**
   * With a two-row image computed as one strip, the bottom row of the
   * parallel image lies half-way up instead of at `y_min`.
   */
  lemma StripRowYAsWrittenDisagrees()
    ensures StripRowYAsWritten(0.0, 1.0, 2, Span(0, 2), 1) == 0.5
    ensures SequentialRowY(0.0, 1.0, 2, 1) == 0.0
  {
    StripRowYAsWrittenIs(0.0, 1.0, 2, Span(0, 2), 1);
  }

  /** Row `i` of a strip whose end points are taken from the sequential grid. */
  function StripRowY(yMin: real, yMax: real, height: nat, s: Span, i: nat): real
    requires 0 <= s.start < s.end <= height && i < Length(s)
  {
    Linspace(SequentialRowY(yMin, yMax, height, s.start),
             SequentialRowY(yMin, yMax, height, s.end - 1),
             Length(s), i)
  }

  /** A strip's rows land exactly on the sequential grid. */
  lemma StripRowYMatchesSequential(yMin: real, yMax: real, height: nat, s: Span, i: nat)
    requires 0 <= s.start < s.end <= height && i < Length(s)
    ensures StripRowY(yMin, yMax, height, s, i) == SequentialRowY(yMin, yMax, height, s.start + i)
  {
    var n := Length(s);
    if n > 1 {
      var q := (yMin - yMax) / ((height - 1) as real);
      var a := SequentialRowY(yMin, yMax, height, s.start);
      var b := SequentialRowY(yMin, yMax, height, s.end - 1);
      assert a == yMax + (s.start as real) * q;
      assert b == yMax + ((s.end - 1) as real) * q;
      assert b - a == (n - 1) as real * q;
      assert (n - 1) as real != 0.0;
      assert ((n - 1) as real * q) / ((n - 1) as real) == q;
      assert SequentialRowY(yMin, yMax, height, s.start + i) == yMax + ((s.start + i) as real) * q;
    }
  }

  /** Over any tiling, every row of the merged image gets its sequential y coordinate. */
  lemma {:induction false} ParallelRowsMatchSequential(yMin: real, yMax: real, height: nat, strips: seq<Span>, r: nat)
    requires Tiles(strips, height) && r < height
    requires forall k :: 0 <= k < |strips| ==> strips[k].start < strips[k].end
    ensures var k := Owner(strips, r);
      && 0 <= strips[k].start && strips[k].end <= height
      && StripRowY(yMin, yMax, height, strips[k], r - strips[k].start) == SequentialRowY(yMin, yMax, height, r)
  {
    TilesBounds(strips, height);
    var k := Owner(strips, r);
    StripRowYMatchesSequential(yMin, yMax, height, strips[k], r - strips[k].start);
  }

  // ---------------------------------------------------------------
  // `_iterations_to_image`
  // ---------------------------------------------------------------

  /** `np.clip(v, lo, hi)` */
  function Clip(v: int, lo: int, hi: int): (r: int)
    requires lo <= hi
    ensures lo <= r <= hi
    ensures lo <= v <= hi ==> r == v
    ensures v < lo ==> r == lo
    ensures v > hi ==> r == hi
  {
    if v < lo then lo else if v > hi then hi else v
  }

  /** The lookup table: the palette's colour for every count from 0 to `maxIter`. */
  function ColourTable(palette: (int, int) -> Rgb, maxIter: nat): (t: seq<Rgb>)
    ensures |t| == maxIter + 1
    ensures forall i :: 0 <= i <= maxIter ==> t[i] == palette(i, maxIter)
  {
    seq(maxIter + 1, i => palette(i, maxIter))
  }

  /**
   * `_iterations_to_image`: every count is clipped into the table and
   * replaced by its colour; the image has the shape of the counts.
   */
  function IterationsToImage(iterations: seq<seq<int>>, palette: (int, int) -> Rgb, maxIter: nat): (img: seq<seq<Rgb>>)
    ensures |img| == |iterations|
    ensures forall r :: 0 <= r < |img| ==> |img[r]| == |iterations[r]|
    ensures forall r, c :: 0 <= r < |iterations| && 0 <= c < |iterations[r]| ==>
      img[r][c] == palette(Clip(iterations[r][c], 0, maxIter), maxIter)
  {
    var colours := ColourTable(palette, maxIter);
    seq(|iterations|, r requires 0 <= r < |iterations| =>
      seq(|iterations[r]|, c requires 0 <= c < |iterations[r]| =>
        colours[Clip(iterations[r][c], 0, |colours| - 1)]))
  }

  /**
   * A count at or beyond `maxIter` is drawn in the colour of a point that
   * did not escape, and a count at or below zero in the colour for zero.
   */
  lemma OutOfRangeCountsSaturate(iterations: seq<seq<int>>, palette: (int, int) -> Rgb, maxIter: nat, r: int, c: int)
    requires 0 <= r < |iterations| && 0 <= c < |iterations[r]|
    ensures iterations[r][c] >= maxIter ==> IterationsToImage(iterations, palette, maxIter)[r][c] == palette(maxIter, maxIter)
    ensures iterations[r][c] <= 0 ==> IterationsToImage(iterations, palette, maxIter)[r][c] == palette(0, maxIter)
  {
  }
}
