/**
 * `ZoomController` of python-glm-4.7-reap-218b-a32b-i1-opencode/navigation/__init__.py:
 * the view rectangle of the complex plane shown on a canvas of
 * `width` by `height` pixels, the two coordinate conversions, zooming about
 * a point and zooming to a selected rectangle.
 *
 * The bounds dictionary with keys xmin, xmax, ymin and ymax is the datatype
 * `Bounds`. Floats are exact reals here. Pixel rows count down from the top:
 * row 0 is `ymax`.
 */
module ZoomControllerModel {
  import opened Wrappers
  import opened Numeric

  /** The dictionary `{"xmin": …, "xmax": …, "ymin": …, "ymax": …}`. */
  datatype Bounds = Bounds(xmin: real, xmax: real, ymin: real, ymax: real)

  /** The bounds `reset` installs. */
  const DefaultBounds := Bounds(-2.0, 1.5, -1.25, 1.25)

  function Width(b: Bounds): real { b.xmax - b.xmin }

  function Height(b: Bounds): real { b.ymax - b.ymin }

  /** Neither side of the rectangle runs backwards. */
  predicate Ordered(b: Bounds) { b.xmin <= b.xmax && b.ymin <= b.ymax }

  /** `c` lies in the closed rectangle `b`. */
  predicate Inside(c: Bounds, b: Bounds)
  {
    b.xmin <= c.xmin && c.xmax <= b.xmax && b.ymin <= c.ymin && c.ymax <= b.ymax
  }

  // ---------------------------------------------------------------
  // Coordinate conversions
  // ---------------------------------------------------------------

  /**
   * `_pixel_to_complex_with_size` (and `pixel_to_complex` with the canvas
   * size): the left edge is `xmin`, the top edge `ymax`, and each pixel
   * covers a `1 / width` share of the view's width and a `1 / height`
   * share of its height. A zero size raises `ZeroDivisionError` in the
   * source.
   */
  function ToComplex(b: Bounds, width: int, height: int, px: int, py: int): (z: (real, real))
    requires width != 0 && height != 0
    ensures px == 0 ==> z.0 == b.xmin
    ensures px == width ==> z.0 == b.xmax
    ensures py == 0 ==> z.1 == b.ymax
    ensures py == height ==> z.1 == b.ymin
  {
    (b.xmin + (px as real / width as real) * Width(b), b.ymax - (py as real / height as real) * Height(b))
  }

  /**
   * `complex_to_pixel`: the inverse scaling, truncated toward zero by
   * `int()`. A view of zero width or height raises `ZeroDivisionError`.
   */
  function ToPixel(b: Bounds, width: int, height: int, x: real, y: real): (p: (int, int))
    requires Width(b) != 0.0 && Height(b) != 0.0
  {
    (Trunc((x - b.xmin) / Width(b) * width as real), Trunc((b.ymax - y) / Height(b) * height as real))
  }

  /** `(a / w) * w == a` and `(a * w) / w == a` for a non-zero `w`. */
  lemma DivMulCancel(a: real, w: real)
    requires w != 0.0
    ensures (a / w) * w == a && (a * w) / w == a
  {
  }

  /** `(p / n) * w / w * n == p`: scaling a pixel into the view and back is exact. */
  lemma ScaleBack(p: real, n: real, w: real)
    requires n != 0.0 && w != 0.0
    ensures ((p / n) * w) / w * n == p
  {
    DivMulCancel(p / n, w);
    DivMulCancel(p, n);
  }

  /**
   * Converting a pixel to the complex plane and back gives the same pixel:
   * the conversions are inverse on the canvas grid.
   */
  lemma PixelRoundTrip(b: Bounds, width: int, height: int, px: int, py: int)
    requires width != 0 && height != 0 && Width(b) != 0.0 && Height(b) != 0.0
    ensures var z := ToComplex(b, width, height, px, py); ToPixel(b, width, height, z.0, z.1) == (px, py)
  {
    var z := ToComplex(b, width, height, px, py);
    assert (z.0 - b.xmin) / Width(b) * width as real == px as real by {
      ColumnRoundTrip(b.xmin, Width(b), width, px);
    }
    assert (b.ymax - z.1) / Height(b) * height as real == py as real by {
      RowRoundTrip(b.ymax, Height(b), height, py);
    }
    assert ToPixel(b, width, height, z.0, z.1).0 == Trunc(px as real);
    assert ToPixel(b, width, height, z.0, z.1).1 == Trunc(py as real);
    TruncWhole(px);
    TruncWhole(py);
  }

  /** A column carried from the canvas to the view and back lands where it started. */
  lemma ColumnRoundTrip(lo: real, span: real, n: int, p: int)
    requires n != 0 && span != 0.0
    ensures (lo + (p as real / n as real) * span - lo) / span * n as real == p as real
  {
    var q := (p as real / n as real) * span;
    assert lo + q - lo == q;
    ScaleBack(p as real, n as real, span);
  }

  /** A row, counted down from the top edge `hi`, carried to the view and back lands where it started. */
  lemma RowRoundTrip(hi: real, span: real, n: int, p: int)
    requires n != 0 && span != 0.0
    ensures (hi - (hi - (p as real / n as real) * span)) / span * n as real == p as real
  {
    var q := (p as real / n as real) * span;
    assert hi - (hi - q) == q;
    ScaleBack(p as real, n as real, span);
  }

  /** `int()` leaves a whole number as it is. */
  lemma TruncWhole(n: int)
    ensures Trunc(n as real) == n
  {
    if n < 0 {
      assert (-(n as real)).Floor == -n;
    }
  }

  /** On a view with `xmin < xmax` the complex x-coordinate grows with the pixel column. */
  lemma ToComplexMonotone(b: Bounds, width: int, height: int, px1: int, px2: int, py: int)
    requires width > 0 && height != 0 && b.xmin < b.xmax && px1 <= px2
    ensures ToComplex(b, width, height, px1, py).0 <= ToComplex(b, width, height, px2, py).0
  {
    var w := width as real;
    assert px1 as real / w <= px2 as real / w;
    assert (px1 as real / w) * Width(b) <= (px2 as real / w) * Width(b);
  }

  // ---------------------------------------------------------------
  // zoom
  // ---------------------------------------------------------------

  /** The zoom centre: the given one, or the midpoint when either coordinate is missing. */
  function ZoomCentre(b: Bounds, centreX: Option<real>, centreY: Option<real>): (c: (real, real))
    ensures centreX.Some? && centreY.Some? ==> c == (centreX.value, centreY.value)
    ensures centreX.None? || centreY.None? ==> c == ((b.xmin + b.xmax) / 2.0, (b.ymin + b.ymax) / 2.0)
  {
    if centreX.None? || centreY.None? then ((b.xmin + b.xmax) / 2.0, (b.ymin + b.ymax) / 2.0)
    else (centreX.value, centreY.value)
  }

  /**
   * `zoom(factor, center_x, center_y)`: every edge moves so that its
   * distance from the centre is multiplied by `factor`. A view of zero
   * width or height raises `ZeroDivisionError`.
   */
  function ZoomStep(b: Bounds, factor: real, centreX: Option<real>, centreY: Option<real>): (r: Bounds)
    requires Width(b) != 0.0 && Height(b) != 0.0
  {
    var c := ZoomCentre(b, centreX, centreY);
    var cx, cy, w, h := c.0, c.1, b.xmax - b.xmin, b.ymax - b.ymin;
    Bounds(cx - Rescale(cx - b.xmin, w, w * factor), cx + Rescale(b.xmax - cx, w, w * factor),
           cy - Rescale(cy - b.ymin, h, h * factor), cy + Rescale(b.ymax - cy, h, h * factor))
  }

  /** `ZoomStep` with its centre already known to be `(cx, cy)`. */
  lemma ZoomStepAbout(b: Bounds, factor: real, centreX: Option<real>, centreY: Option<real>,
                      cx: real, cy: real, w: real, h: real)
    requires w == b.xmax - b.xmin && h == b.ymax - b.ymin && w != 0.0 && h != 0.0
    requires ZoomCentre(b, centreX, centreY) == (cx, cy)
    ensures ZoomStep(b, factor, centreX, centreY) ==
      Bounds(cx - Rescale(cx - b.xmin, w, w * factor), cx + Rescale(b.xmax - cx, w, w * factor),
             cy - Rescale(cy - b.ymin, h, h * factor), cy + Rescale(b.ymax - cy, h, h * factor))
  {
  }

  /** `d / span * newSpan`: a distance within a span of the view, carried over to the new span. */
  function Rescale(d: real, span: real, newSpan: real): real
    requires span != 0.0
  {
    d / span * newSpan
  }

  /** Carrying a distance over to a span `f` times as wide multiplies it by `f`. */
  lemma ScaleDistance(d: real, w: real, f: real)
    requires w != 0.0
    ensures Rescale(d, w, w * f) == d * f
  {
    DivMulCancel(d, w);
    assert d / w * (w * f) == (d / w * w) * f;
  }

  /**
   * Zooming keeps the centre fixed: each edge's distance from the centre is
   * multiplied by `factor`, so the width and height are too.
   */
  lemma ZoomScalesAboutCentre(b: Bounds, factor: real, centreX: Option<real>, centreY: Option<real>)
    requires Width(b) != 0.0 && Height(b) != 0.0
    ensures var c := ZoomCentre(b, centreX, centreY); var r := ZoomStep(b, factor, centreX, centreY);
      && c.0 - r.xmin == (c.0 - b.xmin) * factor && r.xmax - c.0 == (b.xmax - c.0) * factor
      && c.1 - r.ymin == (c.1 - b.ymin) * factor && r.ymax - c.1 == (b.ymax - c.1) * factor
    ensures var r := ZoomStep(b, factor, centreX, centreY);
      Width(r) == Width(b) * factor && Height(r) == Height(b) * factor
  {
    var c := ZoomCentre(b, centreX, centreY);
    ScaleDistance(c.0 - b.xmin, Width(b), factor);
    ScaleDistance(b.xmax - c.0, Width(b), factor);
    ScaleDistance(c.1 - b.ymin, Height(b), factor);
    ScaleDistance(b.ymax - c.1, Height(b), factor);
  }

  /** The view `b` with each edge's distance from `(cx, cy)` multiplied by `f`. */
  function ScaleAbout(b: Bounds, cx: real, cy: real, f: real): (r: Bounds)
    ensures Width(r) == Width(b) * f && Height(r) == Height(b) * f
  {
    Bounds(cx - (cx - b.xmin) * f, cx + (b.xmax - cx) * f, cy - (cy - b.ymin) * f, cy + (b.ymax - cy) * f)
  }

  /** `zoom` is scaling about the zoom centre. */
  lemma ZoomClosed(b: Bounds, factor: real, centreX: Option<real>, centreY: Option<real>, cx: real, cy: real)
    requires Width(b) != 0.0 && Height(b) != 0.0
    requires ZoomCentre(b, centreX, centreY) == (cx, cy)
    ensures ZoomStep(b, factor, centreX, centreY) == ScaleAbout(b, cx, cy, factor)
  {
    ZoomScalesAboutCentre(b, factor, centreX, centreY);
  }

  /** Zooming without a centre keeps the midpoint of the view where it was. */
  lemma ZoomKeepsMidpoint(b: Bounds, factor: real, centreX: Option<real>, centreY: Option<real>)
    requires Width(b) != 0.0 && Height(b) != 0.0
    requires centreX.None? || centreY.None?
    ensures var r := ZoomStep(b, factor, centreX, centreY);
      (r.xmin + r.xmax) / 2.0 == (b.xmin + b.xmax) / 2.0 && (r.ymin + r.ymax) / 2.0 == (b.ymin + b.ymax) / 2.0
  {
    ZoomScalesAboutCentre(b, factor, centreX, centreY);
  }

  /**
   * Zooming by `factor` and then by its reciprocal `g` about the same centre
   * gives the original view back; with no centre both zooms use the
   * midpoint, which the first one keeps.
   */
  lemma ZoomInverse(b: Bounds, factor: real, g: real, centreX: Option<real>, centreY: Option<real>)
    requires Width(b) != 0.0 && Height(b) != 0.0 && factor * g == 1.0
    ensures var r := ZoomStep(b, factor, centreX, centreY);
      Width(r) != 0.0 && Height(r) != 0.0 && ZoomStep(r, g, centreX, centreY) == b
  {
    var c := ZoomCentre(b, centreX, centreY);
    ZoomClosed(b, factor, centreX, centreY, c.0, c.1);
    var r := ScaleAbout(b, c.0, c.1, factor);
    MulNonZero(Width(b), factor);
    MulNonZero(Height(b), factor);
    assert ZoomCentre(r, centreX, centreY) == c by {
      if centreX.None? || centreY.None? {
        ZoomKeepsMidpoint(b, factor, centreX, centreY);
      }
    }
    ZoomClosed(r, g, centreX, centreY, c.0, c.1);
    ScaledBack(b, c.0, c.1, factor, g);
  }

  /** Scaling about a point by `f` and then by its reciprocal `g` is the identity. */
  lemma ScaledBack(b: Bounds, cx: real, cy: real, f: real, g: real)
    requires f * g == 1.0
    ensures ScaleAbout(ScaleAbout(b, cx, cy, f), cx, cy, g) == b
  {
    var r := ScaleAbout(b, cx, cy, f);
    var s := ScaleAbout(r, cx, cy, g);
    UndoEdge(cx, b.xmin, r.xmin, s.xmin, f, g);
    UndoEdge(-cx, -b.xmax, -r.xmax, -s.xmax, f, g);
    UndoEdge(cy, b.ymin, r.ymin, s.ymin, f, g);
    UndoEdge(-cy, -b.ymax, -r.ymax, -s.ymax, f, g);
  }

  /**
   * An edge `e` moved to `e1` by scaling its distance from `c` by `f`, and
   * then to `e2` by scaling by the reciprocal `g`, is back at `e`.
   */
  lemma UndoEdge(c: real, e: real, e1: real, e2: real, f: real, g: real)
    requires f * g == 1.0
    requires c - e1 == (c - e) * f
    requires c - e2 == (c - e1) * g
    ensures e2 == e
  {
    assert (c - e) * f * g == (c - e) * (f * g);
  }

  /** A product of two non-zero reals is non-zero. */
  lemma MulNonZero(a: real, b: real)
    requires a != 0.0 && b != 0.0
    ensures a * b != 0.0
  {
  }

  // ---------------------------------------------------------------
  // select_area
  // ---------------------------------------------------------------

  /**
   * `select_area(px1, py1, px2, py2, width, height)`: the corners, converted
   * with the given canvas size (the controller's own when none is given),
   * span the new view.
   */
  function SelectAreaStep(b: Bounds, width: int, height: int, px1: int, py1: int, px2: int, py2: int): (r: Bounds)
    requires width != 0 && height != 0
    ensures Ordered(r)
    ensures var z1, z2 := ToComplex(b, width, height, px1, py1), ToComplex(b, width, height, px2, py2);
      && (r.xmin == z1.0 || r.xmin == z2.0) && (r.xmax == z1.0 || r.xmax == z2.0)
      && (r.ymin == z1.1 || r.ymin == z2.1) && (r.ymax == z1.1 || r.ymax == z2.1)
  {
    var z1 := ToComplex(b, width, height, px1, py1);
    var z2 := ToComplex(b, width, height, px2, py2);
    Bounds(MinReal(z1.0, z2.0), MaxReal(z1.0, z2.0), MinReal(z1.1, z2.1), MaxReal(z1.1, z2.1))
  }

  /** The canvas size `select_area` converts with. */
  function CanvasSize(own: int, given: Option<int>): int
  {
    if given.Some? then given.value else own
  }

  /** A pixel on the canvas converts to a point of an ordered view. */
  lemma ToComplexInside(b: Bounds, width: int, height: int, px: int, py: int)
    requires width > 0 && height > 0 && Ordered(b)
    requires 0 <= px <= width && 0 <= py <= height
    ensures var z := ToComplex(b, width, height, px, py);
      b.xmin <= z.0 <= b.xmax && b.ymin <= z.1 <= b.ymax
  {
    var tx := px as real / width as real;
    var ty := py as real / height as real;
    assert 0.0 <= tx <= 1.0 && 0.0 <= ty <= 1.0;
    assert tx * Width(b) <= Width(b);
    assert ty * Height(b) <= Height(b);
  }

  /** Selecting a rectangle on the canvas zooms into the current view: the new view lies inside it. */
  lemma SelectAreaZoomsIn(b: Bounds, width: int, height: int, px1: int, py1: int, px2: int, py2: int)
    requires width > 0 && height > 0 && Ordered(b)
    requires 0 <= px1 <= width && 0 <= py1 <= height && 0 <= px2 <= width && 0 <= py2 <= height
    ensures Inside(SelectAreaStep(b, width, height, px1, py1, px2, py2), b)
  {
    ToComplexInside(b, width, height, px1, py1);
    ToComplexInside(b, width, height, px2, py2);
  }

  /** Selecting the whole canvas, corner to corner, leaves an ordered view as it was. */
  lemma SelectWholeCanvas(b: Bounds, width: int, height: int)
    requires width != 0 && height != 0 && Ordered(b)
    ensures SelectAreaStep(b, width, height, 0, 0, width, height) == b
    ensures SelectAreaStep(b, width, height, width, height, 0, 0) == b
  {
  }

  // ---------------------------------------------------------------
  // The controller
  // ---------------------------------------------------------------

  class ZoomController {
    /** The canvas size in pixels. */
    var width: int
    var height: int
    var bounds: Bounds

    /** `ZoomController(width, height)`, by default 800 by 600: the default view. */
    constructor(width: int, height: int)
      ensures this.width == width && this.height == height && bounds == DefaultBounds
    {
      this.width := width;
      this.height := height;
      bounds := DefaultBounds;
    }

    /** `reset` */
    method Reset()
      modifies this`bounds
      ensures bounds == DefaultBounds
    {
      bounds := DefaultBounds;
    }

    /** `set_bounds`: `get_bounds` then returns exactly the values given. */
    method SetBounds(xmin: real, xmax: real, ymin: real, ymax: real)
      modifies this`bounds
      ensures GetBounds() == Bounds(xmin, xmax, ymin, ymax)
    {
      bounds := Bounds(xmin, xmax, ymin, ymax);
    }

    /** `get_bounds`: a copy, so a value here. */
    function GetBounds(): Bounds
      reads this`bounds
    {
      bounds
    }

    /** `pixel_to_complex` on the controller's canvas. */
    function PixelToComplex(px: int, py: int): (real, real)
      reads this
      requires width != 0 && height != 0
    {
      ToComplex(bounds, width, height, px, py)
    }

    /** `complex_to_pixel` on the controller's canvas. */
    function ComplexToPixel(x: real, y: real): (int, int)
      reads this
      requires Width(bounds) != 0.0 && Height(bounds) != 0.0
    {
      ToPixel(bounds, width, height, x, y)
    }

    /** `zoom`: the four entries are overwritten one after another. */
    method Zoom(factor: real, centreX: Option<real>, centreY: Option<real>)
      requires Width(bounds) != 0.0 && Height(bounds) != 0.0
      modifies this`bounds
      ensures bounds == ZoomStep(old(bounds), factor, centreX, centreY)
    {
      ghost var b := bounds;
      var cx, cy;
      if centreX.None? || centreY.None? {
        cx := (bounds.xmin + bounds.xmax) / 2.0;
        cy := (bounds.ymin + bounds.ymax) / 2.0;
      } else {
        cx, cy := centreX.value, centreY.value;
      }
      var w := bounds.xmax - bounds.xmin;
      var h := bounds.ymax - bounds.ymin;
      var newWidth := w * factor;
      var newHeight := h * factor;
      assert (cx, cy) == ZoomCentre(b, centreX, centreY);
      ZoomStepAbout(b, factor, centreX, centreY, cx, cy, w, h);
      bounds := bounds.(xmin := cx - Rescale(cx - bounds.xmin, w, newWidth));
      bounds := bounds.(xmax := cx + Rescale(bounds.xmax - cx, w, newWidth));
      bounds := bounds.(ymin := cy - Rescale(cy - bounds.ymin, h, newHeight));
      bounds := bounds.(ymax := cy + Rescale(bounds.ymax - cy, h, newHeight));
    }

    /** `select_area`: both corners are converted before any entry changes. */
    method SelectArea(px1: int, py1: int, px2: int, py2: int, givenWidth: Option<int>, givenHeight: Option<int>)
      requires CanvasSize(width, givenWidth) != 0 && CanvasSize(height, givenHeight) != 0
      modifies this`bounds
      ensures bounds == SelectAreaStep(old(bounds), CanvasSize(width, givenWidth), CanvasSize(height, givenHeight),
                                       px1, py1, px2, py2)
    {
      var w := if givenWidth.Some? then givenWidth.value else width;
      var h := if givenHeight.Some? then givenHeight.value else height;
      var z1 := ToComplex(bounds, w, h, px1, py1);
      var z2 := ToComplex(bounds, w, h, px2, py2);
      bounds := bounds.(xmin := MinReal(z1.0, z2.0));
      bounds := bounds.(xmax := MaxReal(z1.0, z2.0));
      bounds := bounds.(ymin := MinReal(z1.1, z2.1));
      bounds := bounds.(ymax := MaxReal(z1.1, z2.1));
    }
  }
}
