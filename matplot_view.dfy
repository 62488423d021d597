/**
 * View navigation of the matplotlib explorer
 * (python-minimax-v2.1/fractal_gen_matplot/app.py): the current view, the list
 * of views saved before each change, and the index of the last saved one.
 *
 * Every change of view (rectangle selection, keyboard pan and zoom, reset)
 * first saves the current view and then replaces it. `zoom_out` is meant to
 * undo the last change; as written it steps the index back before restoring,
 * which skips one view. `ZoomOutAsWrittenStep` models that code and
 * `ZoomOutAsWrittenSkipsAView` exhibits the discrepancy; `ZoomOutStep` is the
 * corrected operation, the one the `MatplotExplorer` class implements.
 */
module MatplotViewModel {
  import opened Numeric

  /** `ViewState` of the matplotlib explorer: the rectangle shown. */
  datatype MView = MView(xMin: real, xMax: real, yMin: real, yMax: real)

  /** `view_history`, `history_index` and `current_view` together. */
  datatype Nav = Nav(history: seq<MView>, index: int, current: MView)

  predicate WellFormed(n: Nav)
  {
    -1 <= n.index < |n.history|
  }

  /**
   * The views the user can walk back through, oldest first, ending with the
   * one on screen: the saved views up to the index, then the current view.
   */
  function Trail(n: Nav): (t: seq<MView>)
    requires WellFormed(n)
    ensures |t| == n.index + 2 && t[|t| - 1] == n.current
  {
    n.history[..n.index + 1] + [n.current]
  }

  /** `_save_view_state`: drop the views after the index, append a copy of the current view. */
  function SaveStep(n: Nav): (r: Nav)
    requires WellFormed(n)
    ensures WellFormed(r) && r.index == |r.history| - 1 && r.current == n.current
    ensures r.history == n.history[..n.index + 1] + [n.current]
  {
    var kept := if n.index < |n.history| - 1 then n.history[..n.index + 1] else n.history;
    Nav(kept + [n.current], n.index + 1, n.current)
  }

  /** Save the current view, then show `v`: the common shape of every view change. */
  function ChangeView(n: Nav, v: MView): (r: Nav)
    requires WellFormed(n)
    ensures WellFormed(r) && r.current == v
    ensures Trail(r) == Trail(n) + [v]
  {
    var s := SaveStep(n);
    assert s.history[..s.index + 1] == s.history;
    s.(current := v)
  }

  /** `zoom_out` exactly as written: step the index back, then restore the view at the new index. */
  function ZoomOutAsWrittenStep(n: Nav): (r: Nav)
    requires WellFormed(n)
    ensures WellFormed(r) && r.history == n.history
    ensures n.index > 0 ==> r.index == n.index - 1 && r.current == n.history[n.index - 1]
    ensures n.index <= 0 ==> r == n
  {
    if n.index > 0 then Nav(n.history, n.index - 1, n.history[n.index - 1]) else n
  }

  /** `zoom_out` as intended: restore the view saved last, then step the index back. */
  function ZoomOutStep(n: Nav): (r: Nav)
    requires WellFormed(n)
    ensures WellFormed(r) && r.history == n.history
    ensures n.index >= 0 ==> r.index == n.index - 1 && r.current == n.history[n.index]
    ensures n.index < 0 ==> r == n
  {
    if n.index >= 0 then Nav(n.history, n.index - 1, n.history[n.index]) else n
  }

  /** The corrected `zoom_out` pops the trail that view changes push. */
  lemma {:induction false} ZoomOutPopsTrail(n: Nav)
    requires WellFormed(n) && n.index >= 0
    ensures Trail(ZoomOutStep(n)) == Trail(n)[..|Trail(n)| - 1]
  {
    var r := ZoomOutStep(n);
    assert n.history[..n.index + 1] == n.history[..n.index] + [n.history[n.index]];
    assert Trail(n)[..|Trail(n)| - 1] == n.history[..n.index + 1];
  }

  /** The corrected `zoom_out` undoes the last view change: it shows the view from before it. */
  lemma {:induction false} ZoomOutUndoesChange(n: Nav, v: MView)
    requires WellFormed(n)
    ensures ZoomOutStep(ChangeView(n, v)).current == n.current
    ensures Trail(ZoomOutStep(ChangeView(n, v))) == Trail(n)
  {
    var c := ChangeView(n, v);
    ZoomOutPopsTrail(c);
    assert Trail(c)[..|Trail(c)| - 1] == Trail(n);
  }

  /**
   * `zoom_out` as written: after one change from the start it does nothing,
   * and after two changes it jumps back to the first view, skipping the second.
   */
  lemma ZoomOutAsWrittenSkipsAView()
    ensures var a, b, c := MView(0.0, 1.0, 0.0, 1.0), MView(0.0, 0.5, 0.0, 0.5), MView(0.0, 0.25, 0.0, 0.25);
      var one := ChangeView(Nav([], -1, a), b);
      var two := ChangeView(one, c);
      && ZoomOutAsWrittenStep(one).current == b
      && ZoomOutStep(one).current == a
      && ZoomOutAsWrittenStep(two).current == a
      && ZoomOutStep(two).current == b
  {
  }

  /** The zoom limit of `_zoom`: centre plus half-extent below 1e-13 on both axes. */
  predicate AtZoomLimit(cx: real, cy: real, halfWidth: real, halfHeight: real)
  {
    Abs(cx) + halfWidth < 0.0000000000001 && Abs(cy) + halfHeight < 0.0000000000001
  }

  /** `_zoom(factor)`: scale the view about its centre, unless that reaches the zoom limit. */
  function ZoomStep(n: Nav, factor: real): (r: Nav)
    requires WellFormed(n)
    ensures WellFormed(r)
    ensures var v := n.current;
      var cx, cy := (v.xMin + v.xMax) / 2.0, (v.yMin + v.yMax) / 2.0;
      var hw, hh := (v.xMax - v.xMin) / 2.0 * factor, (v.yMax - v.yMin) / 2.0 * factor;
      if AtZoomLimit(cx, cy, hw, hh) then r == n
      else
        && Trail(r) == Trail(n) + [r.current]
        && (r.current.xMin + r.current.xMax) / 2.0 == cx
        && (r.current.yMin + r.current.yMax) / 2.0 == cy
        && r.current.xMax - r.current.xMin == (v.xMax - v.xMin) * factor
        && r.current.yMax - r.current.yMin == (v.yMax - v.yMin) * factor
  {
    var v := n.current;
    var cx := (v.xMin + v.xMax) / 2.0;
    var cy := (v.yMin + v.yMax) / 2.0;
    var hw := (v.xMax - v.xMin) / 2.0 * factor;
    var hh := (v.yMax - v.yMin) / 2.0 * factor;
    if AtZoomLimit(cx, cy, hw, hh) then n
    else ChangeView(n, MView(cx - hw, cx + hw, cy - hh, cy + hh))
  }

  /**
   * The size test of `_on_zoom_select`: each side of the selection must be at
   * least 1/50 of the current extent and at least 1e-14.
   */
  predicate SelectionLargeEnough(n: Nav, x1: real, x2: real, y1: real, y2: real)
  {
    var spanX, spanY := Abs(x2 - x1), Abs(y2 - y1);
    var minX := MaxReal((n.current.xMax - n.current.xMin) / 50.0, 0.00000000000001);
    var minY := MaxReal((n.current.yMax - n.current.yMin) / 50.0, 0.00000000000001);
    !(spanX < minX || spanY < minY)
  }

  /** `_on_zoom_select`: the rectangle between the two corners becomes the view, if it is large enough. */
  function ZoomSelectStep(n: Nav, clickX: real, clickY: real, releaseX: real, releaseY: real): (r: Nav)
    requires WellFormed(n)
    ensures WellFormed(r)
    ensures !SelectionLargeEnough(n, MinReal(clickX, releaseX), MaxReal(clickX, releaseX),
                                  MinReal(clickY, releaseY), MaxReal(clickY, releaseY))
            ==> r == n
    ensures SelectionLargeEnough(n, MinReal(clickX, releaseX), MaxReal(clickX, releaseX),
                                 MinReal(clickY, releaseY), MaxReal(clickY, releaseY)) ==>
      && Trail(r) == Trail(n) + [r.current]
      && r.current.xMin <= r.current.xMax && r.current.yMin <= r.current.yMax
      && {r.current.xMin, r.current.xMax} == {clickX, releaseX}
      && {r.current.yMin, r.current.yMax} == {clickY, releaseY}
  {
    var x1, x2 := MinReal(clickX, releaseX), MaxReal(clickX, releaseX);
    var y1, y2 := MinReal(clickY, releaseY), MaxReal(clickY, releaseY);
    if !SelectionLargeEnough(n, x1, x2, y1, y2) then n
    else ChangeView(n, MView(x1, x2, y1, y2))
  }

  /** A selection narrower than 1e-14 is rejected whatever the current view. */
  lemma TinySelectionRejected(n: Nav, clickX: real, clickY: real, releaseX: real, releaseY: real)
    requires WellFormed(n) && Abs(releaseX - clickX) < 0.00000000000001
    ensures ZoomSelectStep(n, clickX, clickY, releaseX, releaseY) == n
  {
  }

  /** The keys `_on_key_press` handles. */
  datatype Key = Left | Right | Up | Down | ZoomInKey | ZoomOutKey | Home | Other

  /** `_on_key_press`: arrow keys pan by a tenth of the extent, +/- zoom by 0.5/2, home resets. */
  function KeyPressStep(n: Nav, initial: MView, k: Key): (r: Nav)
    requires WellFormed(n)
    ensures WellFormed(r)
    ensures k.Other? ==> r == n
    ensures k.Home? ==> r.current == initial && Trail(r) == Trail(n) + [initial]
    ensures (k.Left? || k.Right?) ==>
      && Trail(r) == Trail(n) + [r.current]
      && r.current.xMax - r.current.xMin == n.current.xMax - n.current.xMin
      && r.current.yMin == n.current.yMin && r.current.yMax == n.current.yMax
    ensures (k.Up? || k.Down?) ==>
      && Trail(r) == Trail(n) + [r.current]
      && r.current.yMax - r.current.yMin == n.current.yMax - n.current.yMin
      && r.current.xMin == n.current.xMin && r.current.xMax == n.current.xMax
  {
    var v := n.current;
    var dx := (v.xMax - v.xMin) * 0.1;
    var dy := (v.yMax - v.yMin) * 0.1;
    match k
    case Left => ChangeView(n, v.(xMin := v.xMin - dx, xMax := v.xMax - dx))
    case Right => ChangeView(n, v.(xMin := v.xMin + dx, xMax := v.xMax + dx))
    case Up => ChangeView(n, v.(yMin := v.yMin + dy, yMax := v.yMax + dy))
    case Down => ChangeView(n, v.(yMin := v.yMin - dy, yMax := v.yMax - dy))
    case ZoomInKey => ZoomStep(n, 0.5)
    case ZoomOutKey => ZoomStep(n, 2.0)
    case Home => ChangeView(n, initial)
    case Other => n
  }

  /** Panning left and then right brings the view back (pans are a tenth of an unchanged extent). */
  lemma PanLeftThenRight(n: Nav, initial: MView)
    requires WellFormed(n)
    ensures KeyPressStep(KeyPressStep(n, initial, Left), initial, Right).current == n.current
  {
  }

  /** The navigation state of `FractalExplorer` (matplotlib). */
  class MatplotExplorer {
    var viewHistory: seq<MView>
    var historyIndex: int
    var currentView: MView
    const initialView: MView

    predicate Valid()
      reads this
    {
      WellFormed(Model())
    }

    function Model(): Nav
      reads this
    {
      Nav(viewHistory, historyIndex, currentView)
    }

    /** The start-up state: empty history, index -1, showing the fractal's default bounds. */
    constructor (defaultBounds: MView)
      ensures Valid() && Model() == Nav([], -1, defaultBounds) && initialView == defaultBounds
    {
      viewHistory := [];
      historyIndex := -1;
      initialView := defaultBounds;
      currentView := defaultBounds;
    }

    /** `_save_view_state` */
    method SaveViewState()
      requires Valid()
      modifies this
      ensures Valid() && Model() == SaveStep(old(Model()))
    {
      if historyIndex < |viewHistory| - 1 {
        viewHistory := viewHistory[..historyIndex + 1];
      }
      viewHistory := viewHistory + [currentView];
      historyIndex := historyIndex + 1;
    }

    /** `zoom_out`, with the restore done before the index moves. */
    method ZoomOut()
      requires Valid()
      modifies this
      ensures Valid() && Model() == ZoomOutStep(old(Model()))
    {
      if historyIndex >= 0 {
        currentView := viewHistory[historyIndex];
        historyIndex := historyIndex - 1;
      }
    }

    /** `_zoom` */
    method Zoom(factor: real)
      requires Valid()
      modifies this
      ensures Valid() && Model() == ZoomStep(old(Model()), factor)
    {
      var centerX := (currentView.xMin + currentView.xMax) / 2.0;
      var centerY := (currentView.yMin + currentView.yMax) / 2.0;
      var halfWidth := (currentView.xMax - currentView.xMin) / 2.0 * factor;
      var halfHeight := (currentView.yMax - currentView.yMin) / 2.0 * factor;
      if Abs(centerX) + halfWidth < 0.0000000000001 && Abs(centerY) + halfHeight < 0.0000000000001 {
        return;
      }
      SaveViewState();
      currentView := MView(centerX - halfWidth, centerX + halfWidth, centerY - halfHeight, centerY + halfHeight);
    }

    /** `_on_zoom_select` */
    method OnZoomSelect(clickX: real, clickY: real, releaseX: real, releaseY: real)
      requires Valid()
      modifies this
      ensures Valid() && Model() == ZoomSelectStep(old(Model()), clickX, clickY, releaseX, releaseY)
    {
      var x1, x2 := MinReal(clickX, releaseX), MaxReal(clickX, releaseX);
      var y1, y2 := MinReal(clickY, releaseY), MaxReal(clickY, releaseY);
      var spanX, spanY := Abs(x2 - x1), Abs(y2 - y1);
      var minSpanX := MaxReal((currentView.xMax - currentView.xMin) / 50.0, 0.00000000000001);
      var minSpanY := MaxReal((currentView.yMax - currentView.yMin) / 50.0, 0.00000000000001);
      if spanX < minSpanX || spanY < minSpanY {
        return;
      }
      SaveViewState();
      currentView := MView(x1, x2, y1, y2);
    }

    /** `_on_reset` */
    method OnReset()
      requires Valid()
      modifies this
      ensures Valid() && Model() == ChangeView(old(Model()), initialView)
    {
      SaveViewState();
      currentView := initialView;
    }

    /** `_on_key_press` */
    method OnKeyPress(k: Key)
      requires Valid()
      modifies this
      ensures Valid() && Model() == KeyPressStep(old(Model()), initialView, k)
    {
      var dx := (currentView.xMax - currentView.xMin) * 0.1;
      var dy := (currentView.yMax - currentView.yMin) * 0.1;
      match k {
        case Left =>
          SaveViewState();
          currentView := currentView.(xMin := currentView.xMin - dx, xMax := currentView.xMax - dx);
        case Right =>
          SaveViewState();
          currentView := currentView.(xMin := currentView.xMin + dx, xMax := currentView.xMax + dx);
        case Up =>
          SaveViewState();
          currentView := currentView.(yMin := currentView.yMin + dy, yMax := currentView.yMax + dy);
        case Down =>
          SaveViewState();
          currentView := currentView.(yMin := currentView.yMin - dy, yMax := currentView.yMax - dy);
        case ZoomInKey => Zoom(0.5);
        case ZoomOutKey => Zoom(2.0);
        case Home =>
          SaveViewState();
          currentView := initialView;
        case Other =>
      }
    }
  }
}
