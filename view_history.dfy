/**
 * The view undo/redo history of the Rust explorer's application object
 * (rust-allmodels/src/main.rs).
 *
 * `ViewHistory` keeps every saved (fractal type, view) pair and a cursor one
 * past its current entry, the one `undo` and `redo` treat as on screen. The
 * application pushes the view before each change, and only when it differs
 * from the one it saved last, so after a change the screen shows a view the
 * history does not hold and the current entry is the view before the change;
 * `undo` then steps past that entry to the one before it. The pure functions
 * on `History`, `Saver` and `App` specify the behaviour; the classes
 * `ViewHistory` and `ExplorerApp` are proved against them.
 */
module ViewHistoryModel {
  import opened FractalView
  import opened Wrappers

  /** `ViewHistoryEntry` */
  datatype Entry = Entry(fractalType: FractalType, view: FractalViewState)

  datatype History = History(entries: seq<Entry>, index: nat)

  /** The cursor stays within the entries and the entries within `max_size`. */
  predicate WellFormed(h: History, maxSize: nat)
  {
    h.index <= |h.entries| <= maxSize
  }

  /** `can_undo`: there is an entry before the one on screen. */
  predicate CanUndo(h: History) { h.index > 1 }

  /** `can_redo` */
  predicate CanRedo(h: History) { h.index < |h.entries| }

  /** `current`: the entry just before the cursor, when there is one. */
  function Current(h: History): (r: Option<Entry>)
    ensures r.Some? <==> 1 <= h.index <= |h.entries|
    ensures r.Some? ==> r.value == h.entries[h.index - 1]
  {
    if h.index > 0 && h.index <= |h.entries| then Some(h.entries[h.index - 1]) else None
  }

  /** `push`: drop the redo branch, append, and evict the head instead of advancing when over `max_size`. */
  function PushStep(h: History, e: Entry, maxSize: nat): (r: History)
    requires WellFormed(h, maxSize)
    ensures WellFormed(r, maxSize)
    ensures !CanRedo(r)
    ensures maxSize > 0 ==> Current(r) == Some(e)
    ensures h.index < maxSize ==> r.entries == h.entries[..h.index] + [e] && r.index == h.index + 1
    ensures h.index == maxSize ==> r.entries == (h.entries + [e])[1..] && r.index == h.index
  {
    var kept := if h.index < |h.entries| then h.entries[..h.index] else h.entries;
    var pushed := kept + [e];
    if |pushed| > maxSize then History(pushed[1..], h.index)
    else History(pushed, h.index + 1)
  }

  /** `undo`: step the cursor back and return the entry now on screen. */
  function UndoStep(h: History): (r: (History, Option<Entry>))
    requires h.index <= |h.entries|
    ensures r.0.entries == h.entries
    ensures !CanUndo(h) ==> r == (h, None)
    ensures CanUndo(h) ==>
      && r.0.index == h.index - 1 && CanRedo(r.0)
      && r.1 == Some(h.entries[h.index - 2]) && r.1 == Current(r.0)
  {
    if CanUndo(h) then
      var h' := h.(index := h.index - 1);
      (h', Some(h.entries[h'.index - 1]))
    else (h, None)
  }

  /** `redo`: step the cursor forward and return the entry now on screen. */
  function RedoStep(h: History): (r: (History, Option<Entry>))
    requires h.index <= |h.entries|
    ensures r.0.entries == h.entries
    ensures !CanRedo(h) ==> r == (h, None)
    ensures CanRedo(h) ==>
      && r.0.index == h.index + 1
      && r.1 == Some(h.entries[h.index]) && r.1 == Current(r.0)
  {
    if CanRedo(h) then
      var h' := h.(index := h.index + 1);
      (h', Some(h.entries[h'.index - 1]))
    else (h, None)
  }

  /** An undo that takes effect is exactly reversed by the following redo. */
  lemma RedoReversesUndo(h: History)
    requires h.index <= |h.entries| && CanUndo(h)
    ensures RedoStep(UndoStep(h).0).0 == h
    ensures RedoStep(UndoStep(h).0).1 == Current(h)
  {
  }

  /**
   * After a push, undo brings back the entry that was on screen before it,
   * also when the push evicted the oldest entry (given room for two entries).
   */
  lemma {:induction false} UndoAfterPushReturnsPrevious(h: History, e: Entry, maxSize: nat)
    requires WellFormed(h, maxSize) && maxSize >= 2
    requires Current(h).Some?
    ensures UndoStep(PushStep(h, e, maxSize)).1 == Current(h)
  {
    var r := PushStep(h, e, maxSize);
    if h.index < maxSize {
      assert r.entries[r.index - 2] == h.entries[h.index - 1];
    } else {
      assert r.entries == (h.entries + [e])[1..];
      assert r.entries[r.index - 2] == (h.entries + [e])[h.index - 1];
    }
  }

  /** The application's `ViewHistory::new(50)` followed by the push of the initial view. */
  lemma InitialHistory(e: Entry)
    ensures var h := PushStep(History([], 0), e, 50);
      h.entries == [e] && h.index == 1 && !CanUndo(h) && !CanRedo(h) && Current(h) == Some(e)
  {
  }

  function AbsDiff(a: real, b: real): real { if a < b then b - a else a - b }

  /**
   * The dedup test of `save_view_to_history`: same fractal type and centre and
   * zoom each within 1e-10 of the last saved view.
   */
  predicate SameAsLastSaved(last: Option<Entry>, cur: Entry)
  {
    last.Some? && last.value.fractalType == cur.fractalType
    && AbsDiff(last.value.view.centerX, cur.view.centerX) < 0.0000000001
    && AbsDiff(last.value.view.centerY, cur.view.centerY) < 0.0000000001
    && AbsDiff(last.value.view.zoom, cur.view.zoom) < 0.0000000001
  }

  /** The history together with the last view the application saved. */
  datatype Saver = Saver(history: History, lastSaved: Option<Entry>)

  /** `save_view_to_history` */
  function SaveStep(s: Saver, cur: Entry, maxSize: nat): (r: Saver)
    requires WellFormed(s.history, maxSize)
    ensures WellFormed(r.history, maxSize)
    ensures SameAsLastSaved(s.lastSaved, cur) ==> r == s
    ensures !SameAsLastSaved(s.lastSaved, cur) ==>
      r == Saver(PushStep(s.history, cur, maxSize), Some(cur))
  {
    if SameAsLastSaved(s.lastSaved, cur) then s
    else Saver(PushStep(s.history, cur, maxSize), Some(cur))
  }

  /** Saving the same view twice in a row pushes it once. */
  lemma SaveTwicePushesOnce(s: Saver, cur: Entry, maxSize: nat)
    requires WellFormed(s.history, maxSize)
    ensures SaveStep(SaveStep(s, cur, maxSize), cur, maxSize) == SaveStep(s, cur, maxSize)
  {
  }

  /** A view whose zoom moved by at least 1e-10 from the last saved one is always pushed. */
  lemma ZoomChangeIsSaved(s: Saver, cur: Entry, maxSize: nat)
    requires WellFormed(s.history, maxSize) && maxSize > 0
    requires s.lastSaved.Some? && AbsDiff(s.lastSaved.value.view.zoom, cur.view.zoom) >= 0.0000000001
    ensures Current(SaveStep(s, cur, maxSize).history) == Some(cur)
  {
  }

  /** The saver together with the (fractal type, view) pair on screen. */
  datatype App = App(saver: Saver, screen: Entry)

  /** The view on screen with its zoom multiplied by `factor`. */
  function Zoomed(e: Entry, factor: real): Entry
  {
    e.(view := e.view.(zoom := e.view.zoom * factor))
  }

  /** `zoom_view` as written: save the view on screen, then zoom it. */
  function ZoomAsWrittenStep(a: App, factor: real, maxSize: nat): (r: App)
    requires WellFormed(a.saver.history, maxSize)
    ensures WellFormed(r.saver.history, maxSize)
    ensures r.screen.view.zoom == a.screen.view.zoom * factor
    ensures maxSize > 0 && !SameAsLastSaved(a.saver.lastSaved, a.screen) ==>
      Current(r.saver.history) == Some(a.screen)
  {
    App(SaveStep(a.saver, a.screen, maxSize), Zoomed(a.screen, factor))
  }

  /** `FractalApp::undo`: install the entry the history steps back to, if any. */
  function UndoApp(a: App): (r: App)
    requires a.saver.history.index <= |a.saver.history.entries|
    ensures r.saver.lastSaved == a.saver.lastSaved
    ensures var (h, e) := UndoStep(a.saver.history);
      r.saver.history == h && r.screen == if e.Some? then e.value else a.screen
  {
    var (h, e) := UndoStep(a.saver.history);
    App(Saver(h, a.saver.lastSaved), if e.Some? then e.value else a.screen)
  }

  /**
   * As written, undo skips a view: from the start-up state (the initial view
   * alone in the history, nothing saved), two zooms by 2 followed by an undo
   * show zoom 1, not the zoom-2 view that was on screen before the second
   * zoom.
   */
  lemma ZoomUndoAsWrittenSkipsAView(e0: Entry)
    requires e0.view.zoom == 1.0
    ensures var a0 := App(Saver(History([e0], 1), None), e0);
      var a1 := ZoomAsWrittenStep(a0, 2.0, 50);
      var a2 := ZoomAsWrittenStep(a1, 2.0, 50);
      && a1.screen.view.zoom == 2.0 && a2.screen.view.zoom == 4.0
      && UndoApp(a2).screen.view.zoom == 1.0
  {
    var a0 := App(Saver(History([e0], 1), None), e0);
    var a1 := ZoomAsWrittenStep(a0, 2.0, 50);
    assert a1.saver == Saver(History([e0, e0], 2), Some(e0));
    var a2 := ZoomAsWrittenStep(a1, 2.0, 50);
    assert !SameAsLastSaved(Some(e0), a1.screen);
    assert a2.saver.history == History([e0, e0, a1.screen], 3);
    assert UndoApp(a2).screen == e0;
  }

  /** `zoom_view` as evidently intended: zoom the view, then save the view now on screen. */
  function ZoomStep(a: App, factor: real, maxSize: nat): (r: App)
    requires WellFormed(a.saver.history, maxSize)
    ensures WellFormed(r.saver.history, maxSize)
    ensures r.screen == Zoomed(a.screen, factor)
    ensures maxSize > 0 && !SameAsLastSaved(a.saver.lastSaved, r.screen) ==>
      Current(r.saver.history) == Some(r.screen)
  {
    var v := Zoomed(a.screen, factor);
    App(SaveStep(a.saver, v, maxSize), v)
  }

  /**
   * With the corrected step the history's current entry is the view on
   * screen, and undo right after a zoom brings back the view from before
   * the zoom, again with the screen on the current entry.
   */
  lemma {:induction false} ZoomThenUndoRestores(a: App, factor: real, maxSize: nat)
    requires WellFormed(a.saver.history, maxSize) && maxSize >= 2
    requires Current(a.saver.history) == Some(a.screen)
    requires !SameAsLastSaved(a.saver.lastSaved, Zoomed(a.screen, factor))
    ensures var z := ZoomStep(a, factor, maxSize);
      Current(z.saver.history) == Some(z.screen)
      && UndoApp(z).screen == a.screen
      && Current(UndoApp(z).saver.history) == Some(a.screen)
  {
    var v := Zoomed(a.screen, factor);
    UndoAfterPushReturnsPrevious(a.saver.history, v, maxSize);
  }

  /** `ViewHistory` (main.rs:86-155). */
  class ViewHistory {
    var entries: seq<Entry>
    var currentIndex: nat
    const maxSize: nat

    predicate Valid()
      reads this
    {
      WellFormed(History(entries, currentIndex), maxSize)
    }

    function Model(): History
      reads this
    {
      History(entries, currentIndex)
    }

    /** `ViewHistory::new` */
    constructor (maxSize: nat)
      ensures Valid() && Model() == History([], 0) && this.maxSize == maxSize
    {
      entries := [];
      currentIndex := 0;
      this.maxSize := maxSize;
    }

    /** `ViewHistory::push` */
    method Push(fractalType: FractalType, view: FractalViewState)
      requires Valid()
      modifies this
      ensures Valid()
      ensures Model() == PushStep(old(Model()), Entry(fractalType, view), maxSize)
    {
      if currentIndex < |entries| {
        entries := entries[..currentIndex];
      }
      entries := entries + [Entry(fractalType, view)];
      if |entries| > maxSize {
        entries := entries[1..];
      } else {
        currentIndex := currentIndex + 1;
      }
    }

    function CanUndo(): bool
      reads this
    {
      currentIndex > 1
    }

    function CanRedo(): bool
      reads this
    {
      currentIndex < |entries|
    }

    /** `ViewHistory::undo` */
    method Undo() returns (r: Option<Entry>)
      requires Valid()
      modifies this
      ensures Valid()
      ensures (Model(), r) == UndoStep(old(Model()))
    {
      if CanUndo() {
        currentIndex := currentIndex - 1;
        r := Some(entries[currentIndex - 1]);
      } else {
        r := None;
      }
    }

    /** `ViewHistory::redo` */
    method Redo() returns (r: Option<Entry>)
      requires Valid()
      modifies this
      ensures Valid()
      ensures (Model(), r) == RedoStep(old(Model()))
    {
      if CanRedo() {
        currentIndex := currentIndex + 1;
        r := Some(entries[currentIndex - 1]);
      } else {
        r := None;
      }
    }

    /** `ViewHistory::current` */
    function CurrentEntry(): (r: Option<Entry>)
      reads this
      ensures r == Current(Model())
    {
      if currentIndex > 0 && currentIndex <= |entries| then Some(entries[currentIndex - 1]) else None
    }
  }

  /** The view of every fractal type when the application starts: its default centre at zoom 1. */
  function InitialViews(maxIterations: nat, palette: PaletteType): (views: map<FractalType, FractalViewState>)
    ensures views.Keys == AllFractalTypes
    ensures forall t | t in views ::
      && views[t].zoom == 1.0
      && (views[t].centerX, views[t].centerY) == DefaultCenter(t)
  {
    map t | t in AllFractalTypes ::
      FractalViewState(DefaultCenter(t).0, DefaultCenter(t).1, 1.0, maxIterations, map[], palette)
  }

  /**
   * The parts of `FractalApp` that the view history touches: the selected
   * fractal type, the view of every type, the history and the last saved view.
   */
  class ExplorerApp {
    var fractalType: FractalType
    var views: map<FractalType, FractalViewState>
    var lastSavedView: Option<Entry>
    const history: ViewHistory

    predicate Valid()
      reads this, history
    {
      history.Valid()
    }

    function SaverModel(): Saver
      reads this, history
    {
      Saver(history.Model(), lastSavedView)
    }

    /** The saver and the (fractal type, view) pair on screen. */
    function AppModel(): App
      reads this, history
    {
      App(SaverModel(), Entry(fractalType, GetView()))
    }

    /** `get_view`: the selected type's view, or the all-zero default when it has none. */
    function GetView(): (v: FractalViewState)
      reads this
      ensures fractalType in views ==> v == views[fractalType]
      ensures fractalType !in views ==> v == DefaultView()
    {
      if fractalType in views then views[fractalType] else DefaultView()
    }

    /** `FractalApp::new`: default views for every type, then the initial view pushed onto a 50-entry history. */
    constructor (defaultFractal: FractalType, defaultIterations: nat, defaultPalette: PaletteType)
      ensures Valid() && fresh(history) && history.maxSize == 50
      ensures fractalType == defaultFractal && views == InitialViews(defaultIterations, defaultPalette)
      ensures history.Model() == History([Entry(defaultFractal, views[defaultFractal])], 1)
      ensures !history.CanUndo() && !history.CanRedo() && lastSavedView == None
    {
      fractalType := defaultFractal;
      views := InitialViews(defaultIterations, defaultPalette);
      AllFractalTypesComplete(defaultFractal);
      lastSavedView := None;
      var h := new ViewHistory(50);
      history := h;
      new;
      history.Push(fractalType, GetView());
    }

    /** `save_view_to_history` */
    method SaveViewToHistory()
      requires Valid()
      modifies this, history
      ensures Valid() && fractalType == old(fractalType) && views == old(views) && GetView() == old(GetView())
      ensures SaverModel() == SaveStep(old(SaverModel()), Entry(fractalType, GetView()), history.maxSize)
    {
      var current := GetView();
      if lastSavedView.Some? {
        var last := lastSavedView.value;
        if last.fractalType == fractalType
          && AbsDiff(last.view.centerX, current.centerX) < 0.0000000001
          && AbsDiff(last.view.centerY, current.centerY) < 0.0000000001
          && AbsDiff(last.view.zoom, current.zoom) < 0.0000000001
        {
          return;
        }
      }
      history.Push(fractalType, current);
      lastSavedView := Some(Entry(fractalType, current));
    }

    /** `zoom_view`: save the view, then multiply its zoom. */
    method ZoomView(factor: real)
      requires Valid()
      modifies this, history
      ensures Valid() && fractalType == old(fractalType)
      ensures SaverModel() == SaveStep(old(SaverModel()), Entry(fractalType, old(GetView())), history.maxSize)
      ensures fractalType in views && views == old(views)[fractalType := views[fractalType]]
      ensures GetView().zoom == old(GetView()).zoom * factor
      ensures GetView() == old(GetView()).(zoom := GetView().zoom)
      ensures AppModel() == ZoomAsWrittenStep(old(AppModel()), factor, history.maxSize)
    {
      SaveViewToHistory();
      var view := GetView();
      view := view.(zoom := view.zoom * factor);
      views := views[fractalType := view];
    }

    /** `FractalApp::undo`: show the entry the history steps back to. */
    method Undo()
      requires Valid()
      modifies this, history
      ensures Valid() && lastSavedView == old(lastSavedView)
      ensures history.Model() == UndoStep(old(history.Model())).0
      ensures var r := UndoStep(old(history.Model())).1;
        if r.Some? then fractalType == r.value.fractalType && views == old(views)[fractalType := r.value.view]
        else fractalType == old(fractalType) && views == old(views)
      ensures old(history.CanUndo()) ==> Entry(fractalType, GetView()) == history.CurrentEntry().value
      ensures AppModel() == UndoApp(old(AppModel()))
    {
      var r := history.Undo();
      if r.Some? {
        fractalType := r.value.fractalType;
        views := views[fractalType := r.value.view];
      }
    }

    /** `FractalApp::redo`: show the entry the history steps forward to. */
    method Redo()
      requires Valid()
      modifies this, history
      ensures Valid() && lastSavedView == old(lastSavedView)
      ensures history.Model() == RedoStep(old(history.Model())).0
      ensures var r := RedoStep(old(history.Model())).1;
        if r.Some? then fractalType == r.value.fractalType && views == old(views)[fractalType := r.value.view]
        else fractalType == old(fractalType) && views == old(views)
      ensures old(history.CanRedo()) ==> Entry(fractalType, GetView()) == history.CurrentEntry().value
    {
      var r := history.Redo();
      if r.Some? {
        fractalType := r.value.fractalType;
        views := views[fractalType := r.value.view];
      }
    }
  }
}
