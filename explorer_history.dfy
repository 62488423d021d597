/**
 * The per-fractal back/forward history of the Tkinter explorer
 * (python-kimi-k2.5-opencode/fractal_explorer.py).
 *
 * Each fractal name owns a list of saved states and an index into it (-1 for
 * an empty list). A push drops the entries after the index, appends, and
 * evicts the oldest entry when the list outgrows `max_history_size`; a push
 * of the state already at the index is ignored. Back and forward move the
 * index and restore the entry, where an empty parameter dictionary, an empty
 * palette name and a zero iteration limit count as "absent" and leave the
 * current value in place.
 */
module ExplorerHistoryModel {
  import opened Wrappers

  /** `MAX_HISTORY_SIZE` */
  const MaxHistorySize: nat := 50

  /** A history entry: the dictionary with keys bounds, fractal_params, palette_name and max_iter. */
  datatype ExplorerState = ExplorerState(bounds: map<string, real>, fractalParams: map<string, real>,
                                         paletteName: string, maxIter: int)

  /** One fractal's history list and its index. */
  datatype Hist = Hist(entries: seq<ExplorerState>, index: int)

  /** What `_push_current_state` starts from for a fractal without a history. */
  const EmptyHist := Hist([], -1)

  /** The index is -1 exactly when the list is empty and points at an entry otherwise. */
  predicate WellFormed(h: Hist, maxSize: nat)
  {
    -1 <= h.index < |h.entries| <= maxSize && (h.index == -1 <==> |h.entries| == 0)
  }

  /** The back button is enabled. */
  predicate CanGoBack(h: Hist) { h.index > 0 }

  /** The forward button is enabled. */
  predicate CanGoForward(h: Hist) { h.index < |h.entries| - 1 }

  /** The state at the index equals the one being pushed. */
  predicate IsDuplicate(h: Hist, s: ExplorerState)
  {
    |h.entries| > 0 && 0 <= h.index < |h.entries| && h.entries[h.index] == s
  }

  /** The list and index after `_push_current_state` records `s`. */
  function PushStep(h: Hist, s: ExplorerState, maxSize: nat): (r: Hist)
    requires WellFormed(h, maxSize)
    ensures WellFormed(r, maxSize)
    ensures IsDuplicate(h, s) ==> r == h
    ensures !IsDuplicate(h, s) ==>
      && r.index == |r.entries| - 1 && !CanGoForward(r)
      && (maxSize > 0 ==> 0 <= r.index && r.entries[r.index] == s)
      && (h.index + 1 < maxSize ==> r.entries == h.entries[..h.index + 1] + [s])
      && (h.index + 1 == maxSize ==> r.entries == (h.entries + [s])[1..])
  {
    if IsDuplicate(h, s) then h
    else
      var kept := if h.index < |h.entries| - 1 then h.entries[..h.index + 1] else h.entries;
      var appended := kept + [s];
      if |appended| > maxSize then Hist(appended[1..], |appended| - 2)
      else Hist(appended, h.index + 1)
  }

  /** `go_back`: step the index back and return the entry to restore. */
  function BackStep(h: Hist): (r: (Hist, Option<ExplorerState>))
    requires WellFormed(h, MaxHistorySize)
    ensures WellFormed(r.0, MaxHistorySize) && r.0.entries == h.entries
    ensures !CanGoBack(h) ==> r == (h, None)
    ensures CanGoBack(h) ==>
      r.0.index == h.index - 1 && CanGoForward(r.0) && r.1 == Some(h.entries[h.index - 1])
  {
    if CanGoBack(h) then (h.(index := h.index - 1), Some(h.entries[h.index - 1])) else (h, None)
  }

  /** `go_forward`: step the index forward and return the entry to restore. */
  function ForwardStep(h: Hist): (r: (Hist, Option<ExplorerState>))
    requires WellFormed(h, MaxHistorySize)
    ensures WellFormed(r.0, MaxHistorySize) && r.0.entries == h.entries
    ensures !CanGoForward(h) ==> r == (h, None)
    ensures CanGoForward(h) ==>
      r.0.index == h.index + 1 && CanGoBack(r.0) && r.1 == Some(h.entries[h.index + 1])
  {
    if CanGoForward(h) then (h.(index := h.index + 1), Some(h.entries[h.index + 1])) else (h, None)
  }

  /** Pushing the same state twice records it once. */
  lemma PushTwiceRecordsOnce(h: Hist, s: ExplorerState)
    requires WellFormed(h, MaxHistorySize)
    ensures PushStep(PushStep(h, s, MaxHistorySize), s, MaxHistorySize) == PushStep(h, s, MaxHistorySize)
  {
  }

  /** `_initialize_fractal_history`: the first push gives exactly one entry, at index 0. */
  lemma FirstPushGivesOneEntry(s: ExplorerState)
    ensures PushStep(EmptyHist, s, MaxHistorySize) == Hist([s], 0)
  {
  }

  /** Going back and then forward returns to the same index and restores the entry that was current. */
  lemma BackThenForward(h: Hist)
    requires WellFormed(h, MaxHistorySize) && CanGoBack(h)
    ensures ForwardStep(BackStep(h).0) == (h, Some(h.entries[h.index]))
  {
  }

  /**
   * After a push that is not a duplicate, going back returns the entry that
   * was at the index before the push, provided it survived the eviction.
   */
  lemma {:induction false} BackAfterPush(h: Hist, s: ExplorerState)
    requires WellFormed(h, MaxHistorySize) && h.index >= 0 && !IsDuplicate(h, s)
    requires h.index + 1 < MaxHistorySize
    ensures BackStep(PushStep(h, s, MaxHistorySize)).1 == Some(h.entries[h.index])
  {
    var r := PushStep(h, s, MaxHistorySize);
    assert r.entries == h.entries[..h.index + 1] + [s];
    assert r.entries[r.index - 1] == h.entries[h.index];
  }

  /** `_restore_state` on the four restorable settings: falsy entry values leave the current ones. */
  function Restore(current: ExplorerState, entry: ExplorerState): (r: ExplorerState)
    ensures r.bounds == entry.bounds
    ensures r.fractalParams == if entry.fractalParams != map[] then entry.fractalParams else current.fractalParams
    ensures r.paletteName == if entry.paletteName != "" then entry.paletteName else current.paletteName
    ensures r.maxIter == if entry.maxIter != 0 then entry.maxIter else current.maxIter
  {
    ExplorerState(
      entry.bounds,
      if entry.fractalParams != map[] then entry.fractalParams else current.fractalParams,
      if entry.paletteName != "" then entry.paletteName else current.paletteName,
      if entry.maxIter != 0 then entry.maxIter else current.maxIter)
  }

  /** Restoring an entry whose values are all truthy reproduces it exactly. */
  lemma RestoreTruthyEntry(current: ExplorerState, entry: ExplorerState)
    requires entry.fractalParams != map[] && entry.paletteName != "" && entry.maxIter != 0
    ensures Restore(current, entry) == entry
  {
  }

  /**
   * An entry saved with no fractal parameters does not clear the current
   * ones: after restoring it the explorer's state differs from the entry.
   */
  lemma RestoreKeepsParamsOfEmptyEntry(current: ExplorerState, entry: ExplorerState)
    requires entry.fractalParams == map[] && current.fractalParams != map[]
    ensures Restore(current, entry) != entry
    ensures Restore(current, entry).fractalParams == current.fractalParams
  {
  }

  /** Restoring the same entry twice is the same as restoring it once. */
  lemma RestoreIdempotent(current: ExplorerState, entry: ExplorerState)
    ensures Restore(Restore(current, entry), entry) == Restore(current, entry)
  {
  }

  /** Every fractal with a history has an index, and each list and index is well formed. */
  predicate AllWellFormed(histories: map<string, seq<ExplorerState>>, indices: map<string, int>)
  {
    && histories.Keys == indices.Keys
    && forall n | n in histories :: WellFormed(Hist(histories[n], indices[n]), MaxHistorySize)
  }

  /** Storing a well-formed list and index for one fractal keeps all of them well formed. */
  lemma StoreKeepsWellFormed(histories: map<string, seq<ExplorerState>>, indices: map<string, int>,
                             name: string, h: Hist)
    requires AllWellFormed(histories, indices) && WellFormed(h, MaxHistorySize)
    ensures AllWellFormed(histories[name := h.entries], indices[name := h.index])
  {
  }

  /** The per-fractal settings `_restore_state` writes back: bounds, palette name and iteration limit. */
  datatype Storage = Storage(bounds: map<string, map<string, real>>, palette: map<string, string>,
                             iter: map<string, int>)

  /**
   * The storage after `_restore_state` of `entry` for fractal `name`: the
   * bounds always, the palette and the iteration limit only when the entry's
   * values are truthy.
   */
  function RestoreStorage(st: Storage, name: string, entry: ExplorerState): (r: Storage)
    ensures r.bounds.Keys == st.bounds.Keys + {name} && r.bounds[name] == entry.bounds
    ensures r.palette == if entry.paletteName != "" then st.palette[name := entry.paletteName] else st.palette
    ensures r.iter == if entry.maxIter != 0 then st.iter[name := entry.maxIter] else st.iter
    ensures forall n | n in st.bounds && n != name :: r.bounds[n] == st.bounds[n]
  {
    Storage(st.bounds[name := entry.bounds],
            if entry.paletteName != "" then st.palette[name := entry.paletteName] else st.palette,
            if entry.maxIter != 0 then st.iter[name := entry.maxIter] else st.iter)
  }

  /** The storage remembers `current` as the settings of `name` (what switching back to it reads). */
  predicate Remembers(st: Storage, name: string, current: ExplorerState)
  {
    && name in st.bounds && st.bounds[name] == current.bounds
    && name in st.palette && st.palette[name] == current.paletteName
    && name in st.iter && st.iter[name] == current.maxIter
  }

  /**
   * When the storage remembered the settings on screen before a restore, it
   * remembers the restored settings afterwards: switching fractals away and
   * back brings back what `_restore_state` installed.
   */
  lemma {:induction false} RestoreKeepsStorageInStep(st: Storage, name: string, current: ExplorerState,
                                                     entry: ExplorerState)
    requires Remembers(st, name, current)
    ensures Remembers(RestoreStorage(st, name, entry), name, Restore(current, entry))
  {
    var r := RestoreStorage(st, name, entry);
    var c := Restore(current, entry);
    assert r.palette[name] == c.paletteName by {
      if entry.paletteName == "" {
        assert r.palette == st.palette;
      }
    }
    assert r.iter[name] == c.maxIter by {
      if entry.maxIter == 0 {
        assert r.iter == st.iter;
      }
    }
  }

  /**
   * The list work of `_push_current_state` on one fractal's list and index:
   * skip a duplicate of the entry at the index, else drop the entries after
   * the index, append, and evict the oldest entry past the limit.
   */
  method PushEntry(history: seq<ExplorerState>, historyIndex: int, state: ExplorerState)
    returns (newHistory: seq<ExplorerState>, newIndex: int)
    requires WellFormed(Hist(history, historyIndex), MaxHistorySize)
    ensures Hist(newHistory, newIndex) == PushStep(Hist(history, historyIndex), state, MaxHistorySize)
  {
    newHistory, newIndex := history, historyIndex;
    if |history| > 0 && historyIndex >= 0 && historyIndex < |history| {
      if history[historyIndex] == state {
        return;
      }
    }
    if historyIndex < |history| - 1 {
      newHistory := history[..historyIndex + 1];
    }
    newHistory := newHistory + [state];
    if |newHistory| > MaxHistorySize {
      newHistory := newHistory[1..];
      newIndex := |newHistory| - 1;
    } else {
      newIndex := historyIndex + 1;
    }
  }

  /** The history-related fields of `FractalExplorer`. */
  class Explorer {
    var fractalName: string
    var fractalParams: map<string, real>
    var paletteName: string
    var maxIter: int
    var boundsStorage: map<string, map<string, real>>
    var paletteStorage: map<string, string>
    var iterStorage: map<string, int>
    var histories: map<string, seq<ExplorerState>>
    var indices: map<string, int>
    /** The default bounds of each fractal, as its registered class reports them. */
    const defaultBounds: string -> map<string, real>

    predicate Valid()
      reads this`histories, this`indices
    {
      AllWellFormed(histories, indices)
    }

    /** The current fractal's history, empty when it has none. */
    function CurrentHist(): Hist
      reads this`fractalName, this`histories, this`indices
    {
      if fractalName in histories && fractalName in indices
      then Hist(histories[fractalName], indices[fractalName])
      else EmptyHist
    }

    /** `get_bounds`: the stored bounds, or the fractal's defaults. */
    function GetBounds(): (b: map<string, real>)
      reads this`fractalName, this`boundsStorage
      ensures fractalName in boundsStorage ==> b == boundsStorage[fractalName]
      ensures fractalName !in boundsStorage ==> b == defaultBounds(fractalName)
    {
      if fractalName in boundsStorage then boundsStorage[fractalName] else defaultBounds(fractalName)
    }

    /** The three storage maps. */
    function Stored(): Storage
      reads this`boundsStorage, this`paletteStorage, this`iterStorage
    {
      Storage(boundsStorage, paletteStorage, iterStorage)
    }

    /** The state `_push_current_state` records. */
    function CurrentState(): ExplorerState
      reads this`fractalName, this`boundsStorage, this`fractalParams, this`paletteName, this`maxIter
    {
      ExplorerState(GetBounds(), fractalParams, paletteName, maxIter)
    }

    /** The start-up values of the fields involved: Mandelbrot, no parameters, the "smooth" palette, 100 iterations. */
    constructor (defaultBounds: string -> map<string, real>)
      ensures Valid() && fractalName == "mandelbrot" && histories == map[] && indices == map[]
      ensures CurrentState() == ExplorerState(defaultBounds("mandelbrot"), map[], "smooth", 100)
    {
      fractalName := "mandelbrot";
      fractalParams := map[];
      paletteName := "smooth";
      maxIter := 100;
      boundsStorage := map[];
      paletteStorage := map[];
      iterStorage := map[];
      histories := map[];
      indices := map[];
      this.defaultBounds := defaultBounds;
    }

    /** `_push_current_state` */
    method PushCurrentState()
      requires Valid()
      modifies this
      ensures Valid() && fractalName == old(fractalName) && fractalName in histories
      ensures CurrentHist() == PushStep(old(CurrentHist()), old(CurrentState()), MaxHistorySize)
      ensures histories == old(histories)[fractalName := CurrentHist().entries]
      ensures indices == old(indices)[fractalName := CurrentHist().index]
      ensures unchanged(this`fractalParams, this`paletteName, this`maxIter)
      ensures unchanged(this`boundsStorage, this`paletteStorage, this`iterStorage)
    {
      // A fractal without a list starts from an empty one; a duplicate
      // push writes the same list and index back, which the source skips.
      var history, historyIndex := [], -1;
      if fractalName in histories {
        history, historyIndex := histories[fractalName], indices[fractalName];
      }
      var newHistory, newIndex := PushEntry(history, historyIndex, CurrentState());
      StoreKeepsWellFormed(histories, indices, fractalName, Hist(newHistory, newIndex));
      histories, indices := histories[fractalName := newHistory], indices[fractalName := newIndex];
    }

    /** `_initialize_fractal_history`: a fractal seen for the first time starts with its current state as the only entry. */
    method InitializeFractalHistory()
      requires Valid()
      modifies this
      ensures Valid() && fractalName == old(fractalName) && fractalName in histories
      ensures fractalName !in old(histories) ==>
        && histories == old(histories)[fractalName := [old(CurrentState())]]
        && indices == old(indices)[fractalName := 0]
      ensures fractalName in old(histories) ==> histories == old(histories) && indices == old(indices)
      ensures unchanged(this`fractalParams, this`paletteName, this`maxIter)
      ensures unchanged(this`boundsStorage, this`paletteStorage, this`iterStorage)
    {
      if fractalName !in histories {
        histories := histories[fractalName := []];
        indices := indices[fractalName := -1];
        PushCurrentState();
        FirstPushGivesOneEntry(old(CurrentState()));
      }
    }

    /** `_restore_state`: the settings become `Restore` of the current ones and the entry. */
    method RestoreState(entry: ExplorerState)
      modifies this
      ensures CurrentState() == Restore(old(CurrentState()), entry)
      ensures unchanged(this`fractalName, this`histories, this`indices)
      ensures Stored() == RestoreStorage(old(Stored()), fractalName, entry)
    {
      if entry.fractalParams != map[] {
        fractalParams := entry.fractalParams;
      }
      if entry.paletteName != "" {
        paletteName := entry.paletteName;
        paletteStorage := paletteStorage[fractalName := paletteName];
      }
      if entry.maxIter != 0 {
        maxIter := entry.maxIter;
        iterStorage := iterStorage[fractalName := maxIter];
      }
      boundsStorage := boundsStorage[fractalName := entry.bounds];
    }

    /** `go_back` */
    method GoBack()
      requires Valid()
      modifies this
      ensures Valid() && histories == old(histories) && fractalName == old(fractalName)
      ensures CurrentHist() == BackStep(old(CurrentHist())).0
      ensures indices == if BackStep(old(CurrentHist())).1.Some? then old(indices)[fractalName := CurrentHist().index]
                         else old(indices)
      ensures var e := BackStep(old(CurrentHist())).1;
        CurrentState() == if e.Some? then Restore(old(CurrentState()), e.value) else old(CurrentState())
      ensures var e := BackStep(old(CurrentHist())).1;
        Stored() == if e.Some? then RestoreStorage(old(Stored()), fractalName, e.value) else old(Stored())
    {
      var historyIndex := if fractalName in indices then indices[fractalName] else -1;
      if historyIndex > 0 {
        indices := indices[fractalName := historyIndex - 1];
        var history := histories[fractalName];
        RestoreState(history[indices[fractalName]]);
      }
    }

    /** `go_forward` */
    method GoForward()
      requires Valid()
      modifies this
      ensures Valid() && histories == old(histories) && fractalName == old(fractalName)
      ensures CurrentHist() == ForwardStep(old(CurrentHist())).0
      ensures indices == if ForwardStep(old(CurrentHist())).1.Some? then old(indices)[fractalName := CurrentHist().index]
                         else old(indices)
      ensures var e := ForwardStep(old(CurrentHist())).1;
        CurrentState() == if e.Some? then Restore(old(CurrentState()), e.value) else old(CurrentState())
      ensures var e := ForwardStep(old(CurrentHist())).1;
        Stored() == if e.Some? then RestoreStorage(old(Stored()), fractalName, e.value) else old(Stored())
    {
      var historyIndex := if fractalName in indices then indices[fractalName] else -1;
      var history := if fractalName in histories then histories[fractalName] else [];
      if historyIndex < |history| - 1 {
        indices := indices[fractalName := historyIndex + 1];
        RestoreState(history[indices[fractalName]]);
      }
    }
  }
}
