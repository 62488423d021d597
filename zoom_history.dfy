/**
 * Per-fractal session state of the Python explorer
 * (python-claude-opus-4.5/fractal_generator/state.py): the view record, the
 * two-stack zoom history and the session object that creates both lazily per
 * fractal name.
 *
 * The `parameters` dictionaries hold arbitrary Python values; here they map
 * names to reals. `deepcopy` of such a dictionary is a value copy, which a
 * Dafny `map` already is.
 */
module ZoomHistoryModel {
  import opened Wrappers

  /** `ViewState` */
  datatype ViewState = ViewState(xMin: real, xMax: real, yMin: real, yMax: real,
                                 maxIter: int, parameters: map<string, real>)

  /** `ZoomHistory.MAX_HISTORY_SIZE` */
  const MaxHistorySize: nat := 50

  /** The undo stack (`_history`) and the redo stack (`_future`), tops at the end. */
  datatype Stacks = Stacks(past: seq<ViewState>, future: seq<ViewState>)

  /** Together the two stacks never hold more than `MAX_HISTORY_SIZE` views. */
  predicate Bounded(s: Stacks)
  {
    |s.past| + |s.future| <= MaxHistorySize
  }

  /** `ZoomHistory.push`: append, empty the redo stack, drop the oldest view when over the limit. */
  function PushStep(s: Stacks, v: ViewState): (r: Stacks)
    ensures |s.past| <= MaxHistorySize ==>
      && Bounded(r)
      && |r.past| == if |s.past| < MaxHistorySize then |s.past| + 1 else MaxHistorySize
  {
    var appended := s.past + [v];
    if |appended| > MaxHistorySize then Stacks(appended[1..], []) else Stacks(appended, [])
  }

  /**
   * What a push leaves: the redo stack empty and the undo stack the old one
   * with `v` on top, less its oldest view when that went over the limit.
   */
  lemma PushKeepsNewestViews(s: Stacks, v: ViewState)
    ensures var r := PushStep(s, v);
      && r.future == [] && 0 < |r.past| && r.past[|r.past| - 1] == v
      && |s.past| <= |r.past| <= |s.past| + 1
      && r.past == (s.past + [v])[|s.past| + 1 - |r.past|..]
  {
  }

  /** `ZoomHistory.undo(current)`: nothing on an empty history; otherwise save `current` for redo and pop the last view. */
  function UndoStep(s: Stacks, current: ViewState): (r: (Stacks, Option<ViewState>))
    ensures |s.past| == 0 ==> r == (s, None)
    ensures |s.past| > 0 ==>
      && r.1 == Some(s.past[|s.past| - 1])
      && r.0.past == s.past[..|s.past| - 1]
      && r.0.future == s.future + [current]
    ensures |r.0.past| + |r.0.future| == |s.past| + |s.future|
  {
    if |s.past| == 0 then (s, None)
    else (Stacks(s.past[..|s.past| - 1], s.future + [current]), Some(s.past[|s.past| - 1]))
  }

  /** `ZoomHistory.redo(current)`: the mirror image of undo. */
  function RedoStep(s: Stacks, current: ViewState): (r: (Stacks, Option<ViewState>))
    ensures |s.future| == 0 ==> r == (s, None)
    ensures |s.future| > 0 ==>
      && r.1 == Some(s.future[|s.future| - 1])
      && r.0.future == s.future[..|s.future| - 1]
      && r.0.past == s.past + [current]
    ensures |r.0.past| + |r.0.future| == |s.past| + |s.future|
  {
    if |s.future| == 0 then (s, None)
    else (Stacks(s.past + [current], s.future[..|s.future| - 1]), Some(s.future[|s.future| - 1]))
  }

  /**
   * Undo followed by a redo from the view undo returned brings back both
   * stacks and returns the view that was current before the undo.
   */
  lemma {:induction false} UndoThenRedo(s: Stacks, current: ViewState)
    requires |s.past| > 0
    ensures var (u, prev) := UndoStep(s, current);
      RedoStep(u, prev.value) == (s, Some(current))
  {
    var (u, prev) := UndoStep(s, current);
    assert u.past + [prev.value] == s.past;
    assert u.future[..|u.future| - 1] == s.future;
  }

  /** Redo followed by an undo from the view redo returned brings back both stacks. */
  lemma {:induction false} RedoThenUndo(s: Stacks, current: ViewState)
    requires |s.future| > 0
    ensures var (u, next) := RedoStep(s, current);
      UndoStep(u, next.value) == (s, Some(current))
  {
    var (u, next) := RedoStep(s, current);
    assert u.future + [next.value] == s.future;
    assert u.past[..|u.past| - 1] == s.past;
  }

  /** Undo on an empty history is refused and changes nothing, whatever the current view. */
  lemma UndoOnEmptyIsNoOp(future: seq<ViewState>, current: ViewState)
    ensures UndoStep(Stacks([], future), current) == (Stacks([], future), None)
  {
  }

  datatype Op = Push(v: ViewState) | Undo(current: ViewState) | Redo(current: ViewState) | Clear

  function Step(s: Stacks, op: Op): Stacks
    requires Bounded(s)
  {
    match op
    case Push(v) => PushStep(s, v)
    case Undo(cur) => UndoStep(s, cur).0
    case Redo(cur) => RedoStep(s, cur).0
    case Clear => Stacks([], [])
  }

  function Run(s: Stacks, ops: seq<Op>): Stacks
    requires Bounded(s)
    decreases |ops|
  {
    if ops == [] then s
    else
      var next := Step(s, ops[0]);
      assert Bounded(next);
      Run(next, ops[1..])
  }

  /** From any bounded pair of stacks, no sequence of operations ever holds more than 50 views. */
  lemma {:induction false} RunStaysBounded(s: Stacks, ops: seq<Op>)
    requires Bounded(s)
    ensures Bounded(Run(s, ops))
    ensures |Run(s, ops).past| <= MaxHistorySize
    decreases |ops|
  {
    if ops != [] {
      RunStaysBounded(Step(s, ops[0]), ops[1..]);
    }
  }

  /** `FractalState`: the mutable per-fractal view. */
  class FractalState {
    var xMin: real
    var xMax: real
    var yMin: real
    var yMax: real
    var maxIter: int
    var parameters: map<string, real>

    /** The dataclass defaults: x in [-2.5, 1], y in [-1.5, 1.5], 100 iterations, no parameters. */
    constructor ()
      ensures ToViewState() == ViewState(-2.5, 1.0, -1.5, 1.5, 100, map[])
    {
      xMin, xMax, yMin, yMax := -2.5, 1.0, -1.5, 1.5;
      maxIter := 100;
      parameters := map[];
    }

    /** `get_bounds` */
    function GetBounds(): (real, real, real, real)
      reads this
    {
      (xMin, xMax, yMin, yMax)
    }

    /** `set_bounds`: only the bounds change. */
    method SetBounds(xMin: real, xMax: real, yMin: real, yMax: real)
      modifies this
      ensures GetBounds() == (xMin, xMax, yMin, yMax)
      ensures maxIter == old(maxIter) && parameters == old(parameters)
    {
      this.xMin, this.xMax, this.yMin, this.yMax := xMin, xMax, yMin, yMax;
    }

    /** `to_view_state`: a snapshot of every field. */
    function ToViewState(): ViewState
      reads this
    {
      ViewState(xMin, xMax, yMin, yMax, maxIter, parameters)
    }

    /** `from_view_state`: afterwards the snapshot of this state is the given view. */
    method FromViewState(v: ViewState)
      modifies this
      ensures ToViewState() == v
    {
      xMin, xMax, yMin, yMax := v.xMin, v.xMax, v.yMin, v.yMax;
      maxIter := v.maxIter;
      parameters := v.parameters;
    }

    /** Restoring a state from its own snapshot leaves bounds, iterations and parameters as they were. */
    method RestoreOwnSnapshot()
      modifies this
      ensures GetBounds() == old(GetBounds())
      ensures maxIter == old(maxIter) && parameters == old(parameters)
    {
      FromViewState(ToViewState());
    }
  }

  /** `ZoomHistory`: two stacks of views, bounded together by `MAX_HISTORY_SIZE`. */
  class ZoomHistory {
    var past: seq<ViewState>
    var future: seq<ViewState>

    predicate Valid()
      reads this
    {
      Bounded(Stacks(past, future))
    }

    function Model(): Stacks
      reads this
    {
      Stacks(past, future)
    }

    constructor ()
      ensures Valid() && Model() == Stacks([], [])
    {
      past := [];
      future := [];
    }

    /** `push` */
    method Push(v: ViewState)
      requires Valid()
      modifies this
      ensures Valid() && Model() == PushStep(old(Model()), v)
    {
      past := past + [v];
      future := [];
      if |past| > MaxHistorySize {
        past := past[1..];
      }
    }

    function CanUndo(): bool
      reads this
    {
      |past| > 0
    }

    function CanRedo(): bool
      reads this
    {
      |future| > 0
    }

    /** `undo` */
    method Undo(current: ViewState) returns (r: Option<ViewState>)
      requires Valid()
      modifies this
      ensures Valid() && (Model(), r) == UndoStep(old(Model()), current)
    {
      if |past| == 0 {
        return None;
      }
      future := future + [current];
      r := Some(past[|past| - 1]);
      past := past[..|past| - 1];
    }

    /** `redo` */
    method Redo(current: ViewState) returns (r: Option<ViewState>)
      requires Valid()
      modifies this
      ensures Valid() && (Model(), r) == RedoStep(old(Model()), current)
    {
      if |future| == 0 {
        return None;
      }
      past := past + [current];
      r := Some(future[|future| - 1]);
      future := future[..|future| - 1];
    }

    /** `clear` */
    method Clear()
      modifies this
      ensures Valid() && Model() == Stacks([], [])
    {
      past := [];
      future := [];
    }

    /** `history_count` */
    function HistoryCount(): nat
      reads this
    {
      |past|
    }

    /** `future_count` */
    function FutureCount(): nat
      reads this
    {
      |future|
    }
  }

  /** `SessionState`: per-fractal states and histories, created on first use. */
  class SessionState {
    var states: map<string, FractalState>
    var histories: map<string, ZoomHistory>
    var currentFractal: Option<string>

    /**
     * Every history is valid, and every name owns its own state and history
     * object: `get_state` and `get_history` create a new one per name.
     */
    predicate Valid()
      reads this, histories.Values
    {
      && (forall n | n in histories :: histories[n].Valid())
      && (forall a, b | a in histories && b in histories && a != b :: histories[a] != histories[b])
      && (forall a, b | a in states && b in states && a != b :: states[a] != states[b])
    }

    /** Every history other than `name`'s is the same object holding the same stacks as before. */
    twostate predicate OtherHistoriesUnchanged(name: string)
      reads this, histories.Values
    {
      forall n | n in old(histories) && n != name ::
        n in histories && histories[n] == old(histories[n]) && histories[n].Model() == old(histories[n].Model())
    }

    /** Every state other than `name`'s is the same object holding the same view as before. */
    twostate predicate OtherStatesUnchanged(name: string)
      reads this, states.Values
    {
      forall n | n in old(states) && n != name ::
        n in states && states[n] == old(states[n]) && states[n].ToViewState() == old(states[n].ToViewState())
    }

    /** The same state objects under the same names, each holding the same view as before. */
    twostate predicate StatesUnchanged()
      reads this, states.Values
    {
      states == old(states) && forall n | n in states :: states[n].ToViewState() == old(states[n].ToViewState())
    }

    constructor ()
      ensures Valid() && states == map[] && histories == map[] && currentFractal == None
    {
      states := map[];
      histories := map[];
      currentFractal := None;
    }

    /**
     * `get_state`: the state stored under the name; a fresh default one is
     * stored first when there is none, so later calls return the same object.
     */
    method GetState(name: string) returns (s: FractalState)
      requires Valid()
      modifies this
      ensures Valid()
      ensures name in states && s == states[name]
      ensures name in old(states) ==> states == old(states) && s == old(states[name])
      ensures name !in old(states) ==>
        && fresh(s) && states == old(states)[name := s]
        && s.ToViewState() == ViewState(-2.5, 1.0, -1.5, 1.5, 100, map[])
      ensures histories == old(histories) && currentFractal == old(currentFractal)
    {
      if name !in states {
        var created := new FractalState();
        states := states[name := created];
      }
      s := states[name];
    }

    /** `get_history`: the history stored under the name, created empty on first use. */
    method GetHistory(name: string) returns (h: ZoomHistory)
      requires Valid()
      modifies this
      ensures Valid() && h.Valid()
      ensures name in histories && h == histories[name]
      ensures name in old(histories) ==> histories == old(histories)
      ensures name !in old(histories) ==>
        fresh(h) && histories == old(histories)[name := h] && h.Model() == Stacks([], [])
      ensures states == old(states) && currentFractal == old(currentFractal)
    {
      if name !in histories {
        var created := new ZoomHistory();
        histories := histories[name := created];
      }
      h := histories[name];
    }

    /**
     * `save_state`: bounds and iteration limit always; the parameters only
     * when a non-empty dictionary is given. No other name's state changes.
     */
    method SaveState(name: string, xMin: real, xMax: real, yMin: real, yMax: real,
                     maxIter: int, parameters: Option<map<string, real>>)
      requires Valid()
      modifies this, states.Values
      ensures Valid() && name in states
      ensures histories == old(histories) && currentFractal == old(currentFractal)
      ensures forall n | n in histories :: histories[n].Model() == old(histories[n].Model())
      ensures name in old(states) ==> states == old(states)
      ensures name !in old(states) ==> fresh(states[name]) && states == old(states)[name := states[name]]
      ensures OtherStatesUnchanged(name)
      ensures states[name].GetBounds() == (xMin, xMax, yMin, yMax) && states[name].maxIter == maxIter
      ensures parameters.Some? && parameters.value != map[] ==> states[name].parameters == parameters.value
      ensures !(parameters.Some? && parameters.value != map[]) ==>
        states[name].parameters == if name in old(states) then old(states[name].parameters) else map[]
    {
      var s := GetState(name);
      s.SetBounds(xMin, xMax, yMin, yMax);
      s.maxIter := maxIter;
      if parameters.Some? && parameters.value != map[] {
        s.parameters := parameters.value;
      }
    }

    /**
     * `push_to_history`: push a snapshot of the given state onto the name's
     * history; the states and every other history are left alone.
     */
    method PushToHistory(name: string, state: FractalState)
      requires Valid()
      modifies this, histories.Values
      ensures Valid() && name in histories
      ensures histories.Keys == old(histories.Keys) + {name}
      ensures name in old(histories) ==> histories[name] == old(histories[name])
      ensures name !in old(histories) ==> fresh(histories[name])
      ensures histories[name].Model() ==
        PushStep(if name in old(histories) then old(histories[name].Model()) else Stacks([], []),
                 old(state.ToViewState()))
      ensures OtherHistoriesUnchanged(name)
      ensures StatesUnchanged() && currentFractal == old(currentFractal)
      ensures state.ToViewState() == old(state.ToViewState())
    {
      var v := state.ToViewState();
      var h := GetHistory(name);
      h.Push(v);
    }

    /** `undo_zoom`: only the name's history moves. */
    method UndoZoom(name: string, current: ViewState) returns (r: Option<ViewState>)
      requires Valid()
      modifies this, histories.Values
      ensures Valid() && name in histories
      ensures histories.Keys == old(histories.Keys) + {name}
      ensures name in old(histories) ==> histories[name] == old(histories[name])
      ensures name !in old(histories) ==> fresh(histories[name])
      ensures (histories[name].Model(), r) ==
        UndoStep(if name in old(histories) then old(histories[name].Model()) else Stacks([], []), current)
      ensures OtherHistoriesUnchanged(name)
      ensures StatesUnchanged() && currentFractal == old(currentFractal)
    {
      var h := GetHistory(name);
      r := h.Undo(current);
    }

    /** `redo_zoom`: only the name's history moves. */
    method RedoZoom(name: string, current: ViewState) returns (r: Option<ViewState>)
      requires Valid()
      modifies this, histories.Values
      ensures Valid() && name in histories
      ensures histories.Keys == old(histories.Keys) + {name}
      ensures name in old(histories) ==> histories[name] == old(histories[name])
      ensures name !in old(histories) ==> fresh(histories[name])
      ensures (histories[name].Model(), r) ==
        RedoStep(if name in old(histories) then old(histories[name].Model()) else Stacks([], []), current)
      ensures OtherHistoriesUnchanged(name)
      ensures StatesUnchanged() && currentFractal == old(currentFractal)
    {
      var h := GetHistory(name);
      r := h.Redo(current);
    }

    /**
     * `reset_state`: forget the name's state and empty its history, if it has
     * one; the other fractals keep their states and histories.
     */
    method ResetState(name: string)
      requires Valid()
      modifies this, histories.Values
      ensures Valid()
      ensures states == old(states) - {name} && histories == old(histories)
      ensures name in histories ==> histories[name].Model() == Stacks([], [])
      ensures OtherHistoriesUnchanged(name) && OtherStatesUnchanged(name)
      ensures currentFractal == old(currentFractal)
    {
      if name in states {
        states := states - {name};
      }
      if name in histories {
        histories[name].Clear();
      }
    }

    /** `clear_all` */
    method ClearAll()
      modifies this
      ensures Valid() && states == map[] && histories == map[] && currentFractal == None
    {
      states := map[];
      histories := map[];
      currentFractal := None;
    }
  }
}
