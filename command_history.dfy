/**
 * Reversible commands and the bounded undo/redo command history of the Rust
 * explorer (rust-allmodels/src/command.rs).
 *
 * The `Command` trait objects become one datatype with a variant per command
 * struct. What a command does to the application state is given by `Apply`
 * and `Revert`; `AppState` is the object the commands update in place, and
 * `CommandHistory` the object holding the command list and its cursor. The
 * history's behaviour is specified by the functions on `Machine` (the command
 * list, the cursor and the application state together), and the class methods
 * are proved against them.
 */
module CommandHistoryModel {
  import opened FractalView
  import opened Wrappers
  import opened Numeric

  datatype AppSnapshot = AppSnapshot(fractalType: FractalType, view: FractalViewState, paletteOffset: real)

  datatype Command =
    | ViewCommand(oldCenterX: real, oldCenterY: real, oldZoom: real,
                  newCenterX: real, newCenterY: real, newZoom: real)
    | ParameterCommand(paramName: string, oldValue: real, newValue: real)
    | FractalTypeCommand(oldType: FractalType, newType: FractalType,
                         oldView: FractalViewState, newView: FractalViewState)
    | IterationCommand(oldIterations: nat, newIterations: nat)
    | PaletteCommand(oldPalette: PaletteType, newPalette: PaletteType, oldOffset: real, newOffset: real)

  /** The content of a command's `description()` string, without its number formatting. */
  datatype Description =
    | ZoomDescription(fromZoom: real, toZoom: real)
    | PanDescription(fromX: real, fromY: real, toX: real, toY: real)
    | SetParameterDescription(name: string, fromValue: real, toValue: real)
    | SwitchDescription(fromType: FractalType, toType: FractalType)
    | IterationsDescription(fromIterations: nat, toIterations: nat)
    | PaletteDescription(fromPalette: PaletteType, toPalette: PaletteType)

  /** The state after `command.execute(state)`. */
  function Apply(c: Command, s: AppSnapshot): AppSnapshot
  {
    match c
    case ViewCommand(_, _, _, nx, ny, nz) =>
      s.(view := s.view.(centerX := nx, centerY := ny, zoom := nz))
    case ParameterCommand(name, _, nv) =>
      s.(view := s.view.(fractalParams := s.view.fractalParams[name := nv]))
    case FractalTypeCommand(_, nt, _, nview) =>
      s.(fractalType := nt, view := nview)
    case IterationCommand(_, ni) =>
      s.(view := s.view.(maxIterations := ni))
    case PaletteCommand(_, np, _, no) =>
      s.(view := s.view.(paletteType := np), paletteOffset := no)
  }

  /** The state after `command.undo(state)`. */
  function Revert(c: Command, s: AppSnapshot): AppSnapshot
  {
    match c
    case ViewCommand(ox, oy, oz, _, _, _) =>
      s.(view := s.view.(centerX := ox, centerY := oy, zoom := oz))
    case ParameterCommand(name, ov, _) =>
      s.(view := s.view.(fractalParams := s.view.fractalParams[name := ov]))
    case FractalTypeCommand(ot, _, oview, _) =>
      s.(fractalType := ot, view := oview)
    case IterationCommand(oi, _) =>
      s.(view := s.view.(maxIterations := oi))
    case PaletteCommand(op, _, oo, _) =>
      s.(view := s.view.(paletteType := op), paletteOffset := oo)
  }

  /** `command.description()`: a view command is a zoom when the zoom changes by more than 0.01, a pan otherwise. */
  function Describe(c: Command): (d: Description)
    ensures c.ViewCommand? ==> (d.ZoomDescription? <==> Abs(c.oldZoom - c.newZoom) > 0.01)
    ensures c.ViewCommand? ==> (d.ZoomDescription? || d.PanDescription?)
  {
    match c
    case ViewCommand(ox, oy, oz, nx, ny, nz) =>
      if Abs(oz - nz) > 0.01 then ZoomDescription(oz, nz) else PanDescription(ox, oy, nx, ny)
    case ParameterCommand(name, ov, nv) => SetParameterDescription(name, ov, nv)
    case FractalTypeCommand(ot, nt, _, _) => SwitchDescription(ot, nt)
    case IterationCommand(oi, ni) => IterationsDescription(oi, ni)
    case PaletteCommand(op, np, _, _) => PaletteDescription(op, np)
  }

  /** The state holds the values a command remembers as its "old" values. */
  predicate HoldsOldValues(c: Command, s: AppSnapshot)
  {
    match c
    case ViewCommand(ox, oy, oz, _, _, _) =>
      s.view.centerX == ox && s.view.centerY == oy && s.view.zoom == oz
    case ParameterCommand(name, ov, _) =>
      name in s.view.fractalParams && s.view.fractalParams[name] == ov
    case FractalTypeCommand(ot, _, oview, _) => s.fractalType == ot && s.view == oview
    case IterationCommand(oi, _) => s.view.maxIterations == oi
    case PaletteCommand(op, _, oo, _) => s.view.paletteType == op && s.paletteOffset == oo
  }

  /** Undoing a view command puts back its old centre and zoom and touches nothing else. */
  lemma ViewUndoRestoresCenterAndZoom(c: Command, s: AppSnapshot)
    requires c.ViewCommand?
    ensures var u := Revert(c, Apply(c, s));
      u.view.centerX == c.oldCenterX && u.view.centerY == c.oldCenterY && u.view.zoom == c.oldZoom
      && u.fractalType == s.fractalType && u.paletteOffset == s.paletteOffset
      && u.view.maxIterations == s.view.maxIterations && u.view.fractalParams == s.view.fractalParams
      && u.view.paletteType == s.view.paletteType
  {
  }

  /** Undo inverts execute on any state that holds the command's old values. */
  lemma UndoInvertsExecute(c: Command, s: AppSnapshot)
    requires HoldsOldValues(c, s)
    ensures Revert(c, Apply(c, s)) == s
  {
    if c.ParameterCommand? {
      assert s.view.fractalParams[c.paramName := c.oldValue] == s.view.fractalParams;
    }
  }

  /**
   * Undo of a parameter command writes the old value back rather than removing
   * the key, so a parameter that was absent before the command is present
   * afterwards.
   */
  lemma ParameterUndoKeepsKey(c: Command, s: AppSnapshot)
    requires c.ParameterCommand? && c.paramName !in s.view.fractalParams
    ensures var u := Revert(c, Apply(c, s));
      c.paramName in u.view.fractalParams && u.view.fractalParams[c.paramName] == c.oldValue && u != s
  {
  }

  /** Re-executing a command after undoing it gives back the state the first execution produced. */
  lemma RedoAfterUndo(c: Command, s: AppSnapshot)
    ensures Apply(c, Revert(c, Apply(c, s))) == Apply(c, s)
  {
    if c.ParameterCommand? {
      var p := s.view.fractalParams;
      assert p[c.paramName := c.newValue][c.paramName := c.oldValue][c.paramName := c.newValue]
          == p[c.paramName := c.newValue];
    }
  }

  /** The command list, the cursor and the application state, taken together. */
  datatype Machine = Machine(commands: seq<Command>, index: nat, state: AppSnapshot)

  /** The cursor is within the list and the list within its bound. */
  predicate WellFormed(m: Machine, maxSize: nat)
  {
    m.index <= |m.commands| <= maxSize
  }

  predicate CanUndo(m: Machine) { m.index > 0 }

  predicate CanRedo(m: Machine) { m.index < |m.commands| }

  predicate IsSuffix<T(==)>(s: seq<T>, t: seq<T>) { |s| <= |t| && s == t[|t| - |s|..] }

  /** `CommandHistory::execute`: drop the redo branch, run the command, append it, evict the oldest when over `max_size`. */
  function ExecuteStep(m: Machine, c: Command, maxSize: nat): (r: Machine)
    requires WellFormed(m, maxSize)
    ensures WellFormed(r, maxSize)
    ensures !CanRedo(r)
    ensures r.state == Apply(c, m.state)
    ensures IsSuffix(r.commands, m.commands[..m.index] + [c])
    ensures |r.commands| == if m.index < maxSize then m.index + 1 else maxSize
    ensures maxSize > 0 ==> r.commands[|r.commands| - 1] == c
  {
    var kept := if m.index < |m.commands| then m.commands[..m.index] else m.commands;
    var pushed := kept + [c];
    if |pushed| > maxSize then Machine(pushed[1..], m.index + 1 - 1, Apply(c, m.state))
    else Machine(pushed, m.index + 1, Apply(c, m.state))
  }

  /** `CommandHistory::undo`: step the cursor back and undo the command it now points at. */
  function UndoStep(m: Machine): (r: (Machine, Option<Description>))
    requires m.index <= |m.commands|
    ensures r.0.commands == m.commands
    ensures !CanUndo(m) ==> r == (m, None)
    ensures CanUndo(m) ==>
      && r.0.index == m.index - 1 && CanRedo(r.0)
      && r.0.state == Revert(m.commands[m.index - 1], m.state)
      && r.1 == Some(Describe(m.commands[m.index - 1]))
  {
    if m.index > 0 then
      var c := m.commands[m.index - 1];
      (Machine(m.commands, m.index - 1, Revert(c, m.state)), Some(Describe(c)))
    else (m, None)
  }

  /** `CommandHistory::redo`: re-execute the command at the cursor and step past it. */
  function RedoStep(m: Machine): (r: (Machine, Option<Description>))
    requires m.index <= |m.commands|
    ensures r.0.commands == m.commands
    ensures !CanRedo(m) ==> r == (m, None)
    ensures CanRedo(m) ==>
      && r.0.index == m.index + 1 && CanUndo(r.0)
      && r.0.state == Apply(m.commands[m.index], m.state)
      && r.1 == Some(Describe(m.commands[m.index]))
  {
    if m.index < |m.commands| then
      var c := m.commands[m.index];
      (Machine(m.commands, m.index + 1, Apply(c, m.state)), Some(Describe(c)))
    else (m, None)
  }

  /** `CommandHistory::clear`. */
  function ClearStep(m: Machine): (r: Machine)
    ensures !CanUndo(r) && !CanRedo(r) && r.state == m.state
  {
    Machine([], 0, m.state)
  }

  /** `CommandHistory::recent_descriptions`: the last `count` commands before the cursor, oldest first. */
  function RecentDescriptions(m: Machine, count: nat): (r: seq<Description>)
    requires m.index <= |m.commands|
    ensures |r| <= count && |r| <= m.index
    ensures |r| == if count < m.index then count else m.index
    ensures forall k :: 0 <= k < |r| ==> r[k] == Describe(m.commands[m.index - |r| + k])
  {
    var start := if m.index > count then m.index - count else 0;
    seq(m.index - start, k requires 0 <= k < m.index - start => Describe(m.commands[start + k]))
  }

  /** Executing on an unbounded-enough history leaves the cursor at the new tail, past the command just run. */
  lemma ExecuteWithoutEviction(m: Machine, c: Command, maxSize: nat)
    requires WellFormed(m, maxSize) && m.index < maxSize
    ensures var r := ExecuteStep(m, c, maxSize);
      r.index == m.index + 1 && r.commands == m.commands[..m.index] + [c]
  {
  }

  /** Executing at the bound evicts the oldest command and keeps the cursor where it was. */
  lemma ExecuteWithEviction(m: Machine, c: Command, maxSize: nat)
    requires WellFormed(m, maxSize) && m.index == maxSize > 0
    ensures var r := ExecuteStep(m, c, maxSize);
      r.index == m.index && r.commands == m.commands[1..] + [c]
  {
  }

  /** Undo then redo after an execute restores the command list, the cursor and the state the execute produced. */
  lemma UndoThenRedoRestores(m: Machine, c: Command, maxSize: nat)
    requires WellFormed(m, maxSize) && maxSize > 0
    ensures var e := ExecuteStep(m, c, maxSize);
      RedoStep(UndoStep(e).0).0 == e
  {
    var e := ExecuteStep(m, c, maxSize);
    RedoAfterUndo(c, m.state);
  }

  /** The commands of a session driven through the history. */
  datatype Op = Exec(c: Command) | Undo | Redo | Clear

  function Run(m: Machine, ops: seq<Op>, maxSize: nat): (r: Machine)
    requires WellFormed(m, maxSize)
    decreases |ops|
  {
    if ops == [] then m
    else
      var next := match ops[0]
        case Exec(c) => ExecuteStep(m, c, maxSize)
        case Undo => UndoStep(m).0
        case Redo => RedoStep(m).0
        case Clear => ClearStep(m);
      assert WellFormed(next, maxSize);
      Run(next, ops[1..], maxSize)
  }

  /** Over any sequence of operations the history never holds more than `max_size` commands. */
  lemma {:induction false} RunStaysBounded(m: Machine, ops: seq<Op>, maxSize: nat)
    requires WellFormed(m, maxSize)
    ensures WellFormed(Run(m, ops, maxSize), maxSize)
    ensures |Run(m, ops, maxSize).commands| <= maxSize
    decreases |ops|
  {
    if ops != [] {
      var next := match ops[0]
        case Exec(c) => ExecuteStep(m, c, maxSize)
        case Undo => UndoStep(m).0
        case Redo => RedoStep(m).0
        case Clear => ClearStep(m);
      RunStaysBounded(next, ops[1..], maxSize);
    }
  }

  /** `AppState` (command.rs:10-14): the state commands update in place. */
  class AppState {
    var fractalType: FractalType
    var view: FractalViewState
    var paletteOffset: real

    function Snapshot(): AppSnapshot
      reads this
    {
      AppSnapshot(fractalType, view, paletteOffset)
    }

    /** `AppState::default()` */
    constructor ()
      ensures Snapshot() == AppSnapshot(Mandelbrot, DefaultView(), 0.0)
    {
      fractalType := Mandelbrot;
      view := DefaultView();
      paletteOffset := 0.0;
    }

    /** `command.execute(state)` */
    method Execute(c: Command)
      modifies this
      ensures Snapshot() == Apply(c, old(Snapshot()))
    {
      match c
      case ViewCommand(_, _, _, nx, ny, nz) =>
        view := view.(centerX := nx, centerY := ny, zoom := nz);
      case ParameterCommand(name, _, nv) =>
        view := view.(fractalParams := view.fractalParams[name := nv]);
      case FractalTypeCommand(_, nt, _, nview) =>
        fractalType := nt;
        view := nview;
      case IterationCommand(_, ni) =>
        view := view.(maxIterations := ni);
      case PaletteCommand(_, np, _, no) =>
        view := view.(paletteType := np);
        paletteOffset := no;
    }

    /** `command.undo(state)` */
    method Undo(c: Command)
      modifies this
      ensures Snapshot() == Revert(c, old(Snapshot()))
    {
      match c
      case ViewCommand(ox, oy, oz, _, _, _) =>
        view := view.(centerX := ox, centerY := oy, zoom := oz);
      case ParameterCommand(name, ov, _) =>
        view := view.(fractalParams := view.fractalParams[name := ov]);
      case FractalTypeCommand(ot, _, oview, _) =>
        fractalType := ot;
        view := oview;
      case IterationCommand(oi, _) =>
        view := view.(maxIterations := oi);
      case PaletteCommand(op, _, oo, _) =>
        view := view.(paletteType := op);
        paletteOffset := oo;
    }
  }

  /** `CommandHistory` (command.rs:317-435). */
  class CommandHistory {
    var commands: seq<Command>
    var currentIndex: nat
    const maxSize: nat

    predicate Valid()
      reads this
    {
      currentIndex <= |commands| <= maxSize
    }

    function Model(st: AppState): Machine
      reads this, st
    {
      Machine(commands, currentIndex, st.Snapshot())
    }

    /** `CommandHistory::new` */
    constructor (maxSize: nat)
      ensures Valid() && commands == [] && currentIndex == 0 && this.maxSize == maxSize
    {
      commands := [];
      currentIndex := 0;
      this.maxSize := maxSize;
    }

    /** `CommandHistory::execute` */
    method Execute(c: Command, st: AppState)
      requires Valid()
      modifies this, st
      ensures Valid()
      ensures Model(st) == ExecuteStep(old(Model(st)), c, maxSize)
    {
      if currentIndex < |commands| {
        commands := commands[..currentIndex];
      }
      st.Execute(c);
      commands := commands + [c];
      currentIndex := currentIndex + 1;
      if |commands| > maxSize {
        commands := commands[1..];
        currentIndex := currentIndex - 1;
      }
    }

    /** `CommandHistory::undo` */
    method Undo(st: AppState) returns (d: Option<Description>)
      requires Valid()
      modifies this, st
      ensures Valid()
      ensures (Model(st), d) == UndoStep(old(Model(st)))
    {
      if CanUndo() {
        currentIndex := currentIndex - 1;
        var c := commands[currentIndex];
        st.Undo(c);
        d := Some(Describe(c));
      } else {
        d := None;
      }
    }

    /** `CommandHistory::redo` */
    method Redo(st: AppState) returns (d: Option<Description>)
      requires Valid()
      modifies this, st
      ensures Valid()
      ensures (Model(st), d) == RedoStep(old(Model(st)))
    {
      if CanRedo() {
        var c := commands[currentIndex];
        st.Execute(c);
        currentIndex := currentIndex + 1;
        d := Some(Describe(c));
      } else {
        d := None;
      }
    }

    function CanUndo(): bool
      reads this
    {
      currentIndex > 0
    }

    function CanRedo(): bool
      reads this
    {
      currentIndex < |commands|
    }

    function Len(): nat
      reads this
    {
      |commands|
    }

    function IsEmpty(): bool
      reads this
    {
      |commands| == 0
    }

    /** `CommandHistory::undo_description`: the command an undo would revert. */
    function UndoDescription(): (d: Option<Description>)
      reads this
      requires Valid()
      ensures d.Some? <==> CanUndo()
      ensures d.Some? ==> d.value == Describe(commands[currentIndex - 1])
    {
      if CanUndo() then Some(Describe(commands[currentIndex - 1])) else None
    }

    /** `CommandHistory::redo_description`: the command a redo would re-run. */
    function RedoDescription(): (d: Option<Description>)
      reads this
      requires Valid()
      ensures d.Some? <==> CanRedo()
      ensures d.Some? ==> d.value == Describe(commands[currentIndex])
    {
      if CanRedo() then Some(Describe(commands[currentIndex])) else None
    }

    /** `CommandHistory::clear` */
    method Clear()
      requires Valid()
      modifies this
      ensures Valid()
      ensures !CanUndo() && !CanRedo()
      ensures commands == [] && currentIndex == 0
    {
      commands := [];
      currentIndex := 0;
    }
  }
}
