# Fractal explorers: the bookkeeping, modelled in Dafny

This project models the parts of several fractal explorers that keep state in order. The fractal and colour arithmetic of those explorers is not modelled. Each source file becomes one Dafny module:

- Undo/redo histories:
  - the command stack of the Rust explorer (`CommandHistoryModel`, `rust-allmodels/src/command.rs`);
  - its per-fractal view history (`ViewHistoryModel`, `rust-allmodels/src/main.rs`);
  - the fractal and session state of the Claude generator (`ZoomHistoryModel`, `fractal_generator/state.py`);
  - the per-fractal back/forward history of the Kimi explorer (`ExplorerHistoryModel`, `fractal_explorer.py`);
  - the view trail of the matplotlib explorer (`MatplotViewModel`, `fractal_gen_matplot/app.py`).
- Registries and factories:
  - the Claude fractal factory, with its Newton, orbit-trap and Buddhabrot loops (`ClaudeFractalsModel`, `fractal_generator/fractals.py`);
  - the Tkinter generator's fractal factory and palette table (`TkFractalFactoryModel`, `TkPalettesModel`);
  - the Kimi `FractalRegistry`, its `register_fractal` decorator and `parse_complex_string` (`KimiFractalRegistryModel`).
- Splitting an image among workers and merging the results:
  - the Claude renderer's chunked and sequential paths (`ClaudeRendererModel`);
  - the Tkinter strips, class-name conversion and palette lookup (`TkRenderModel`);
  - the GLM `ParallelRenderer` (`GlmParallelModel`);
  - a shared theory of row ranges that tile an image (`RowPartition`).
- The GLM `ZoomController` viewport (`ZoomControllerModel`): the pixel and complex-plane conversions, zoom and area selection.

Stateful source objects are Dafny classes. Each such class has:

- a `Valid()` invariant;
- methods proved against a pure step function of the old state (`Model() == Step(old(Model()), …)`).

The properties are proved as lemmas about those step functions. Examples:

- undo after execute restores the state;
- redo after undo restores it;
- a new action clears the redo side;
- histories stay within their caps;
- every image row is written by exactly one worker, at the y coordinate the sequential path uses for it (the Claude renderer's chunks place the columns differently, see "Left out");
- registries find what was registered, in any letter case where the source ignores case;
- zooming by a factor and then by its reciprocal gives the view back.

Floating-point numbers are exact `real`s. Python `int()` truncation is `Numeric.Trunc`. Shared helpers:

- `Wrappers`: `Option` and `Result`;
- `Numeric`: `Min`, `Max`, `Abs`, `Trunc`;
- `Text`: ASCII case mapping;
- `Colour`: an RGB triple;
- `StringOrder`: the ordering and sort behind `sorted()`;
- `FractalView`: the Rust view record.

## Model

| member | source | states |
|---|---|---|
| ClaudeFractalsModel.ResolveFrom | python-claude-opus-4.5/fractal_generator/fractals.py:1114-1122 | the display-name search finds a key whose class shows the name, the first such key in registration order, and finds none exactly when no class from that point shows it |
| ClaudeFractalsModel.Resolve | python-claude-opus-4.5/fractal_generator/fractals.py:1112-1122 | an exact key wins; otherwise the first key whose class shows the name; `None` exactly when the name is neither a key nor a display name |
| ClaudeFractalsModel.FractalFactory.constructor | python-claude-opus-4.5/fractal_generator/fractals.py:1100-1104 | the factory starts with an empty registry and an empty instance cache |
| ClaudeFractalsModel.FractalFactory.Register | python-claude-opus-4.5/fractal_generator/fractals.py:1106-1109 | the registry maps the key to the class; a new key goes last in iteration order, a known key keeps its place; the cache is untouched |
| ClaudeFractalsModel.FractalFactory.Create | python-claude-opus-4.5/fractal_generator/fractals.py:1111-1128 | `None` exactly when `Resolve` finds no key; otherwise the cached instance of the resolved key, made of that key's class on first use; the registry never changes |
| ClaudeFractalsModel.FractalFactory.GetAvailable | python-claude-opus-4.5/fractal_generator/fractals.py:1130-1137 | one entry per registered key, holding the display name of that key's class |
| ClaudeFractalsModel.FractalFactory.ResetInstance | python-claude-opus-4.5/fractal_generator/fractals.py:1139-1143 | only the cached instance of that name is dropped, whether or not there was one |
| ClaudeFractalsModel.CreateTwice | python-claude-opus-4.5/fractal_generator/fractals.py:1123-1128 | two `create` calls with the same name return the same instance (the cache keeps parameters) |
| ClaudeFractalsModel.ResetThenCreate | python-claude-opus-4.5/fractal_generator/fractals.py:1139-1143 | after `reset_instance` the next `create` of a registered key makes a fresh instance of its class |
| ClaudeFractalsModel.BuiltinFactory | python-claude-opus-4.5/fractal_generator/fractals.py:1146-1160 | the module-level registrations leave the fourteen built-in keys in the registry and the cache empty |
| ClaudeFractalsModel.BuiltinKeysRegistered | python-claude-opus-4.5/fractal_generator/fractals.py:1146-1160 | every built-in key is registered after the fourteen calls, whatever the registry held before |
| ClaudeFractalsModel.NewtonFractal.constructor | python-claude-opus-4.5/fractal_generator/fractals.py:582-584 | the exponent starts at 3 |
| ClaudeFractalsModel.NewtonFractal.SetParameter | python-claude-opus-4.5/fractal_generator/fractals.py:598-600 | `power` stores `max(2, int(value))`; any other name changes nothing; the exponent stays at least 2 |
| ClaudeFractalsModel.BuddhabrotFractal.constructor | python-claude-opus-4.5/fractal_generator/fractals.py:964-966 | `min_iter` starts at 20 and `sample_density` at 1 |
| ClaudeFractalsModel.BuddhabrotFractal.SetParameter | python-claude-opus-4.5/fractal_generator/fractals.py:982-986 | each of the two names stores `max(1, int(value))` in its own field only; other names change nothing |
| ClaudeFractalsModel.BuddhabrotFractal.Calculate | python-claude-opus-4.5/fractal_generator/fractals.py:988-1015 | the loop returns the Buddhabrot score of the first escape of the orbit of `c` within `max_iter` steps |
| ClaudeFractalsModel.FirstEscapeFrom | python-claude-opus-4.5/fractal_generator/fractals.py:999-1012 | a found step is escaped and every earlier step is not; none found means no step of the range escapes |
| ClaudeFractalsModel.FirstEscapePositive | python-claude-opus-4.5/fractal_generator/fractals.py:994-1003 | the orbit starts at 0, so the first escape, if any, is at step 1 or later |
| ClaudeFractalsModel.BuddhabrotScore | python-claude-opus-4.5/fractal_generator/fractals.py:1003-1015 | the result is 0 or the escape step, and it is the escape step exactly when that step is above `min_iter` |
| ClaudeFractalsModel.BuddhabrotBounds | python-claude-opus-4.5/fractal_generator/fractals.py:988-1015 | Buddhabrot returns a value in `0 .. max_iter - 1`, nonzero only for an orbit escaping after more than `min_iter` steps |
| ClaudeFractalsModel.MinDistance | python-claude-opus-4.5/fractal_generator/fractals.py:879-893 | the tracked minimum is no larger than the trap distance of any visited orbit point, and equal to one of them |
| ClaudeFractalsModel.OrbitTrapCalculate | python-claude-opus-4.5/fractal_generator/fractals.py:876-900 | the loop returns the scaled least trap distance, over the steps before escape and capped at `max_iter - 1`, or over all steps and capped at `max_iter` |
| ClaudeFractalsModel.OrbitTrapBounds | python-claude-opus-4.5/fractal_generator/fractals.py:876-900 | with non-negative trap distances the result lies in `0 .. max_iter`, and below `max_iter` when the orbit escapes |
| ClaudeFractalsModel.TrapScoreBounds | python-claude-opus-4.5/fractal_generator/fractals.py:887-889 | `min(int(d * max_iter * 2), cap)` of a non-negative distance lies in `0 .. cap` |
| ClaudeFractalsModel.ConvergedScoreBounds | python-claude-opus-4.5/fractal_generator/fractals.py:636-638 | a converged iteration scores `(i * max_iter) // max_newton_iter`, in `0 .. max_iter - 1` |
| ClaudeFractalsModel.NewtonCalculate | python-claude-opus-4.5/fractal_generator/fractals.py:602-640 | the loop returns Newton's result from iteration 0, at most `min(max_iter, 64)` iterations |
| ClaudeFractalsModel.NewtonBounds | python-claude-opus-4.5/fractal_generator/fractals.py:602-640 | every Newton result (diverged, degenerate, converged or unsettled) lies in `0 .. max_iter` |
| ClaudeRendererModel.WorkerCount | python-claude-opus-4.5/fractal_generator/renderer.py:64 | at least one worker, and exactly the CPU count when there is at least one CPU |
| ClaudeRendererModel.NumWorkers | python-claude-opus-4.5/fractal_generator/renderer.py:314 | between 1 and the pool size, at most one worker per 50 rows, and equal to one of the two bounds |
| ClaudeRendererModel.ChunksHoldMinimumRows | python-claude-opus-4.5/fractal_generator/renderer.py:314-315 | an image of at least 50 rows gives every chunk at least 50 rows |
| ClaudeRendererModel.PlanChunks | python-claude-opus-4.5/fractal_generator/renderer.py:313-326 | `num_workers` chunks that tile rows `0 .. height`; chunk `i` starts at `i * rows_per_chunk`; all but the last hold `rows_per_chunk` rows, the last also the remainder |
| ClaudeRendererModel.CopyChunk | python-claude-opus-4.5/fractal_generator/renderer.py:337 | `iterations[start_row:end_row, :] = chunk` writes the chunk's rows and leaves every other cell as it was |
| ClaudeRendererModel.ChunkProgressBounds | python-claude-opus-4.5/fractal_generator/renderer.py:340 | `0.1 + 0.7 * done / num_workers` grows with `done`, stays in `0.1 .. 0.8` and reaches 0.8 when all chunks are done |
| ClaudeRendererModel.MergeChunks | python-claude-opus-4.5/fractal_generator/renderer.py:328-343 | in any completion order that returns every chunk, each cell ends up holding the value its owning chunk computed for it; progress is 0.1, one value per chunk, then 0.8 |
| ClaudeRendererModel.EveryRowMerged | python-claude-opus-4.5/fractal_generator/renderer.py:335-337 | once every chunk has been copied, each cell holds its owning chunk's value, whatever the order |
| ClaudeRendererModel.MergeProgressSorted | python-claude-opus-4.5/fractal_generator/renderer.py:328-343 | the reported progress never goes down and stays in `0.1 .. 0.8` |
| ClaudeRendererModel.PaletteLut | python-claude-opus-4.5/fractal_generator/renderer.py:363 | the table has `max_iter + 1` entries and entry `i` is `palette(i, max_iter)` |
| ClaudeRendererModel.ApplyPalette | python-claude-opus-4.5/fractal_generator/renderer.py:353-371 | a `height` by `width` image whose pixel is the table entry of its count, with Python's negative indexing |
| ClaudeRendererModel.LutIndexInRange | python-claude-opus-4.5/fractal_generator/renderer.py:363-368 | for a count in `0 .. max_iter` the table lookup equals calling the palette directly |
| ClaudeRendererModel.RenderNumpyParallel | python-claude-opus-4.5/fractal_generator/renderer.py:281-351 | for an image with rows: the chunks tile it, every pixel is the palette colour of the count its owning chunk computed for it, and progress starts at 0.1, never goes down and ends at 1.0; for height 0 the one empty chunk's division by the height raises, so there is no image and the only progress reported is 0.1 |
| ClaudeRendererModel.RenderChunks | python-claude-opus-4.5/fractal_generator/renderer.py:312-351 | with at least one row, the chunk plan, the merged and coloured image and the progress list that `RenderNumpyParallel` promises |
| ClaudeRendererModel.AppendFinalProgress | python-claude-opus-4.5/fractal_generator/renderer.py:348-349 | appending the final 1.0 keeps the progress sequence sorted within `0.1 .. 1.0` |
| ClaudeRendererModel.CountsIndexTable | python-claude-opus-4.5/fractal_generator/renderer.py:368 | counts in `0 .. max_iter` are valid indices of the lookup table |
| ClaudeRendererModel.MergedInRange | python-claude-opus-4.5/fractal_generator/renderer.py:335-337 | when every chunk's counts lie in `0 .. max_iter`, so does every cell of the merged buffer |
| ClaudeRendererModel.ColouredChunks | python-claude-opus-4.5/fractal_generator/renderer.py:335-368 | colouring the merged buffer gives each pixel the palette colour of its owning chunk's count |
| ClaudeRendererModel.PaletteApplied | python-claude-opus-4.5/fractal_generator/renderer.py:363-368 | with counts in range, the table-based image equals the per-pixel palette image |
| ClaudeRendererModel.RenderSequential | python-claude-opus-4.5/fractal_generator/renderer.py:133-171 | pixel `(py, px)` is the palette colour of the escape count at `(x_min + px * x_step, y_min + py * y_step)`; progress is `py / height` on every tenth row, then 1.0 |
| ClaudeRendererModel.SequentialProgressSorted | python-claude-opus-4.5/fractal_generator/renderer.py:165-169 | the sequential path's progress never goes down and stays in `0 .. 1` |
| ClaudeRendererModel.ChunkRowsMatchSequential | python-claude-opus-4.5/fractal_generator/renderer.py:39-46 | the `endpoint=False` linspace of a chunk puts its row `i` at the sequential grid's row `start + i` (rows only; columns are `ChunkColumnsLeaveSequentialGrid`) |
| ClaudeRendererModel.ChunkColumnX | python-claude-opus-4.5/fractal_generator/renderer.py:45 | a chunk's column `px` is `np.linspace(x_min, x_max, width)[px]`: the first column is `x_min` and, with two columns or more, the last is `x_max` |
| ClaudeRendererModel.ChunkColumnsLeaveSequentialGrid | python-claude-opus-4.5/fractal_generator/renderer.py:45 | over a view of non-zero width a chunk's column `px > 0` never equals the sequential column `x_min + px * (x_max - x_min) / width` of renderer.py:150-158, which stops one step short of `x_max`; only column 0 agrees |
| ClaudeFractalsModel.FirstEscapeStep | python-claude-opus-4.5/fractal_generator/fractals.py:999-1012 | the escape loop stops at the first iteration whose orbit has escaped and otherwise moves on to the next |
| ClaudeFractalsModel.ScoreOf | python-claude-opus-4.5/fractal_generator/fractals.py:1003-1015 | the Buddhabrot score lies in `[0, max(1, n))`, and a non-zero score is the escape iteration, which exceeds the minimum |
| CommandHistoryModel.Describe | rust-allmodels/src/command.rs:117-126 | a view command describes a zoom exactly when the zoom changed by more than 0.01, and a pan otherwise |
| CommandHistoryModel.ViewUndoRestoresCenterAndZoom | rust-allmodels/src/command.rs:104-115 | undoing a view command puts back the old centre and zoom and leaves every other field as it was |
| CommandHistoryModel.UndoInvertsExecute | rust-allmodels/src/command.rs:104-302 | on a state that holds a command's old values, `undo` after `execute` gives back that state, for every command kind |
| CommandHistoryModel.ParameterUndoKeepsKey | rust-allmodels/src/command.rs:153-166 | undo writes the old value back instead of removing the key, so a parameter absent before the command is present after undo |
| CommandHistoryModel.RedoAfterUndo | rust-allmodels/src/command.rs:104-302 | executing a command again after undoing it gives the state its first execution gave |
| CommandHistoryModel.ExecuteStep | rust-allmodels/src/command.rs:333-351 | the redo tail is dropped, the command is applied and appended, and the oldest entry is evicted past `max_size`; the cursor is then at the end |
| CommandHistoryModel.UndoStep | rust-allmodels/src/command.rs:354-363 | with something to undo, the cursor steps back, that command is reverted and its description returned; otherwise nothing changes and `None` |
| CommandHistoryModel.RedoStep | rust-allmodels/src/command.rs:366-375 | with something to redo, the command at the cursor is applied again, the cursor steps forward and its description is returned; otherwise nothing changes and `None` |
| CommandHistoryModel.ClearStep | rust-allmodels/src/command.rs:421-424 | after `clear` there is nothing to undo or redo and the application state is unchanged |
| CommandHistoryModel.RecentDescriptions | rust-allmodels/src/command.rs:428-434 | the descriptions of the last `min(count, current_index)` commands before the cursor, oldest first |
| CommandHistoryModel.ExecuteWithoutEviction | rust-allmodels/src/command.rs:333-345 | below the bound the command list becomes the commands before the cursor plus the new one, and the cursor moves one on |
| CommandHistoryModel.ExecuteWithEviction | rust-allmodels/src/command.rs:346-350 | at the bound the oldest command is dropped and the cursor stays put |
| CommandHistoryModel.UndoThenRedoRestores | rust-allmodels/src/command.rs:333-375 | undo then redo right after an execute gives back the command list, the cursor and the state the execute left |
| CommandHistoryModel.RunStaysBounded | rust-allmodels/src/command.rs:333-424 | any sequence of execute, undo, redo and clear keeps the history within `max_size` and its cursor within the list |
| CommandHistoryModel.AppState.constructor | rust-allmodels/src/command.rs:29-37 | the default state: Mandelbrot, the default view and palette offset 0 |
| CommandHistoryModel.AppState.Execute | rust-allmodels/src/command.rs:104-297 | `command.execute(state)` changes the state as `Apply` says |
| CommandHistoryModel.AppState.Undo | rust-allmodels/src/command.rs:111-302 | `command.undo(state)` changes the state as `Revert` says |
| CommandHistoryModel.CommandHistory.constructor | rust-allmodels/src/command.rs:324-330 | an empty command list with the cursor at 0 and the given bound |
| CommandHistoryModel.CommandHistory.Execute | rust-allmodels/src/command.rs:333-351 | the history and the state move as `ExecuteStep` says |
| CommandHistoryModel.CommandHistory.Undo | rust-allmodels/src/command.rs:354-363 | the history, the state and the returned description are those of `UndoStep` |
| CommandHistoryModel.CommandHistory.Redo | rust-allmodels/src/command.rs:366-375 | the history, the state and the returned description are those of `RedoStep` |
| CommandHistoryModel.CommandHistory.UndoDescription | rust-allmodels/src/command.rs:401-407 | a description exactly when undo is possible, and it is that of the command before the cursor |
| CommandHistoryModel.CommandHistory.RedoDescription | rust-allmodels/src/command.rs:411-417 | a description exactly when redo is possible, and it is that of the command at the cursor |
| CommandHistoryModel.CommandHistory.Clear | rust-allmodels/src/command.rs:421-424 | an empty list with the cursor at 0, so there is nothing to undo or redo |
| ExplorerHistoryModel.PushStep | python-kimi-k2.5-opencode/fractal_explorer.py:208-247 | a push of the state already at the index changes nothing; any other push drops the entries after the index, appends, evicts the oldest entry past `max_history_size` and leaves the index on the new entry; the history stays well formed |
| ExplorerHistoryModel.BackStep | python-kimi-k2.5-opencode/fractal_explorer.py:251-257 | with the index above 0, it steps back and yields the entry there; otherwise nothing changes; the list is never touched |
| ExplorerHistoryModel.ForwardStep | python-kimi-k2.5-opencode/fractal_explorer.py:260-266 | with an entry after the index, it steps forward and yields that entry; otherwise nothing changes; the list is never touched |
| ExplorerHistoryModel.PushTwiceRecordsOnce | python-kimi-k2.5-opencode/fractal_explorer.py:225-233 | pushing the same state twice records it once |
| ExplorerHistoryModel.FirstPushGivesOneEntry | python-kimi-k2.5-opencode/fractal_explorer.py:119-124 | the first push into an empty history gives one entry with the index at 0 |
| ExplorerHistoryModel.BackThenForward | python-kimi-k2.5-opencode/fractal_explorer.py:251-266 | going back then forward returns to the same history and restores the entry that was current |
| ExplorerHistoryModel.BackAfterPush | python-kimi-k2.5-opencode/fractal_explorer.py:208-257 | going back right after a (non-duplicate, non-evicting) push restores the entry that was current before the push |
| ExplorerHistoryModel.Restore | python-kimi-k2.5-opencode/fractal_explorer.py:288-309 | bounds are always restored; parameters, palette name and iteration limit only when the entry's value is non-empty or nonzero |
| ExplorerHistoryModel.RestoreTruthyEntry | python-kimi-k2.5-opencode/fractal_explorer.py:288-309 | an entry whose every field is set is restored exactly |
| ExplorerHistoryModel.RestoreKeepsParamsOfEmptyEntry | python-kimi-k2.5-opencode/fractal_explorer.py:291-293 | an entry with an empty parameter dictionary keeps the current parameters, so the restored state differs from the entry |
| ExplorerHistoryModel.RestoreIdempotent | python-kimi-k2.5-opencode/fractal_explorer.py:288-309 | restoring the same entry twice is the same as restoring it once |
| ExplorerHistoryModel.StoreKeepsWellFormed | python-kimi-k2.5-opencode/fractal_explorer.py:236-247 | writing back a well-formed list and index keeps every fractal's history well formed |
| ExplorerHistoryModel.RestoreStorage | python-kimi-k2.5-opencode/fractal_explorer.py:288-309 | the stored bounds of the fractal become the entry's; its stored palette name and iteration limit change only when the entry's value is non-empty or non-zero; no other fractal's stored bounds change |
| ExplorerHistoryModel.RestoreKeepsStorageInStep | python-kimi-k2.5-opencode/fractal_explorer.py:288-309 | when the storage held the settings on screen for the fractal, after a restore it holds the restored settings, which is what switching back to the fractal (fractal_explorer.py:346-351) reads |
| ExplorerHistoryModel.Explorer.GetBounds | python-kimi-k2.5-opencode/fractal_explorer.py:144-147 | the stored bounds of the current fractal, or its default bounds when none are stored |
| ExplorerHistoryModel.Explorer.constructor | python-kimi-k2.5-opencode/fractal_explorer.py:85-99 | Mandelbrot, no parameters, the `smooth` palette, 100 iterations and no histories |
| ExplorerHistoryModel.PushEntry | python-kimi-k2.5-opencode/fractal_explorer.py:225-247 | the list and index it returns are exactly what `PushStep` gives for the given list, index and state |
| ExplorerHistoryModel.Explorer.PushCurrentState | python-kimi-k2.5-opencode/fractal_explorer.py:208-247 | the current fractal's history moves as `PushStep` of the current state says; no other fractal's list or index changes; the settings and the three storage maps are unchanged |
| ExplorerHistoryModel.Explorer.InitializeFractalHistory | python-kimi-k2.5-opencode/fractal_explorer.py:119-124 | a fractal without a history gets the one-entry list of the current state with index 0, and no other fractal's list or index changes; an existing history is left alone; the settings and the storage maps are unchanged |
| ExplorerHistoryModel.Explorer.RestoreState | python-kimi-k2.5-opencode/fractal_explorer.py:288-309 | the explorer's settings become `Restore` of the entry, the storage maps become `RestoreStorage` of the entry, and the fractal and the histories are unchanged |
| ExplorerHistoryModel.Explorer.GoBack | python-kimi-k2.5-opencode/fractal_explorer.py:251-257 | the index moves as `BackStep` says and no other fractal's index changes; the entry it yields, if any, is restored into the settings and the storage maps as `Restore` and `RestoreStorage` say; otherwise nothing changes |
| ExplorerHistoryModel.Explorer.GoForward | python-kimi-k2.5-opencode/fractal_explorer.py:260-266 | the index moves as `ForwardStep` says and no other fractal's index changes; the entry it yields, if any, is restored into the settings and the storage maps as `Restore` and `RestoreStorage` say; otherwise nothing changes |
| ViewHistoryModel.Current | rust-allmodels/src/main.rs:147-154 | `Some` exactly when `1 <= current_index <= len`, and then the entry just before the cursor |
| ViewHistoryModel.PushStep | rust-allmodels/src/main.rs:101-116 | the redo tail is dropped and the entry appended; below the bound the cursor moves on, at the bound the head is removed and the cursor stays; afterwards the new entry is current and there is nothing to redo |
| ViewHistoryModel.UndoStep | rust-allmodels/src/main.rs:118-134 | only when `current_index > 1`: the cursor steps back and the entry now current is returned; otherwise nothing changes and `None` |
| ViewHistoryModel.RedoStep | rust-allmodels/src/main.rs:122-144 | only when the cursor is before the end: it steps forward and the entry now current is returned; otherwise nothing changes and `None` |
| ViewHistoryModel.RedoReversesUndo | rust-allmodels/src/main.rs:126-144 | redo right after undo gives back the same history and returns the entry that was current before the undo |
| ViewHistoryModel.UndoAfterPushReturnsPrevious | rust-allmodels/src/main.rs:101-134 | undo right after a push returns the entry that was current before the push |
| ViewHistoryModel.InitialHistory | rust-allmodels/src/main.rs:243-264 | the application's history of 50 after the first push holds the initial view alone, with nothing to undo or redo |
| ViewHistoryModel.SaveStep | rust-allmodels/src/main.rs:280-297 | a view matching the last saved one in type, centre and zoom within 1e-10 is not pushed; any other view is pushed and becomes the last saved one |
| ViewHistoryModel.SaveTwicePushesOnce | rust-allmodels/src/main.rs:284-296 | saving the same view twice in a row pushes it once |
| ViewHistoryModel.ZoomChangeIsSaved | rust-allmodels/src/main.rs:284-296 | a view whose zoom moved by at least 1e-10 is always pushed and becomes current |
| ViewHistoryModel.ZoomAsWrittenStep | rust-allmodels/src/main.rs:412-418 | the view on screen is saved, then zoomed; when it is pushed, the history's current entry is the view from before the zoom, not the one on screen |
| ViewHistoryModel.UndoApp | rust-allmodels/src/main.rs:430-438 | the history moves as `UndoStep` says and the screen shows the entry it returns, or stays when there is none |
| ViewHistoryModel.ZoomUndoAsWrittenSkipsAView | rust-allmodels/src/main.rs:412-438 | from the start-up state, two zooms by 2 and an undo show zoom 1: the zoom-2 view on screen before the second zoom is skipped |
| ViewHistoryModel.ZoomStep | rust-allmodels/src/main.rs:412-418 | the corrected zoom: the view is zoomed and the zoomed view saved, so when it is pushed the current entry is the view on screen |
| ViewHistoryModel.ZoomThenUndoRestores | rust-allmodels/src/main.rs:412-438 | with the corrected zoom, when the screen shows the current entry, undo right after a zoom brings back the view from before it and the screen again shows the current entry |
| ViewHistoryModel.ViewHistory.constructor | rust-allmodels/src/main.rs:93-99 | an empty history with the cursor at 0 and the given bound |
| ViewHistoryModel.ViewHistory.Push | rust-allmodels/src/main.rs:101-116 | the entries and cursor move as `PushStep` says |
| ViewHistoryModel.ViewHistory.Undo | rust-allmodels/src/main.rs:126-134 | the cursor and the returned entry are those of `UndoStep` |
| ViewHistoryModel.ViewHistory.Redo | rust-allmodels/src/main.rs:136-144 | the cursor and the returned entry are those of `RedoStep` |
| ViewHistoryModel.ViewHistory.CurrentEntry | rust-allmodels/src/main.rs:147-154 | the entry `Current` names |
| ViewHistoryModel.InitialViews | rust-allmodels/src/main.rs:194-216 | one view per fractal type, at its default centre with zoom 1 |
| ViewHistoryModel.ExplorerApp.GetView | rust-allmodels/src/main.rs:269-274 | the stored view of the selected type, or the default view when there is none |
| ViewHistoryModel.ExplorerApp.constructor | rust-allmodels/src/main.rs:193-267 | the default type is selected, every type has its initial view, and the history of 50 holds that view alone |
| ViewHistoryModel.ExplorerApp.SaveViewToHistory | rust-allmodels/src/main.rs:280-297 | the history and last saved view move as `SaveStep` of the current view says; the views are unchanged |
| ViewHistoryModel.ExplorerApp.ZoomView | rust-allmodels/src/main.rs:412-418 | the view is saved first, then only the selected view's zoom is multiplied by the factor; saver and screen move as `ZoomAsWrittenStep` says |
| ViewHistoryModel.ExplorerApp.Undo | rust-allmodels/src/main.rs:430-438 | the cursor moves as `UndoStep` says and the returned entry's type and view are installed, so the screen shows the history's current entry; saver and screen move as `UndoApp` says |
| ViewHistoryModel.ExplorerApp.Redo | rust-allmodels/src/main.rs:440-448 | the cursor moves as `RedoStep` says and the returned entry's type and view are installed, so the screen shows the history's current entry |
| ZoomHistoryModel.PushStep | python-claude-opus-4.5/fractal_generator/state.py:84-94 | from an undo stack of at most 50 views, the two stacks afterwards hold at most 50 views and the undo stack grows by one until it reaches 50 |
| ZoomHistoryModel.PushKeepsNewestViews | python-claude-opus-4.5/fractal_generator/state.py:84-94 | after a push the redo stack is empty, the pushed view is on top, and the undo stack is the old one plus the view, less its oldest view when that went over the limit |
| ZoomHistoryModel.UndoStep | python-claude-opus-4.5/fractal_generator/state.py:104-121 | on an empty history nothing changes and `None`; otherwise the current view goes onto the redo stack and the top of the undo stack is popped and returned; the total count is kept |
| ZoomHistoryModel.RedoStep | python-claude-opus-4.5/fractal_generator/state.py:123-140 | the mirror of undo: the current view goes onto the undo stack and the top of the redo stack is popped and returned |
| ZoomHistoryModel.UndoThenRedo | python-claude-opus-4.5/fractal_generator/state.py:104-140 | redo from the view undo returned gives back both stacks and returns the view that was current before the undo |
| ZoomHistoryModel.RedoThenUndo | python-claude-opus-4.5/fractal_generator/state.py:104-140 | undo from the view redo returned gives back both stacks and returns the view that was current before the redo |
| ZoomHistoryModel.UndoOnEmptyIsNoOp | python-claude-opus-4.5/fractal_generator/state.py:114-115 | undo on an empty history returns `None` and changes neither stack |
| ZoomHistoryModel.RunStaysBounded | python-claude-opus-4.5/fractal_generator/state.py:84-145 | any sequence of push, undo, redo and clear keeps the two stacks within 50 views together |
| ZoomHistoryModel.FractalState.constructor | python-claude-opus-4.5/fractal_generator/state.py:31-36 | the defaults `(-2.5, 1.0, -1.5, 1.5)`, 100 iterations and no parameters |
| ZoomHistoryModel.FractalState.SetBounds | python-claude-opus-4.5/fractal_generator/state.py:42-47 | `get_bounds` then returns exactly the four values given; the iteration limit and parameters are untouched |
| ZoomHistoryModel.FractalState.FromViewState | python-claude-opus-4.5/fractal_generator/state.py:60-67 | afterwards `to_view_state` returns exactly the view given |
| ZoomHistoryModel.FractalState.RestoreOwnSnapshot | python-claude-opus-4.5/fractal_generator/state.py:49-67 | `from_view_state(to_view_state())` leaves bounds, iteration limit and parameters unchanged |
| ZoomHistoryModel.ZoomHistory.constructor | python-claude-opus-4.5/fractal_generator/state.py:80-82 | both stacks start empty |
| ZoomHistoryModel.ZoomHistory.Push | python-claude-opus-4.5/fractal_generator/state.py:84-94 | the stacks move as `PushStep` says |
| ZoomHistoryModel.ZoomHistory.Undo | python-claude-opus-4.5/fractal_generator/state.py:104-121 | the stacks and the returned view are those of `UndoStep` |
| ZoomHistoryModel.ZoomHistory.Redo | python-claude-opus-4.5/fractal_generator/state.py:123-140 | the stacks and the returned view are those of `RedoStep` |
| ZoomHistoryModel.ZoomHistory.Clear | python-claude-opus-4.5/fractal_generator/state.py:142-145 | both stacks are empty |
| ZoomHistoryModel.SessionState.constructor | python-claude-opus-4.5/fractal_generator/state.py:167-170 | no states, no histories and no current fractal |
| ZoomHistoryModel.SessionState.GetState | python-claude-opus-4.5/fractal_generator/state.py:172-176 | an unknown name gets a fresh default state once; afterwards the same object is returned and nothing else changes |
| ZoomHistoryModel.SessionState.GetHistory | python-claude-opus-4.5/fractal_generator/state.py:178-182 | an unknown name gets a fresh empty history once; afterwards the same object is returned |
| ZoomHistoryModel.SessionState.SaveState | python-claude-opus-4.5/fractal_generator/state.py:184-199 | the fractal's state (created if new) gets the given bounds and iteration limit, and the parameters only when a non-empty dictionary is given; every other name keeps its state object and view, and the histories and current fractal are unchanged |
| ZoomHistoryModel.SessionState.PushToHistory | python-claude-opus-4.5/fractal_generator/state.py:201-204 | the fractal's history (created empty if new) moves as `PushStep` of the state's snapshot says; every other history keeps its object and stacks; the states, their views and the current fractal are unchanged |
| ZoomHistoryModel.SessionState.UndoZoom | python-claude-opus-4.5/fractal_generator/state.py:206-218 | the fractal's history (created empty if new) and the returned view are those of `UndoStep`; every other history keeps its object and stacks; the states and the current fractal are unchanged |
| ZoomHistoryModel.SessionState.RedoZoom | python-claude-opus-4.5/fractal_generator/state.py:220-232 | the fractal's history (created empty if new) and the returned view are those of `RedoStep`; every other history keeps its object and stacks; the states and the current fractal are unchanged |
| ZoomHistoryModel.SessionState.ResetState | python-claude-opus-4.5/fractal_generator/state.py:255-260 | the fractal's state is removed and its history, if any, emptied; every other fractal keeps its state object and view and its history object and stacks; the current fractal is unchanged |
| ZoomHistoryModel.SessionState.ClearAll | python-claude-opus-4.5/fractal_generator/state.py:262-266 | no states, no histories and no current fractal |
| MatplotViewModel.Trail | python-minimax-v2.1/fractal_gen_matplot/app.py:398-412 | the views saved up to the index followed by the view on screen: the views a run of `zoom_out` should walk back through |
| MatplotViewModel.SaveStep | python-minimax-v2.1/fractal_gen_matplot/app.py:398-406 | the views after the index are dropped, a copy of the current view is appended, and the index points at it; the view on screen is unchanged |
| MatplotViewModel.ChangeView | python-minimax-v2.1/fractal_gen_matplot/app.py:305-325 | saving then replacing the view extends the trail by exactly the new view |
| MatplotViewModel.ZoomOutAsWrittenStep | python-minimax-v2.1/fractal_gen_matplot/app.py:408-412 | as written: with the index above 0, the index is decremented first and the view saved there is restored |
| MatplotViewModel.ZoomOutStep | python-minimax-v2.1/fractal_gen_matplot/app.py:408-412 | corrected: with a saved view at the index, that view is restored and the index is decremented; otherwise nothing changes |
| MatplotViewModel.ZoomOutPopsTrail | python-minimax-v2.1/fractal_gen_matplot/app.py:408-412 | the corrected `zoom_out` drops exactly the last view of the trail |
| MatplotViewModel.ZoomOutUndoesChange | python-minimax-v2.1/fractal_gen_matplot/app.py:408-412 | the corrected `zoom_out` after any change of view brings back the previous view and the previous trail |
| MatplotViewModel.ZoomOutAsWrittenSkipsAView | python-minimax-v2.1/fractal_gen_matplot/app.py:408-412 | the code as written does nothing after one change from the start, and after two changes jumps back to the first view, where the corrected step restores the previous one |
| MatplotViewModel.ZoomStep | python-minimax-v2.1/fractal_gen_matplot/app.py:375-396 | at the zoom limit nothing changes and nothing is saved; otherwise the view is saved and the new view keeps the centre while both extents scale by the factor |
| MatplotViewModel.ZoomSelectStep | python-minimax-v2.1/fractal_gen_matplot/app.py:283-312 | a selection smaller than `max(span / 50, 1e-14)` on either axis changes nothing and saves nothing; otherwise the view is saved and becomes the ordered rectangle between the two corners |
| MatplotViewModel.TinySelectionRejected | python-minimax-v2.1/fractal_gen_matplot/app.py:298-303 | a selection narrower than 1e-14 is rejected whatever the current view |
| MatplotViewModel.KeyPressStep | python-minimax-v2.1/fractal_gen_matplot/app.py:328-370 | arrows save and then shift the view by a tenth of its extent along one axis, keeping its size; `+`/`-` zoom by 0.5 and 2; `home` saves and restores the initial view; other keys change nothing |
| MatplotViewModel.PanLeftThenRight | python-minimax-v2.1/fractal_gen_matplot/app.py:338-347 | panning left then right brings the view back to where it was |
| MatplotViewModel.MatplotExplorer.constructor | python-minimax-v2.1/fractal_gen_matplot/app.py:86-92 | an empty history with index -1, and the default bounds both as the initial and as the current view |
| MatplotViewModel.MatplotExplorer.SaveViewState | python-minimax-v2.1/fractal_gen_matplot/app.py:398-406 | the history, index and view move as `SaveStep` says |
| MatplotViewModel.MatplotExplorer.ZoomOut | python-minimax-v2.1/fractal_gen_matplot/app.py:408-412 | the history, index and view move as the corrected `ZoomOutStep` says |
| MatplotViewModel.MatplotExplorer.Zoom | python-minimax-v2.1/fractal_gen_matplot/app.py:375-396 | the history, index and view move as `ZoomStep` says |
| MatplotViewModel.MatplotExplorer.OnZoomSelect | python-minimax-v2.1/fractal_gen_matplot/app.py:283-312 | the history, index and view move as `ZoomSelectStep` says |
| MatplotViewModel.MatplotExplorer.OnReset | python-minimax-v2.1/fractal_gen_matplot/app.py:322-325 | the view is saved and the initial view restored, as `ChangeView` says |
| MatplotViewModel.MatplotExplorer.OnKeyPress | python-minimax-v2.1/fractal_gen_matplot/app.py:328-370 | the history, index and view move as `KeyPressStep` says |
| TkFractalFactoryModel.Builtin | python-minimax-v2.1/fractal_gen_tk/fractals.py:306-325 | the class-level tables: seven keys including the `mandelbrot` fallback, seven display names, each listed once |
| TkFractalFactoryModel.NormalizeChar | python-minimax-v2.1/fractal_gen_tk/fractals.py:364 | a normalised character is never upper case, a space or `³` |
| TkFractalFactoryModel.NormalizeName | python-minimax-v2.1/fractal_gen_tk/fractals.py:357-364 | the name keeps its length and each character is normalised on its own |
| TkFractalFactoryModel.NormalizeIsLowerThenReplace | python-minimax-v2.1/fractal_gen_tk/fractals.py:364 | normalising equals `lower()`, then `replace("³", "3")`, then `replace(" ", "_")` |
| TkFractalFactoryModel.NormalizeIdempotent | python-minimax-v2.1/fractal_gen_tk/fractals.py:357-364 | normalising a normalised name changes nothing |
| TkFractalFactoryModel.NormalizeIgnoresCase | python-minimax-v2.1/fractal_gen_tk/fractals.py:357-364 | two names that differ only in letter case normalise to the same key |
| TkFractalFactoryModel.BuiltinDisplayNamesNormalizeToKeys | python-minimax-v2.1/fractal_gen_tk/fractals.py:317-325 | each built-in display name normalises to its own internal key (`Julia³` to `julia3`, `Burning Ship` to `burning_ship`) |
| TkFractalFactoryModel.LookupKey | python-minimax-v2.1/fractal_gen_tk/fractals.py:348 | the display-name entry when it exists and is non-empty (Python's `or`), otherwise the normalised name |
| TkFractalFactoryModel.CreateIn | python-minimax-v2.1/fractal_gen_tk/fractals.py:333-355 | `None` gives Mandelbrot; a name whose looked-up key is registered gives that class; any other name falls back to Mandelbrot; the result is always a registered class |
| TkFractalFactoryModel.BuiltinKeysAreNormalized | python-minimax-v2.1/fractal_gen_tk/fractals.py:357-364 | every built-in key is already normalised |
| TkFractalFactoryModel.BuiltinTables | python-minimax-v2.1/fractal_gen_tk/fractals.py:306-325 | display name `i` maps to key `i`, the key is registered, and no key is also a display name |
| TkFractalFactoryModel.DisplayNameAndKeyAgree | python-minimax-v2.1/fractal_gen_tk/fractals.py:333-355 | a built-in display name and its internal key create the same class |
| TkFractalFactoryModel.BuiltinDisplayLookup | python-minimax-v2.1/fractal_gen_tk/fractals.py:317-325 | a display name found in the built-in table is one of the seven, mapped to its key |
| TkFractalFactoryModel.BuiltinLookupIsNormalized | python-minimax-v2.1/fractal_gen_tk/fractals.py:348 | with the built-in tables, the key `create` looks up is always the normalised name |
| TkFractalFactoryModel.CreateIgnoresCase | python-minimax-v2.1/fractal_gen_tk/fractals.py:333-355 | any letter-case spelling of a built-in display name or key creates that entry's class (`"julia"` and `"JULIA"` both give Julia) |
| TkFractalFactoryModel.UnknownNameGivesMandelbrot | python-minimax-v2.1/fractal_gen_tk/fractals.py:350-353 | a name that is neither a display name nor normalises to a key, the empty name included, gives Mandelbrot |
| TkFractalFactoryModel.ListTypesIn | python-minimax-v2.1/fractal_gen_tk/fractals.py:327-330 | every display key exactly once, in insertion order |
| TkFractalFactoryModel.AddDisplay | python-minimax-v2.1/fractal_gen_tk/fractals.py:380-383 | a display key already present is left alone; a new one is mapped to the key and listed last |
| TkFractalFactoryModel.RegisterStep | python-minimax-v2.1/fractal_gen_tk/fractals.py:366-383 | the class is stored under the normalised key, and the display name is added, pointing at that key, only when it is absent |
| TkFractalFactoryModel.RegisterAsWrittenStep | python-minimax-v2.1/fractal_gen_tk/fractals.py:366-383 | as written: the class is stored under the normalised key and the display key added is the class's `name` property object |
| TkFractalFactoryModel.CreateAfterRegister | python-minimax-v2.1/fractal_gen_tk/fractals.py:345-383 | after `register`, `create` of the registered name gives the registered class |
| TkFractalFactoryModel.DisplayNameListedAfterRegister | python-minimax-v2.1/fractal_gen_tk/fractals.py:327-383 | after `register` with a new display name, the name is listed and `create` of it gives the registered class |
| TkFractalFactoryModel.RegisterAsWrittenListsNoName | python-minimax-v2.1/fractal_gen_tk/fractals.py:381-383 | as written, registering a class lists its property object among the types and never its display name |
| TkFractalFactoryModel.FractalFactory.constructor | python-minimax-v2.1/fractal_gen_tk/fractals.py:306-325 | the tables start as `Builtin` |
| TkFractalFactoryModel.FractalFactory.ListTypes | python-minimax-v2.1/fractal_gen_tk/fractals.py:327-330 | the list `ListTypesIn` gives for the current tables |
| TkFractalFactoryModel.FractalFactory.Create | python-minimax-v2.1/fractal_gen_tk/fractals.py:332-355 | the class `CreateIn` gives for the current tables |
| TkFractalFactoryModel.FractalFactory.Register | python-minimax-v2.1/fractal_gen_tk/fractals.py:366-383 | the tables move as the corrected `RegisterStep` says |
| TkPalettesModel.Grayscale | python-minimax-v2.1/fractal_gen_tk/palettes.py:32-41 | a point that did not escape (`iter_count == max_iter`) is black |
| TkPalettesModel.GrayscaleChannels | python-minimax-v2.1/fractal_gen_tk/palettes.py:37-41 | for an escape time below `max_iter` the three channels are equal and lie in 0..254 |
| TkPalettesModel.GrayscaleMonotone | python-minimax-v2.1/fractal_gen_tk/palettes.py:39-41 | a point that escapes later is never drawn darker |
| TkPalettesModel.Retro | python-minimax-v2.1/fractal_gen_tk/palettes.py:116-127 | a point that did not escape is dark brown (15, 10, 5); every other channel is capped at 255 |
| TkPalettesModel.RetroRamp | python-minimax-v2.1/fractal_gen_tk/palettes.py:124-127 | for an escape time below `max_iter` the channels start at 50, 30, 20 and stay below 250, 210, 150, so an escaping point is never drawn in the dark brown of the set |
| TkPalettesModel.Builtin | python-minimax-v2.1/fractal_gen_tk/palettes.py:161-171 | the nine built-in palettes, each listed once, with `Rainbow` among them |
| TkPalettesModel.BuiltinHasNoCaseDuplicates | python-minimax-v2.1/fractal_gen_tk/palettes.py:161-171 | no two built-in names differ only in letter case |
| TkPalettesModel.FirstMatch | python-minimax-v2.1/fractal_gen_tk/palettes.py:186-188 | the first key equal to the name ignoring case, or none when no key is |
| TkPalettesModel.FirstMatchIs | python-minimax-v2.1/fractal_gen_tk/palettes.py:186-188 | a key that matches, with no match before it, is the one the loop returns |
| TkPalettesModel.GetIgnoresCase | python-minimax-v2.1/fractal_gen_tk/palettes.py:183-190 | two spellings of a name that differ only in case get the same palette |
| TkPalettesModel.GetFindsKey | python-minimax-v2.1/fractal_gen_tk/palettes.py:183-188 | a stored key is found again in any capitalisation, provided no two keys differ only in case |
| TkPalettesModel.UnknownNameGivesRainbow | python-minimax-v2.1/fractal_gen_tk/palettes.py:189-190 | a name matching no key, in any case, falls back to the `Rainbow` palette |
| TkPalettesModel.Split | python-minimax-v2.1/fractal_gen_tk/palettes.py:218 | `split("_")` always yields at least one segment |
| TkPalettesModel.TitleAll | python-minimax-v2.1/fractal_gen_tk/palettes.py:219 | each segment is title-cased on its own |
| TkPalettesModel.JoinSplit | python-minimax-v2.1/fractal_gen_tk/palettes.py:218-219 | joining the segments of `split("_")` with `"_"` gives back the name |
| TkPalettesModel.LowerJoinTitle | python-minimax-v2.1/fractal_gen_tk/palettes.py:219 | title-casing the segments changes only the case of their letters |
| TkPalettesModel.NormalizeKeyIgnoringCase | python-minimax-v2.1/fractal_gen_tk/palettes.py:215-225 | the stored key equals the given name ignoring case |
| TkPalettesModel.NormalizeKeyKeepsPlainName | python-minimax-v2.1/fractal_gen_tk/palettes.py:221-223 | a name without underscores keeps its capitalisation (`CustomGray`) |
| TkPalettesModel.NormalizeKeyTitlesSegments | python-minimax-v2.1/fractal_gen_tk/palettes.py:216-219 | a name with underscores is title-cased segment by segment (`my_test` to `My_Test`) |
| TkPalettesModel.Delete | python-minimax-v2.1/fractal_gen_tk/palettes.py:213 | `del` removes the key from the table and from the key order, keeping the rest in order |
| TkPalettesModel.Assign | python-minimax-v2.1/fractal_gen_tk/palettes.py:225 | an existing key keeps its place and takes the new palette; a new key is added last |
| TkPalettesModel.DropCaseDuplicateEffect | python-minimax-v2.1/fractal_gen_tk/palettes.py:209-214 | without case duplicates to begin with, the loop leaves no key equal to the name ignoring case, and the table is one key shorter exactly when a key matched |
| TkPalettesModel.RegisterEffect | python-minimax-v2.1/fractal_gen_tk/palettes.py:193-225 | after `register` the key written holds the palette, it is the only key equal to the name ignoring case, and no two keys differ only in case |
| TkPalettesModel.RegisterThenGet | python-minimax-v2.1/fractal_gen_tk/palettes.py:183-225 | a registered palette is found by `get` in any capitalisation of its name |
| TkPalettesModel.RegisterCount | python-minimax-v2.1/fractal_gen_tk/palettes.py:209-225 | registering a name that matches an existing key ignoring case keeps the palette count; a new name adds one |
| TkPalettesModel.PaletteFactory.constructor | python-minimax-v2.1/fractal_gen_tk/palettes.py:161-171 | the table starts as `Builtin` |
| TkPalettesModel.PaletteFactory.ListNames | python-minimax-v2.1/fractal_gen_tk/palettes.py:177-180 | every key exactly once |
| TkPalettesModel.PaletteFactory.Get | python-minimax-v2.1/fractal_gen_tk/palettes.py:183-190 | the palette `GetIn` gives for the current table |
| TkPalettesModel.PaletteFactory.Register | python-minimax-v2.1/fractal_gen_tk/palettes.py:193-225 | the table moves as `RegisterStep` says, with no case duplicates kept |
| TkPalettesModel.DropCaseDuplicate | python-minimax-v2.1/fractal_gen_tk/palettes.py:209-214 | deleting the first key equal to the name ignoring case keeps the dictionary well formed |
| TkPalettesModel.RegisterStep | python-minimax-v2.1/fractal_gen_tk/palettes.py:193-225 | `register` keeps the dictionary well formed: each key listed once, in insertion order |
| TkRenderModel.CamelToSnake | python-minimax-v2.1/fractal_gen_tk/main.py:17-24 | the converted name has no capital letters |
| TkRenderModel.CamelToSnakeOnlyInsertsUnderscores | python-minimax-v2.1/fractal_gen_tk/main.py:17-24 | for a name without underscores, dropping the underscores from the result gives the lower-cased name, so the conversion only inserts underscores and lowers letters |
| TkRenderModel.DropMarkCapitals | python-minimax-v2.1/fractal_gen_tk/main.py:23 | the substitution only inserts underscores |
| TkRenderModel.CamelOneWord | python-minimax-v2.1/fractal_gen_tk/main.py:23 | a name with no capital after its first character gets no underscore |
| TkRenderModel.CamelTwoWords | python-minimax-v2.1/fractal_gen_tk/main.py:23 | a name with one capital after its first character gets exactly one underscore, in front of that capital |
| TkRenderModel.SnakeBurningShip | python-minimax-v2.1/fractal_gen_tk/main.py:17-24 | `BurningShip` converts to `burning_ship` |
| TkRenderModel.SnakeOneWord | python-minimax-v2.1/fractal_gen_tk/main.py:17-24 | a class name with no capital after its first letter converts to its lower-cased letters, as the six one-word built-in names do |
| TkRenderModel.ClassNameConvertsToFactoryKey | python-minimax-v2.1/fractal_gen_tk/main.py:17-24 | each of the seven built-in class names converts to the key the factory registered that class under |
| TkRenderModel.WorkerRecreatesSameFractal | python-minimax-v2.1/fractal_gen_tk/main.py:46-60 | the fractal a worker process creates from the converted class name is of the same class as the one the window holds |
| TkRenderModel.Workers | python-minimax-v2.1/fractal_gen_tk/main.py:385 | the worker count is at least one, at most one per two rows and at most the requested count, and equals the request when that already fits |
| TkRenderModel.StripHeight | python-minimax-v2.1/fractal_gen_tk/main.py:386 | the strip height is at least one and at most the image height (or one) |
| TkRenderModel.PlanStrips | python-minimax-v2.1/fractal_gen_tk/main.py:384-411 | strips of `strip_h` rows from the top, the last one cut at the image height, non-empty and covering every row exactly once |
| TkRenderModel.StripAppend | python-minimax-v2.1/fractal_gen_tk/main.py:404-411 | adding the next strip keeps the strips contiguous, and the strip reaching the height completes the cover |
| TkRenderModel.StripStartsAreMultiples | python-minimax-v2.1/fractal_gen_tk/main.py:404 | strip `k` starts at row `k * strip_h` |
| TkRenderModel.MergeStrips | python-minimax-v2.1/fractal_gen_tk/main.py:413-418 | every row of the merged result is the matching row of the one strip that owns it |
| TkRenderModel.StripRowsOwned | python-minimax-v2.1/fractal_gen_tk/main.py:416-418 | once every strip is written, each row holds its owner's data |
| TkRenderModel.SequentialRowY | python-minimax-v2.1/fractal_gen_tk/main.py:376-377 | the sequential grid puts row 0 at `y_max` and the last row at `y_min` |
| TkRenderModel.StripRowYAsWrittenIs | python-minimax-v2.1/fractal_gen_tk/main.py:79-84 | as written, a strip's row `i` sits at `y_max - (y_start + i)/height * (y_max - y_min)` |
| TkRenderModel.StripRowYAsWrittenDisagrees | python-minimax-v2.1/fractal_gen_tk/main.py:79-84 | for a two-row image from 0 to 1 the strip places its second row at 0.5 where the sequential grid places it at 0 |
| TkRenderModel.StripRowYMatchesSequential | python-minimax-v2.1/fractal_gen_tk/main.py:79-84 | the corrected strip coordinates equal the sequential grid row for row |
| TkRenderModel.ParallelRowsMatchSequential | python-minimax-v2.1/fractal_gen_tk/main.py:376-418 | with the corrected coordinates, every image row is computed at the y of the sequential grid, whichever strip owns it |
| TkRenderModel.Clip | python-minimax-v2.1/fractal_gen_tk/main.py:429 | `np.clip` leaves a value in range alone and moves one outside to the nearer bound |
| TkRenderModel.ColourTable | python-minimax-v2.1/fractal_gen_tk/main.py:424-427 | one colour for each count from 0 to `max_iter`, the palette's own |
| TkRenderModel.IterationsToImage | python-minimax-v2.1/fractal_gen_tk/main.py:422-431 | the image has the shape of the counts, and each pixel is the palette's colour for its count clipped to 0..`max_iter` |
| TkRenderModel.OutOfRangeCountsSaturate | python-minimax-v2.1/fractal_gen_tk/main.py:429-430 | a count at or beyond `max_iter` is drawn as a point that did not escape, and a count at or below zero as count zero |
| KimiFractalRegistryModel.Assign | python-kimi-k2.5-opencode/fractals/__init__.py:60 | a new name goes last in the key order, an existing one keeps its place, and the name maps to the class |
| KimiFractalRegistryModel.RegisterStep | python-kimi-k2.5-opencode/fractals/__init__.py:56-60 | registration succeeds exactly when the class derives from `FractalBase`; otherwise it fails with that class's `ValueError`; on success the name maps to the class |
| KimiFractalRegistryModel.GetIn | python-kimi-k2.5-opencode/fractals/__init__.py:63-65 | a class exactly when the name is registered, and then the registered one |
| KimiFractalRegistryModel.ListIn | python-kimi-k2.5-opencode/fractals/__init__.py:68-70 | every registered name exactly once, in strictly increasing order |
| KimiFractalRegistryModel.CreateIn | python-kimi-k2.5-opencode/fractals/__init__.py:73-78 | an instance of the registered class with the given parameters when the name is registered, otherwise `ValueError` naming the unknown fractal |
| KimiFractalRegistryModel.RegisterThenGet | python-kimi-k2.5-opencode/fractals/__init__.py:56-65 | after registering a class, `get` finds it under that name and every other name is unchanged |
| KimiFractalRegistryModel.RegisterThenList | python-kimi-k2.5-opencode/fractals/__init__.py:56-70 | registering adds the name to the listing and keeps all the others |
| KimiFractalRegistryModel.ListIgnoresRegistrationOrder | python-kimi-k2.5-opencode/fractals/__init__.py:68-70 | the listing depends only on which names are registered |
| KimiFractalRegistryModel.RegistrationOrderInvisible | python-kimi-k2.5-opencode/fractals/__init__.py:56-70 | registering two names in either order lists them the same way |
| KimiFractalRegistryModel.CreateListed | python-kimi-k2.5-opencode/fractals/__init__.py:68-78 | `create` succeeds exactly for the names `list_fractals` shows |
| KimiFractalRegistryModel.FractalRegistry.constructor | python-kimi-k2.5-opencode/fractals/__init__.py:53 | the registry starts empty |
| KimiFractalRegistryModel.FractalRegistry.Register | python-kimi-k2.5-opencode/fractals/__init__.py:56-60 | the registry moves as `RegisterStep` says, and is unchanged when it raises |
| KimiFractalRegistryModel.FractalRegistry.Get | python-kimi-k2.5-opencode/fractals/__init__.py:63-65 | the lookup `GetIn` gives on the current registry |
| KimiFractalRegistryModel.FractalRegistry.ListFractals | python-kimi-k2.5-opencode/fractals/__init__.py:68-70 | the listing `ListIn` gives on the current registry |
| KimiFractalRegistryModel.FractalRegistry.Create | python-kimi-k2.5-opencode/fractals/__init__.py:73-78 | the result `CreateIn` gives on the current registry |
| KimiFractalRegistryModel.RegisterFractal | python-kimi-k2.5-opencode/fractals/__init__.py:82-88 | the decorator registers the class and then sets its `name`; when registration raises, neither the registry nor the class's `name` changes |
| KimiFractalRegistryModel.RemoveChar | python-kimi-k2.5-opencode/fractals/__init__.py:101 | the result has no copy of the removed character and keeps every other character the string had |
| KimiFractalRegistryModel.PrepareComplex | python-kimi-k2.5-opencode/fractals/__init__.py:92-104 | the corrected string handed to `complex()` is no longer than the input and has no spaces, no `i` and no capitals |
| KimiFractalRegistryModel.PrepareComplexAsWrittenDropsUnit | python-kimi-k2.5-opencode/fractals/__init__.py:101-103 | as written, `"2i"` becomes the real `"2"`, while `"-2i"` keeps its unit |
| KimiFractalRegistryModel.PrepareComplexAsWrittenKeepsCapitalI | python-kimi-k2.5-opencode/fractals/__init__.py:101 | as written, `"2I"` hands `complex()` a lower-case `i`, which it rejects |
| KimiFractalRegistryModel.PrepareComplexKeepsUnit | python-kimi-k2.5-opencode/fractals/__init__.py:101-104 | the corrected string ends with the unit `j` exactly when the input, without spaces, ends with `i`, `I`, `j` or `J` |
| KimiFractalRegistryModel.PrepareComplexIdempotent | python-kimi-k2.5-opencode/fractals/__init__.py:101 | preparing a prepared string changes nothing |
| KimiFractalRegistryModel.PrepareComplexExamples | python-kimi-k2.5-opencode/fractals/__init__.py:92-104 | the corrected preparation reads `"2i"` and `"2I"` both as `"2j"` |
| KimiFractalRegistryModel.PrepareAgreesWithSign | python-kimi-k2.5-opencode/fractals/__init__.py:101-104 | on any input with a sign and no capital `I`, the as-written and the corrected preparation agree |
| ZoomControllerModel.ToComplex | python-glm-4.7-reap-218b-a32b-i1-opencode/navigation/__init__.py:121-139 | pixel column 0 maps to `xmin` and column `width` to `xmax`; pixel row 0 maps to `ymax` and row `height` to `ymin` |
| ZoomControllerModel.PixelRoundTrip | python-glm-4.7-reap-218b-a32b-i1-opencode/navigation/__init__.py:39-73 | `complex_to_pixel` of `pixel_to_complex` of a pixel gives the same pixel back, with exact arithmetic |
| ZoomControllerModel.ToComplexMonotone | python-glm-4.7-reap-218b-a32b-i1-opencode/navigation/__init__.py:39-55 | a pixel further right never maps further left |
| ZoomControllerModel.ToComplexInside | python-glm-4.7-reap-218b-a32b-i1-opencode/navigation/__init__.py:121-139 | a pixel on the canvas maps into an ordered view |
| ZoomControllerModel.ZoomCentre | python-glm-4.7-reap-218b-a32b-i1-opencode/navigation/__init__.py:83-85 | the given centre, or the view's midpoint when either coordinate is missing |
| ZoomControllerModel.ZoomScalesAboutCentre | python-glm-4.7-reap-218b-a32b-i1-opencode/navigation/__init__.py:75-96 | each edge's distance from the zoom centre is multiplied by `factor`, and so are the width and the height |
| ZoomControllerModel.ZoomClosed | python-glm-4.7-reap-218b-a32b-i1-opencode/navigation/__init__.py:75-96 | `zoom` is scaling the view about the zoom centre |
| ZoomControllerModel.ZoomKeepsMidpoint | python-glm-4.7-reap-218b-a32b-i1-opencode/navigation/__init__.py:75-96 | zooming without a centre keeps the midpoint of the view |
| ZoomControllerModel.ZoomInverse | python-glm-4.7-reap-218b-a32b-i1-opencode/navigation/__init__.py:75-96 | zooming by `factor` and then by its reciprocal gives the original view back |
| ZoomControllerModel.ScaleAbout | python-glm-4.7-reap-218b-a32b-i1-opencode/navigation/__init__.py:93-96 | scaling about a point multiplies the width and the height by the factor |
| ZoomControllerModel.ScaledBack | python-glm-4.7-reap-218b-a32b-i1-opencode/navigation/__init__.py:93-96 | scaling by `f` and then by `1/f` about the same point is the identity |
| ZoomControllerModel.SelectAreaStep | python-glm-4.7-reap-218b-a32b-i1-opencode/navigation/__init__.py:98-119 | the new view is ordered, and each of its edges comes from one of the two converted corners |
| ZoomControllerModel.SelectAreaZoomsIn | python-glm-4.7-reap-218b-a32b-i1-opencode/navigation/__init__.py:98-119 | selecting two pixels on the canvas gives a view inside the current one |
| ZoomControllerModel.SelectWholeCanvas | python-glm-4.7-reap-218b-a32b-i1-opencode/navigation/__init__.py:98-119 | selecting the whole canvas corner to corner, in either direction, leaves an ordered view as it was |
| ZoomControllerModel.ZoomController.constructor | python-glm-4.7-reap-218b-a32b-i1-opencode/navigation/__init__.py:9-18 | the canvas size as given and the default view (-2, 1.5, -1.25, 1.25) |
| ZoomControllerModel.ZoomController.Reset | python-glm-4.7-reap-218b-a32b-i1-opencode/navigation/__init__.py:20-22 | the view is the default view again |
| ZoomControllerModel.ZoomController.SetBounds | python-glm-4.7-reap-218b-a32b-i1-opencode/navigation/__init__.py:24-37 | `get_bounds` then returns exactly the values given |
| ZoomControllerModel.ZoomController.Zoom | python-glm-4.7-reap-218b-a32b-i1-opencode/navigation/__init__.py:75-96 | the view becomes `ZoomStep` of the old view, although the four entries are overwritten one after another |
| ZoomControllerModel.ZoomController.SelectArea | python-glm-4.7-reap-218b-a32b-i1-opencode/navigation/__init__.py:98-119 | the view becomes `SelectAreaStep` of the old view, converted with the given canvas size or the controller's own |
| GlmParallelModel.ImageRow | python-glm-4.7-reap-218b-a32b-i1-opencode/rendering/parallel.py:34-40 | a row has `width` pixels |
| GlmParallelModel.CentresInsideView | python-glm-4.7-reap-218b-a32b-i1-opencode/rendering/parallel.py:24-35 | every sampled point, the centre of its pixel, lies strictly inside the view, and rows run from the top down |
| GlmParallelModel.RenderWorker | python-glm-4.7-reap-218b-a32b-i1-opencode/rendering/parallel.py:29-44 | one `(py, row)` pair per requested row, in the order requested, each row being the image row at that index |
| GlmParallelModel.Range | python-glm-4.7-reap-218b-a32b-i1-opencode/rendering/parallel.py:89 | `list(range(start, end))`: the consecutive integers from `start`, none when `end <= start` |
| GlmParallelModel.ParallelRenderer.constructor | python-glm-4.7-reap-218b-a32b-i1-opencode/rendering/parallel.py:56-59 | the worker count is the given one, or one fewer than the CPUs when none is given, and never below one |
| GlmParallelModel.ParallelRenderer.PlanRows | python-glm-4.7-reap-218b-a32b-i1-opencode/rendering/parallel.py:79-89 | one row range per worker, all of `height // workers` rows except the last, which takes the remainder; together they cover every row exactly once |
| GlmParallelModel.ParallelRenderer.Render | python-glm-4.7-reap-218b-a32b-i1-opencode/rendering/parallel.py:61-115 | every row of the result is the image row the worker computes for it; progress is reported after every tenth row and once more as `(height, height)` |
| GlmParallelModel.RenderProgressSorted | python-glm-4.7-reap-218b-a32b-i1-opencode/rendering/parallel.py:101-113 | the reported counts never go down, are positive for a non-empty image, and end at `height` |
| RowPartition.Owner | python-glm-4.7-reap-218b-a32b-i1-opencode/rendering/parallel.py:104-106 | a row inside tiling ranges has a range that contains it |
| RowPartition.OwnerUnique | python-glm-4.7-reap-218b-a32b-i1-opencode/rendering/parallel.py:104-106 | the range that contains a row is the only one, so each row is written by exactly one worker |
| RowPartition.TilesCover | python-glm-4.7-reap-218b-a32b-i1-opencode/rendering/parallel.py:79-89 | ranges that tile `[0, height)` cover every row of the image |
| RowPartition.TilesTotal | python-glm-4.7-reap-218b-a32b-i1-opencode/rendering/parallel.py:79-89 | the lengths of ranges that tile the image add up to its height |
| RowPartition.DivisionParts | python-glm-4.7-reap-218b-a32b-i1-opencode/rendering/parallel.py:79-87 | `workers - 1` ranges of `height // workers` rows plus a last one with the remainder add up to `height` |
| StringOrder.Insert | python-kimi-k2.5-opencode/fractals/__init__.py:70 | inserting a new name into a sorted list keeps it strictly sorted and adds exactly that name |
| StringOrder.Sort | python-kimi-k2.5-opencode/fractals/__init__.py:70 | `sorted` of distinct names is strictly increasing and has the same names |
| StringOrder.SortedUnique | python-kimi-k2.5-opencode/fractals/__init__.py:70 | two strictly sorted lists of the same names are equal |
| StringOrder.SortIgnoresOrder | python-kimi-k2.5-opencode/fractals/__init__.py:70 | sorting two orderings of the same distinct names gives the same list |
| StringOrder.LessTransitive | python-kimi-k2.5-opencode/fractals/__init__.py:70 | the order `sorted` uses on strings is transitive |
| StringOrder.LessTotal | python-kimi-k2.5-opencode/fractals/__init__.py:70 | any two different strings are ordered one way or the other |

## Left out

- Escape-time iteration, smooth colouring and every HSV, sine or interpolating colour formula. These are floating-point numerics.
  - The Buddhabrot and orbit-trap loops keep only their integer results.
  - The orbit is exact real arithmetic, and the trap distance is a function parameter.
  - Newton's root test and convergence step are a per-iteration event parameter.
- Palettes other than `grayscale` and `retro`. Their entries are identities in the palette table, because their colours are float formulas.
- Floating point itself: every coordinate is an exact `real`.
  - Round-trip properties such as `ZoomControllerModel.PixelRoundTrip` and `ZoomControllerModel.ZoomInverse` hold exactly, not to within rounding.
  - The `1e-10`, `1e-13` and `1e-14` tolerances are compared exactly.
- Python's `str.lower`, `str.title` and the `[A-Z]` regular expression are modelled for ASCII letters only. Unicode case mapping is not modelled.
- `complex()` in `parse_complex_string` is not modelled. The model computes the string handed to it.
- Process pools, futures and `pool.imap` are not modelled. Workers run one after another in submission order.
  - For the Claude renderer, any completion order is allowed and proved irrelevant.
  - Threads, cancellation and timing are not modelled.
- NumPy's `uint8` and `int32` arrays hold unbounded integers. Palette channels stay within 0..255 wherever the model shows it, so the cast is not at issue there.
- The Claude renderer's `_render_parallel` and `_render_numpy` paths are not modelled. Only the chunked NumPy path and the sequential path are.
- The escape-time grids computed by the workers are parameters of the merges.
- User-interface code is not modelled:
  - Tkinter, matplotlib and egui widgets, event wiring and status text;
  - file saving, configuration and demos;
  - `pan_view` and `reset_view` in `rust-allmodels/src/main.rs`.
- `SessionState.can_undo`, `can_redo`, `restore_state`, `set_current_fractal` and `current_fractal` (`fractal_generator/state.py:234-253`) are not modelled. Each only delegates to a modelled member or reads one field.
- The registries of the other explorers (the fractal-oxide registry, the GLM, Qwen and Kimi palette registries) are not modelled. They have the shape of the ones modelled here.
- `ClaudeFractalsModel.FractalObject` records only which fractal class an instance belongs to. Instance parameters other than the Newton and Buddhabrot clamps are not modelled.
- TkFractalFactoryModel.FractalFactory.Register: takes the display name as a parameter. The source reads it from the class with `getattr`, which cannot be modelled and, for the built-in classes, yields a property object (see Findings).
- ClaudeFractalsModel.OrbitTrapCalculate: requires `max_iter >= 1`. For `max_iter <= 0` the source converts an infinite or undefined distance to `int` and raises.
- ZoomControllerModel.ZoomStep: requires a view of non-zero width and height. The source raises `ZeroDivisionError` otherwise. The same holds for `ZoomControllerModel.ToPixel` and `ZoomControllerModel.ZoomController.Zoom`.
- ZoomControllerModel.ToComplex: requires a non-zero canvas size. The source raises `ZeroDivisionError` otherwise. The same holds for `ZoomControllerModel.SelectAreaStep` and `ZoomControllerModel.ZoomController.SelectArea`.
- ZoomControllerModel.ZoomController.constructor: takes the canvas size explicitly. The source defaults it to 800 by 600.
- ZoomControllerModel.ZoomInverse: states the inverse zoom with a reciprocal `g` (`factor * g == 1`) instead of `1 / factor`. The two are equal for every non-zero factor.
- GlmParallelModel.ParallelRenderer.Render: requires a non-empty image. For a zero width or height the workers divide by zero and raise.
- GlmParallelModel.RenderWorker: requires a positive width and a non-zero height, for the same division.
- ClaudeRendererModel.RenderSequential: requires a non-zero width and height, for the same reason.
- The Claude renderer's chunked NumPy path samples columns at `np.linspace(x_min, x_max, width)`, end point included (renderer.py:45). The sequential path samples `x_min + px * (x_max - x_min) / width` (renderer.py:150-158). So the two paths compute different images (`ClaudeRendererModel.ChunkColumnsLeaveSequentialGrid`). This is not reported as a defect: `_render_numpy` (renderer.py:260) uses the same closed grid for both axes, so which grid is intended is not evident. The merge is stated over the worker's computation (`compute`), whatever grid it samples.

## Findings

| source | as written | input that shows it | evidently intended | confidence | as-written member | corrected member |
|---|---|---|---|---|---|---|
| python-minimax-v2.1/fractal_gen_matplot/app.py:408-412 | `zoom_out` decrements `history_index` and then restores `view_history[history_index]`. The view saved by the last change is skipped. | One change from the start: the index is 0, so `zoom_out` does nothing. After two changes it jumps back to the first view. | Restore the view saved by the last change and step the index back. | high (not executed) | `MatplotViewModel.ZoomOutAsWrittenStep`, shown by `MatplotViewModel.ZoomOutAsWrittenSkipsAView` | `MatplotViewModel.ZoomOutStep`, proved by `MatplotViewModel.ZoomOutUndoesChange` |
| python-minimax-v2.1/fractal_gen_tk/fractals.py:381-383 | `getattr(fractal_class, 'name', …)` on a class whose `name` is a `@property` yields the property object, not a string. | Registering any `FractalType` subclass lists a property object among the types and never its display name. | Register the class's display name as a string. | high (not executed) | `TkFractalFactoryModel.RegisterAsWrittenStep`, shown by `TkFractalFactoryModel.RegisterAsWrittenListsNoName` | `TkFractalFactoryModel.RegisterStep`, proved by `TkFractalFactoryModel.DisplayNameListedAfterRegister` |
| python-minimax-v2.1/fractal_gen_tk/main.py:79-84 | A strip places row `r` at `y_max - r/height * (y_max - y_min)`. The sequential grid (`main.py:377`) uses `r/(height-1)`, so the parallel and sequential images differ. | A two-row view from 0 to 1: the strip puts its second row at 0.5, the sequential grid at 0. | Each strip samples the rows of the sequential grid. | high (not executed) | `TkRenderModel.StripRowYAsWritten`, shown by `TkRenderModel.StripRowYAsWrittenDisagrees` | `TkRenderModel.StripRowY`, proved by `TkRenderModel.StripRowYMatchesSequential` and `TkRenderModel.ParallelRowsMatchSequential` |
| rust-allmodels/src/main.rs:412-438 | `zoom_view` pushes the view on screen before zooming it, and `undo` returns the entry before the history's current one. The view saved by the latest change is skipped. `pan_view` (main.rs:420-428) does the same. | From start-up, zoom by 2 twice, then undo: the screen shows zoom 1, not the zoom-2 view that was on screen before the second zoom. | Undo brings back the view on screen before the latest change. Here that is done by saving the view after the change. | high (not executed) | `ViewHistoryModel.ZoomAsWrittenStep`, shown by `ViewHistoryModel.ZoomUndoAsWrittenSkipsAView` | `ViewHistoryModel.ZoomStep`, proved by `ViewHistoryModel.ZoomThenUndoRestores` |
| python-kimi-k2.5-opencode/fractals/__init__.py:101-103 | A trailing `j` is cut off whenever the string has no sign. `i` is replaced by `j` before the string is lowered. | `"2i"` is read as the real number 2, while `"-2i"` stays imaginary. `"2I"` hands `complex()` a lower-case `i`, which it rejects. | Lower the string first, then write the imaginary unit as `j`, and keep it. | medium (not executed) | `KimiFractalRegistryModel.PrepareComplexAsWritten`, shown by `KimiFractalRegistryModel.PrepareComplexAsWrittenDropsUnit` and `KimiFractalRegistryModel.PrepareComplexAsWrittenKeepsCapitalI` | `KimiFractalRegistryModel.PrepareComplex`, proved by `KimiFractalRegistryModel.PrepareComplexKeepsUnit` and `KimiFractalRegistryModel.PrepareAgreesWithSign` |
