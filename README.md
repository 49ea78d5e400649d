# Power-aware process simulator: safety test and power-budgeted scheduler

This project models the two algorithms of a small React simulator for an
operating-systems course, and proves properties about them.

- The process-input page holds a process table. Each row has an
  allocation vector and a request vector over three resource kinds (A, B
  and C), plus a power draw. The page also holds the vector of free
  resources.
- Submitting the table runs `checkDeadlock`, the safety test of the
  banker's algorithm:
  - it makes passes over the processes in index order;
  - each pass grants every unfinished process whose request is covered by
    `work`, and that process then releases its allocation;
  - the passes stop when one grants nothing.
- The page offers the two scheduling modes once a check has found no
  deadlock. Only the check sets the verdict, so later edits to the table or
  to the free vector do not withdraw the modes: the page can then go on to
  schedule a table that is no longer safe. `TakeInput.StaleVerdict` builds
  such a case.
- The scheduling page then runs `computeSchedule(mode)`:
  - it copies the processes into a working list, which power-saving mode
    sorts stably by power;
  - it walks the list once and admits each process whose draw the
    remaining battery covers;
  - power-saving mode derates any draw above 20 W to 80 %;
  - each admitted process adds a Gantt bar, a pie slice, the total consumed
    and the battery left.

The files are:

- `option.dfy` (module `Opt`): the `Option` type.
- `safety.dfy` (module `Safety`): the safety test.
  - The functions `Visit`, `PassUpTo`, `Run` and `SafetyTest` specify it:
    one process, one pass, all passes, and the verdict.
  - The method `CheckDeadlock` runs it on arrays `work` and `finish`, with
    the `while (changed)` loop around the `for` loop. It is proved to
    compute `SafetyTest`.
  - The lemmas say what the verdict means. In particular, the greedy passes
    report "safe" exactly when some safe sequence exists.
- `take_input.dfy` (module `TakeInput`): the state of the input page.
  - The class `InputForm` has one method per handler of the page: the
    named handlers, and the two inline field setters `setPowerLimit` and
    `setNumProcesses`. Each method changes only the fields the handler sets.
- `pow_sav.dfy` (module `PowSav`): the scheduler.
  - The functions `Draw`, `SortByPower`, `Admit` and `Simulate` specify it.
  - The method `SortByPowerInPlace` is an in-place stable insertion sort on
    an array.
  - The method `ComputeSchedule` runs the whole computation with its loop
    variables. It is proved to compute `ScheduleOf`.

Units:

- Power, battery and totals are whole hundredths of a watt. The accepted
  power limit of 1 to 100 W is therefore 100 to 10000.
- Bursts are whole milliseconds. A blank burst is `None` and lasts 0.
- Derating 80 % and rounding to two decimals is `(4 * p + 2) / 5` in
  hundredths. The exact value 0.8·p always has a fractional part that is a
  multiple of 0.2, so it is never halfway between two hundredths.

A property sometimes stated for this test is false, and the model follows
the code:

- The claim is that the state is safe whenever every request is covered by
  the free resources plus the sum of ALL allocations.
- `Safety.TotalCoverNotSafe` is a two-process counterexample: neither
  process can start, although the claim's premise holds.

The code does not reject vectors of the wrong length or negative counts.
The model states those shapes as preconditions (`WellShaped`, `nat`).

## Model

| member | source | states |
|---|---|---|
| Safety.Covered | src/Components/TakeInput/TakeInput.jsx:60 | The grant test: every requested count has a matching `work` entry and is at most that entry. Equality counts as covered. |
| Safety.AddVec | src/Components/TakeInput/TakeInput.jsx:61 | The result has the length of `work`, and entry k is `work[k]` plus the allocation's entry k. |
| Safety.Start | src/Components/TakeInput/TakeInput.jsx:51-53 | The loop's initial state: `work` is a copy of the free vector, no process is finished, and the sequence is empty. |
| Safety.Visit | src/Components/TakeInput/TakeInput.jsx:59-65 | One visit of process i: an unfinished process whose request is covered is granted. Its allocation is added to `work`, it is marked finished and appended. Otherwise the state is kept. The shapes are preserved. |
| Safety.PassUpTo | src/Components/TakeInput/TakeInput.jsx:58-67 | The state after the `for` loop has visited processes 0 .. i-1 in index order. The shapes are preserved. |
| Safety.Run | src/Components/TakeInput/TakeInput.jsx:55-68 | The `while (changed)` loop: passes repeat while a pass appends something, and the result is the state after the first pass that appends nothing. It terminates because each repeating pass lowers the number of unfinished processes. |
| Safety.AllFinished | src/Components/TakeInput/TakeInput.jsx:70 | `finish.every(f => f)`: every flag is true. |
| Safety.SafetyTest | src/Components/TakeInput/TakeInput.jsx:47-70 | The verdict and sequence of the whole test: the loop runs from the start state, and the verdict is whether every process finished. |
| Safety.Covers | src/Components/TakeInput/TakeInput.jsx:60 | The early-exit check of every requested count returns true exactly when each count is at most the matching `work` entry. Equality counts as covered. |
| Safety.Release | src/Components/TakeInput/TakeInput.jsx:61 | After the loop over the three kinds, `work` is the old `work` plus the process's allocation, componentwise. |
| Safety.Pass | src/Components/TakeInput/TakeInput.jsx:57-67 | One pass of the `for` loop leaves `work`, `finish` and the sequence exactly as the reference pass `PassUpTo(…, n)` would. `changed` is true exactly when the pass appended a process. |
| Safety.CheckDeadlock | src/Components/TakeInput/TakeInput.jsx:47-70 | Returns the verdict and sequence of the reference `SafetyTest`. The sequence is a partial safe sequence. `isSafe` holds exactly when some safe sequence exists. There are at most n+1 passes. The caller's snapshot is a value and is never changed. |
| Safety.PassCount | src/Components/TakeInput/TakeInput.jsx:59-64 | Each grant finishes exactly one more process and appends one index. A pass that sets `changed` therefore lowers the number of unfinished processes, which is why the loop ends. |
| Safety.VisitConsistent | src/Components/TakeInput/TakeInput.jsx:59-63 | Granting or skipping one process keeps the loop invariant. The sequence stays a partial safe sequence, and each index in it was covered by `work` when granted. `finish[i]` is true exactly for the indices in the sequence. `work` equals available plus the allocations of the finished processes. |
| Safety.PassConsistent | src/Components/TakeInput/TakeInput.jsx:58-67 | A whole pass keeps the same invariant. |
| Safety.QuietPass | src/Components/TakeInput/TakeInput.jsx:56-68 | A pass that appends nothing changes nothing. Every unfinished process it visited was not covered by `work`. |
| Safety.RunProperties | src/Components/TakeInput/TakeInput.jsx:55-68 | After the `while (changed)` loop the invariant still holds. The state is a fixed point: no unfinished process is covered by the final `work`. |
| Safety.OrderLength | src/Components/TakeInput/TakeInput.jsx:59-63 | A sequence of distinct valid indices has at most n entries. |
| Safety.FullOrder | src/Components/TakeInput/TakeInput.jsx:59-70 | For a partial safe sequence, having length n is equivalent to listing every process. |
| Safety.ClosedOrderDecides | src/Components/TakeInput/TakeInput.jsx:56-70 | Suppose a partial safe sequence leaves every missing process uncovered. If any complete safe sequence exists, then this one is already complete. |
| Safety.SafetyTestSound | src/Components/TakeInput/TakeInput.jsx:56-68 | The reported sequence has no repeats. Every index in it had its request covered by the resources free after its predecessors finished. Every process left out is uncovered at the end. |
| Safety.SafetyTestVerdict | src/Components/TakeInput/TakeInput.jsx:70 | `isSafe` holds exactly when the sequence has n entries, and exactly when it lists every process 0 .. n-1, i.e. it is a permutation. |
| Safety.SafetyTestComplete | src/Components/TakeInput/TakeInput.jsx:47-70 | The greedy passes are complete: the verdict is "safe" exactly when some order lets every process finish. |
| Safety.ZeroRequestGranted | src/Components/TakeInput/TakeInput.jsx:58-63 | A process with an all-zero request is finished in the first pass, whatever is free, and so appears in the sequence. |
| Safety.StartableGranted | src/Components/TakeInput/TakeInput.jsx:51-63 | A process whose request is covered by the free resources alone always ends up in the sequence, because `work` never shrinks. |
| Safety.FirstCoveredByAvailable | src/Components/TakeInput/TakeInput.jsx:51-60 | The first process of any safe sequence needs no more than is free at the start. |
| Safety.NothingStartable | src/Components/TakeInput/TakeInput.jsx:55-70 | If no request is covered by the free resources, nothing is ever granted. The sequence is then empty, and the verdict is unsafe unless there are no processes. |
| Safety.ScenarioDeadlock | src/Components/TakeInput/TakeInput.jsx:47-70 | With nothing free and two processes each requesting one unit of A, the test reports unsafe with an empty sequence. |
| Safety.ScenarioSafe | src/Components/TakeInput/TakeInput.jsx:47-70 | With one unit of A free and one process requesting it, the test reports safe with sequence [0]. |
| Safety.TotalCoverNotSafe | src/Components/TakeInput/TakeInput.jsx:56-70 | A counterexample: every request is covered by the free resources plus all allocations, yet the state is unsafe and nothing is granted. |
| TakeInput.BlankTable | src/Components/TakeInput/TakeInput.jsx:17-21 | The new table has `numProcesses` rows, each with zero allocation, zero request and zero power. |
| TakeInput.SetCell | src/Components/TakeInput/TakeInput.jsx:31 | Writing one cell of a row changes exactly that entry. Every other entry of both vectors and the power stay as they were. |
| TakeInput.TableSnapshot | src/Components/TakeInput/TakeInput.jsx:48-51 | What `checkDeadlock` reads: `n` is the number of rows, and the allocation and request matrices are the rows' vectors. |
| TakeInput.BlankTableSafe | src/Components/TakeInput/TakeInput.jsx:17-21 | A freshly built table is safe for any free vector. |
| TakeInput.InputForm.constructor | src/Components/TakeInput/TakeInput.jsx:7-12 | Initially: blank limit and count, free vector [0,0,0], no table shown, no processes, no verdict. |
| TakeInput.InputForm.Snapshot | src/Components/TakeInput/TakeInput.jsx:48-51 | The table and the free vector always form a well-shaped snapshot with one process per row. |
| TakeInput.SetupValid | src/Components/TakeInput/TakeInput.jsx:16 | The submit guard: 1 W <= limit <= 100 W (100 to 10000 hundredths) and a positive process count. |
| TakeInput.InputForm.ModesOffered | src/Components/TakeInput/TakeInput.jsx:149 | The mode buttons are shown exactly when the recorded verdict is "no deadlock" (`deadlock === false`). |
| TakeInput.InputForm.SetPowerLimit | src/Components/TakeInput/TakeInput.jsx:88 | The power-limit field takes the typed value, and nothing else changes. |
| TakeInput.InputForm.SetNumProcesses | src/Components/TakeInput/TakeInput.jsx:98 | The process-count field takes the typed value, and nothing else changes. |
| TakeInput.InputForm.HandleInitialSubmit | src/Components/TakeInput/TakeInput.jsx:14-27 | The table is built exactly when 1 W <= limit <= 100 W and the count is positive. It is then a blank table of that many rows and is shown. Otherwise nothing changes. |
| TakeInput.InputForm.UpdateCell | src/Components/TakeInput/TakeInput.jsx:29-33 | Exactly one allocation or request entry takes the new value. Every other entry and every power stay unchanged. |
| TakeInput.InputForm.UpdatePower | src/Components/TakeInput/TakeInput.jsx:35-39 | Exactly one power takes the new value. Every other power and every vector entry stay unchanged. |
| TakeInput.InputForm.HandleAvailableChange | src/Components/TakeInput/TakeInput.jsx:41-45 | Exactly one count of the free vector takes the new value. |
| TakeInput.InputForm.CheckDeadlock | src/Components/TakeInput/TakeInput.jsx:47-78 | The recorded verdict is "deadlock" exactly when the safety test fails. Only `deadlock` changes, so `available` is untouched. The two modes are offered exactly when the table is in a safe state. |
| TakeInput.StaleVerdict | src/Components/TakeInput/TakeInput.jsx:14-78 | Suppose a one-process table is checked safe and its request is then raised above what is free. The modes stay offered, although the table is no longer in a safe state. |
| PowSav.Decimal | src/Components/PowerSaving/PowSav.jsx:40 | The decimal digits of the index in `P${i}`: at least one character, and only digits. |
| PowSav.DisplayName | src/Components/PowerSaving/PowSav.jsx:40 | The process's own id when it has one, else "P" followed by its index. |
| PowSav.Tagged | src/Components/PowerSaving/PowSav.jsx:40 | The copied list: one entry per process, in input order. Each entry carries its display name, its input index, its power and its burst. |
| PowSav.DecimalRoundTrip | src/Components/PowerSaving/PowSav.jsx:40 | Reading back the digits of the default id `P${i}` gives i. |
| PowSav.DefaultNamesDistinct | src/Components/PowerSaving/PowSav.jsx:40 | Distinct positions get distinct default ids. |
| PowSav.InsertPermutes | src/Components/PowerSaving/PowSav.jsx:41-43 | One insertion step adds exactly the inserted entry to the list's multiset. |
| PowSav.SortPermutes | src/Components/PowerSaving/PowSav.jsx:41-43 | Sorting by power is a permutation of the working list. |
| PowSav.InsertStable | src/Components/PowerSaving/PowSav.jsx:41-43 | Inserting into a list sorted by (power, input index) keeps it sorted that way. |
| PowSav.SortByPowerStable | src/Components/PowerSaving/PowSav.jsx:41-43 | The sorted list is nondecreasing by power, and entries of equal power keep their input order. |
| PowSav.Insert | src/Components/PowerSaving/PowSav.jsx:42 | One insertion step: x goes after every entry whose power is not above its own and before the trailing run of greater powers. |
| PowSav.SortByPower | src/Components/PowerSaving/PowSav.jsx:42 | The insertion sort by power that the comparator `a.power - b.power` defines. Entries of equal power keep their relative order. |
| PowSav.InsertSorted | src/Components/PowerSaving/PowSav.jsx:42 | Inserting into a list that is nondecreasing by power keeps it nondecreasing. |
| PowSav.SortByPowerSorted | src/Components/PowerSaving/PowSav.jsx:42 | For every list, the sorted list is nondecreasing by power. |
| PowSav.WorkingList | src/Components/PowerSaving/PowSav.jsx:40-43 | The list the walk uses: the tagged copy in performance mode, and the copy sorted by power in power-saving mode. |
| PowSav.WorkingOrder | src/Components/PowerSaving/PowSav.jsx:40-43 | The working list holds every process exactly once. Performance mode keeps the input order. Power-saving mode sorts stably by power. |
| PowSav.Draw | src/Components/PowerSaving/PowSav.jsx:51-54 | In power-saving mode, a power above 20 W draws 80 % of it rounded to the nearest hundredth. That draw is strictly below the power and never negative. In every other case the draw is the power. |
| PowSav.DerateNotMonotone | src/Components/PowerSaving/PowSav.jsx:41-54 | Derating is not monotone: 20.01 W draws 16.01 W, less than 20 W does. Sorting by power is therefore not sorting by draw. |
| PowSav.Duration | src/Components/PowerSaving/PowSav.jsx:58 | `parseFloat(p.burst) || 0`: the burst, and 0 when it is blank. |
| PowSav.Admit | src/Components/PowerSaving/PowSav.jsx:49-61 | One step of the `forEach`. When the battery is below the draw, everything is kept. Otherwise the draw leaves the battery and joins the consumption, a bar starting at the current timeline and a slice are appended, and the timeline advances by the burst. |
| PowSav.Simulate | src/Components/PowerSaving/PowSav.jsx:44-62 | The loop's five variables after walking a list: start from a full battery and nothing consumed, then take one admission step per entry, in list order. |
| PowSav.ScheduleOf | src/Components/PowerSaving/PowSav.jsx:38-70 | What `computeSchedule(mode)` returns: the pie, the Gantt bars, the total consumed and the battery left after walking the working list of the mode. |
| PowSav.Conservation | src/Components/PowerSaving/PowSav.jsx:44-57 | After every prefix of the walk, consumed plus battery equals the limit. |
| PowSav.ConsumedIsSumOfDraws | src/Components/PowerSaving/PowSav.jsx:55-61 | The consumption equals the sum of the Gantt bars' powers and the sum of the pie slices' values. |
| PowSav.BatteryBounds | src/Components/PowerSaving/PowSav.jsx:44-56 | The battery never rises above the limit. It never goes negative when the limit is non-negative. A negative limit admits nothing. |
| PowSav.AdmissionRule | src/Components/PowerSaving/PowSav.jsx:49-61 | Entry k is admitted exactly when the battery before it covers its draw, and the battery then drops by exactly the draw and stays non-negative. A skipped entry leaves battery, consumption, timeline, Gantt and pie unchanged. |
| PowSav.BatteryFalls | src/Components/PowerSaving/PowSav.jsx:49-56 | Along the list the battery only falls. |
| PowSav.SkippedStaysOut | src/Components/PowerSaving/PowSav.jsx:49-55 | A skipped process is not covered by what is left at the end either. Reconsidering it would not admit it. |
| PowSav.GanttChained | src/Components/PowerSaving/PowSav.jsx:46-60 | After every prefix of the walk, the bars are laid end to end from time 0, and the timeline is their total duration. |
| PowSav.GanttStarts | src/Components/PowerSaving/PowSav.jsx:46-60 | Each bar starts at the sum of the durations of the bars before it. The final timeline is the sum of the admitted durations, where a blank burst counts as 0. |
| PowSav.GanttTiming | src/Components/PowerSaving/PowSav.jsx:46-60 | The first bar starts at 0. Each later bar starts where the previous one ends. |
| PowSav.PieMatchesGantt | src/Components/PowerSaving/PowSav.jsx:59-61 | The pie and the Gantt chart have the same length, the same ids in the same order, and the same draws. |
| PowSav.GanttEmbeds | src/Components/PowerSaving/PowSav.jsx:49-61 | The Gantt bars come from a subsequence of the working list, in list order. Each bar carries its entry's id, draw and burst. |
| PowSav.ScenarioPerformance | src/Components/PowerSaving/PowSav.jsx:38-68 | Limit 50 W with (10 W, 5), (30 W, 3), (25 W, 2): P0 at 0 and P1 at 5 are admitted and P2 is skipped. Total 40 W, 10 W left. |
| PowSav.ScenarioPowerSaving | src/Components/PowerSaving/PowSav.jsx:38-68 | Same input in power-saving mode: the order is P0, P2, P1. P0 and P2 (draw 20 W) are admitted and P1 (draw 24 W) is skipped. Total 30 W, 20 W left. |
| PowSav.InsertSplit | src/Components/PowerSaving/PowSav.jsx:42 | Inserting x places it after the entries whose power is not above its own and before the trailing run of greater powers. |
| PowSav.SiftLeft | src/Components/PowerSaving/PowSav.jsx:42 | Moving an entry left past greater powers shifts exactly those entries one place right and leaves the rest of the array alone. |
| PowSav.InsertAt | src/Components/PowerSaving/PowSav.jsx:42 | One round of the in-place sort turns a[..i+1] into the insertion of a[i] into a[..i]. The tail is untouched. |
| PowSav.SortByPowerInPlace | src/Components/PowerSaving/PowSav.jsx:41-43 | The array ends up as the stable sort by power of its old contents. It holds the same entries as before and is nondecreasing by power. |
| PowSav.Walk | src/Components/PowerSaving/PowSav.jsx:44-62 | The `forEach` loop, with its five variables, ends with exactly the state of the reference walk `Simulate` over the list. |
| PowSav.ScheduleProperties | src/Components/PowerSaving/PowSav.jsx:38-70 | For every input, limit and mode: total + left equals the limit. For a non-negative limit, left lies between 0 and the limit. The total is the sum of the Gantt powers and of the pie values. Pie and Gantt have equal length. The bars embed in the working list. |
| PowSav.ComputeSchedule | src/Components/PowerSaving/PowSav.jsx:38-70 | Returns the reference schedule for the mode. total + left equals the limit. For a non-negative limit, left lies between 0 and the limit. Pie and Gantt have equal length. The Gantt bars embed in the working list. |

## Left out

- Floating point. Numbers are exact integers in hundredths, so `toFixed(2)` on the total and the battery left is the identity. The artefacts of binary floating point in `* 0.8`, `-=` and `toFixed` are not reproduced.
- String parsing (`Number`, `parseFloat`, `|| 0`). Every field arrives already numeric: a count, power or burst is a `nat`, and a limit or process count is an `int`. Negative, fractional or unparseable cell values, and `NaN` in the sort comparator, are not modelled. A power is never missing in the page's flow, because rows start at power 0.
- TakeInput.InputForm.HandleInitialSubmit: the count is an integer. The truncation that `Array.from` applies to a fractional count is not modelled.
- Safety.CheckDeadlock: requires every vector to have three entries. The code never checks this, and the page only ever builds such rows.
- TakeInput.InputForm.UpdateCell: models the row update on values. In the code, `[...processes]` is a shallow copy, so the row objects are shared with the previous state and written in place. That sharing is not observable through the handlers modelled here.
- `alert`, `navigate`, the React hooks, rendering and the charts are presentation. The `showAlt` toggle and the alternate-mode rendering are also left out. Both modes are covered by `ComputeSchedule`'s `mode` parameter.
- The burst-entry form (`handleBurstChange`, `submitBursts`, PowSav.jsx:16-33) is UI state plumbing. Bursts reach `ComputeSchedule` as inputs.
- The routing page and the introduction page (App.js, IntroPage.jsx) are not part of this model.
