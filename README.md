# Statement-coverage tool: a Dafny model

This project models the core of a small Python statement-coverage tool. A
`Coverage` object is entered as a context manager. While it is entered, it is
the process-wide trace function: it forwards every trace event to the trace
function it displaced, and it logs the `(function name, line number)` of each
line event. `count_statements` walks a parsed syntax tree and counts the nodes
whose class is one of 23 statement classes; the tool uses that count as the
denominator of a coverage percentage. The traced target is `factorial.py`, an
iterative factorial.

`zstatement.py` and `coverage.py` carry the same `Coverage` class
(zstatement.py:7-49, coverage.py:6-48) and the same `count_statements`
(zstatement.py:68-77, coverage.py:67-76). One model stands for both copies,
and the table below cites whichever copy is closer to hand. In zstatement.py,
`__repr__` is nested inside `coverage()` after its `return`, so that copy has
no rendering method at all.

Modules:

- `Wrappers`: `Option`, for Python's `None`-or-value.
- `TraceLog`: trace events and frames reduced to `(kind, function name, line)`;
  `RecordedAll`, the log that a run of events leaves; the lemmas about it.
- `Tracer`: the trace slot of `sys.gettrace`/`sys.settrace` as an explicit
  `TraceSlot` object, a foreign trace function as a `Sink` that records what it
  receives, and the `Coverage` class with `Traceit`, `Enter`, `Exit` and
  `CoverageSet`. The captured trace function may itself be another `Coverage`
  tracer. Ghost `Chain` and `Sinks` sets hold exactly the tracers and the
  foreign sink along that chain and keep it acyclic, so forwarding an event
  ends. `TraceAll` is the runtime delivering a run of events to a tracer.
  `TracedBlock` is the `with Coverage() as cov:` protocol around a traced
  body, and `NestedTracedBlocks` puts one such block inside another.
- `Statements`: syntax trees as `Node(kind, children)`, with `kind` the name of
  the node's `ast` class; `StatementCount` is the specification and
  `CountStatements` is the accumulator loop of the source, proved against it.
- `FactorialTree`: the tree `ast.parse` builds for `factorial.py`, children in
  `ast.iter_child_nodes` order, and its count of 11.
- `Factorial`: `factorial(n)` as a `while true` loop with `break`, proved to
  return n! (and `None` for negative `n`).
- `PathFiles`: the glob pattern built by `get_path_files`.

Two facts about the code that the model keeps:

- `traceit` calls the captured trace function before it logs the event
  (zstatement.py:22-28), and so does `Traceit`.
- The whitelist gives 11 for `factorial.py`: one `FunctionDef`, two `If`, two
  `Return`, four `Assign`, one `While` and one `Break`
  (`FactorialTree.FactorialStatementCount`).

## Model

| member | source | states |
|---|---|---|
| `Tracer.Coverage.constructor` | zstatement.py:12-16 | a new tracer has an empty log and has not been entered |
| `Tracer.Coverage.Traceit` | zstatement.py:18-29 | this log grows by `(name, line)` for a line event outside `__exit__` and is unchanged otherwise; along the whole chain of captured trace functions, every tracer logs the event by the same rule and keeps its captured function, its entered flag and its chain, and the foreign sink at the end receives exactly this (frame, event, arg); it returns this tracer's own trace function |
| `Tracer.Coverage.Enter` | zstatement.py:31-37 | captures exactly the slot's previous content, installs this tracer's trace function, returns the tracer itself, leaves the log alone; requires that the slot does not already lead back to this tracer |
| `Tracer.Coverage.Exit` | coverage.py:38-42 | whatever the exception information, puts the captured trace function back in the slot and does not suppress the exception |
| `Tracer.Coverage.CoverageSet` | coverage.py:44-48 | holds exactly the logged locations, and no more of them than the log has entries |
| `Tracer.Coverage.TraceAll` | coverage.py:17-28 | delivering a run of events one by one grows this log by the run's log; every tracer on the chain logs the run and keeps what it captured, and the foreign sink at the end receives the whole run |
| `Tracer.EnterNew` | zstatement.py:158 | `with Coverage() as cov:` up to its body: a new tracer with an empty log, entered, holding exactly the slot's previous content, and installed in the slot |
| `Tracer.TracedBlock` | coverage.py:112-124 | after `with Coverage() as cov:` the slot holds what it held before, even when the body reinstalled `cov.traceit`; the log is the log of the body's events; every tracer on the displaced chain logged the body and is still entered with the same captured function, a displaced tracer is still valid, and the foreign sink at the end received every event of the body; the exception is not suppressed |
| `Tracer.NestedTracedBlocks` | zstatement.py:31-43 | in two nested `with Coverage()` blocks both tracers log the whole body, a foreign trace function displaced by the outer block receives every event through both, and after both exits the slot holds what it held before |
| `TraceLog.RecordedAll` | coverage.py:23-27 | a run of events logs at most one entry per event |
| `TraceLog.RecordedAllAppend` | zstatement.py:24-28 | the log is append-only: the log of two runs is the first run's log followed by the second's |
| `TraceLog.RecordedAllMembership` | coverage.py:23-27 | a location is logged exactly when some event was a line event at that location outside `__exit__` |
| `TraceLog.SetViewBound` | zstatement.py:45-49 | the set view of a log has no more elements than the log has entries |
| `Statements.CountStatements` | zstatement.py:68-77 | the accumulator loop returns the statement count: 1 for a whitelisted root plus the counts of all children |
| `Statements.ChildrenCountAppend` | coverage.py:74-75 | the count over two lists of children is the sum of their counts |
| `Statements.ChildrenCountPermutation` | coverage.py:74-75 | the count over a list of children does not depend on their order |
| `Statements.CountIndependentOfChildOrder` | zstatement.py:75-76 | reordering the children of a node leaves its count unchanged |
| `Statements.CountAtMostSize` | coverage.py:67-76 | a tree holds no more statements than nodes |
| `Statements.ChildrenCountAtMostSize` | zstatement.py:74-76 | a list of subtrees holds no more statements than nodes |
| `FactorialTree.FactorialStatementCount` | factorial.py:1-17 | the tree of the factorial file counts 11; the `Module` root and the docstring `Expr` add nothing |
| `Factorial.Fact` | factorial.py:9-17 | n! is at least 1, and at least n for n >= 1 |
| `Factorial.Factorial` | factorial.py:1-17 | `None` for negative n, otherwise n!, so 1 for both 0 and 1; the loop keeps `f == i!` and `1 <= i <= max(n, 1)` and ends because `n - i` falls |
| `Factorial.MeasuredCall` | zstatement.py:157-159 | the traced call `factorial(3)` returns 6 |
| `PathFiles.GlobPattern` | coverage.py:86-94 | a pattern exactly when the path is a directory; it ends in `"*." + filter` (default `"in"`), and the part before it is the path extended by at most one character so that it ends in '/' |
| `PathFiles.TrailingSlashIrrelevant` | coverage.py:89-90 | a directory named with or without a trailing '/' gives the same pattern |
| `PathFiles.NoDoubledSlash` | coverage.py:89-90 | a path already ending in '/' gets no second '/' |

## Left out

- `sys.settrace`, `sys.gettrace`, `inspect.getframeinfo` and frame objects: replaced by the `TraceSlot` object and by frames reduced to a function name and a line number.
- The split between the global trace function and the local one that `traceit` returns: the model delivers every event of a traced body to the function in the slot.
- Tracer.Coverage.Enter: entering a tracer that the slot already leads back to is excluded by its requires. An example is `with cov:` nested inside `with cov:`. The source accepts it: `__enter__` captures the tracer's own `traceit` (zstatement.py:35, coverage.py:34), and the next event makes `traceit` call itself through `orig_trace` until Python raises `RecursionError` (zstatement.py:22-23, coverage.py:21-22). Every call site enters a new `Coverage` (zstatement.py:158, coverage.py:112). It also requires a tracer already in the slot to be `Valid()`; one whose captured tracer was re-entered elsewhere afterwards is not, so installing a new tracer over such a reused one is not modelled.
- Tracer.Coverage.Traceit, Tracer.Coverage.Exit: both require `entered`. Before `__enter__` has run, `orig_trace` does not exist, so `traceit` and `__exit__` raise `AttributeError` in the source (zstatement.py:22, zstatement.py:43, coverage.py:21, coverage.py:42); that error path is not modelled.
- Tracer.Coverage.Traceit: the contract does not state that the captured trace function is called before the log is appended to; the model has no observer shared by both, so that order is fixed only by the method body.
- A foreign trace function that raises: sinks here always return, so the propagation of such an exception is not modelled.
- The payload `arg` is an optional string; its contents never matter to the tracer.
- `total_statements` (zstatement.py:79-84, coverage.py:78-83): file reading and `ast.parse` are outside the model; only `count_statements` over a given tree is modelled.
- `__repr__` (coverage.py:50-65): diagnostic rendering that relies on `eval` and `inspect.getsourcelines`; in zstatement.py it is unreachable code.
- `execute_script_with_input`, `exec_program` and the module-level driver code (coverage.py:97-126, coverage.py:136-138, zstatement.py:141-162): command-line arguments, directory listing, `glob.glob`, file reads, `exec` and printing. Only the `with` protocol of `exec_program` is kept, as `Tracer.TracedBlock`.
- `PathFiles.GlobPattern`: `os.path.isdir` is a parameter; the filesystem match of the pattern (`glob.glob`) is not modelled.
- The coverage percentage (zstatement.py:164): floating-point division and formatting, unguarded against a zero statement count.
- Commented-out code (zstatement.py:87-137, zstatement.py:149-155, coverage.py:129-134, coverage.py:140).
- Threads: the trace slot is modelled as one object, as for a single thread.
