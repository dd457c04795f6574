# Flow tracer and class watcher, modelled in Dafny

This project models two parts of the repository.

**The asynchronous call-flow tracer of `core/logger.py`.**
- A decorated async function runs through `async_logged_execution`, which keeps two context variables: the active trace (a list of frames) and the nesting depth.
- On entry it starts a trace when none is active, increments the depth and appends a frame holding the function's name, its truncated arguments and a timestamp.
- When the function finishes, the frame records either the truncated return value or the exception, with outcome `SUCCESSFUL` or `ERROR`.
- `handle_post_execution` stamps the elapsed time and decrements the depth. When the depth reaches zero it computes the aggregate outcome and the file name `logs/<root>__<timestamp>_<outcome>.json`, writes the trace and resets both variables.
- `FlowTraceHandler.emit` attaches each log record to the last frame of the active trace.
- Payloads are cut by `truncate_complex`. It charges one running length counter across a whole value, walking lists, tuples and dicts left to right, and marks cut scalars with `...(truncated)`.

**`ClassWatcher` of `javascript/prompt_history.js`.** It is an edge-triggered watcher of one CSS class. It remembers whether the node had the class (`lastClassState`). For every `class` attribute mutation it fires the "added" or "removed" callback only when that state changes.

Files:
- `wrappers.dfy`: `Option` and `Result`.
- `truncation.dfy` (module `Truncation`):
  - `truncate_complex` as recursive functions (`Truncate`, `TruncateItems`, `TruncateEntries`);
  - reference definitions that truncate every element (`ElementWise`, `EntryWise`) and lemmas relating the two;
  - the loop form the source runs (`TruncateComplex`, `TruncateSequence`, `TruncateText`), each proved equal to the functions;
  - `truncate_value` under its two readings (`Mode`).
- `flow_trace.dfy` (module `FlowTrace`):
  - the tracer as functions over the context pair and the list of written trace files (`Exec`, `RunSteps`, `PostExecution`, `EmitOn`), with the lifecycle lemmas;
  - the class `Tracer`, whose fields are the two context variables and whose methods are proved to compute exactly those functions.
- `class_watcher.dfy` (module `ClassWatch`): the batch semantics `Observe`, its lemmas, and the class `ClassWatcher` whose `MutationCallback` loop is proved to follow `Observe`.

Modelling choices:
- A wrapped function is a `Call`. Its body is a sequence of `Step`s, each a log record or a nested wrapped call, run in order. It then returns a `Value` or raises an `Exc`. The body stops at the first exception a step raises, and the function fails with it: a wrapped function that catches an exception from a nested wrapped call or from logging cannot be expressed. This matters only for the `AsWritten…` lemmas, whose nested calls raise; for example, the `None` returned in `AsWrittenNestedArgumentStrandsContext` assumes the body does not catch.
- Clock readings (the frame timestamp, the formatted elapsed time, the timestamp in the file name) are opaque strings carried by the `Call`.
- `str()` of a scalar, `str(type(e))`, `str(e)` and the formatted traceback are opaque strings.
- A written trace file is an entry `Persisted(filename, flowDuration, frames)` of the ghost list `written`.
- One sequential logical task is modelled.

`truncate_value` as written calls `isinstance(value)` with one argument (core/logger.py:94). This always raises `TypeError`. The model covers both readings:
- `Mode.Intended` uses the evidently intended `truncate_complex(value, 1200)[0]`. All the lifecycle properties are proved for this mode.
- `Mode.AsWritten` raises. The lemmas named `AsWritten…` prove what the code as written then does.

`truncate_complex` defaults to a budget of 500, but its only caller, `truncate_value`, passes 1200 (`ValueMaxLength`), and the recursive calls pass the budget on. So the default is never used on the modelled paths, and the model has no constant for it.

Whether a failure of the wrapped function ought to be re-raised or swallowed is an open design question. The code swallows it: the exception is recorded and the wrapper returns `None`. The model follows the code (`WrapperResult`).

## Model

| member | source | states |
|---|---|---|
| `Truncation.PyPrefix` | core/logger.py:88 | Python's `s[:n]` for any integer `n`: the result is a prefix of `s`; for negative `n` its length is `max(0, len(s)+n)` |
| `Truncation.TruncateScalar` | core/logger.py:85-89 | the counter becomes `current + len(s)`; the text is unchanged when that is within the budget; otherwise it is the first `max(0, max_length - current)` characters followed by `...(truncated)`, and the full length is still charged |
| `Truncation.TruncateText` | core/logger.py:85-89 | the scalar branch as statements computes exactly `TruncateScalar` |
| `Truncation.Truncate` | core/logger.py:55-89 | the counter never decreases; scalars give strings, lists and tuples both give lists, dicts give dicts |
| `Truncation.TruncateItems` | core/logger.py:57-67 | the counter never decreases; at most the input's length is kept; a shorter output means the returned counter reached the budget |
| `Truncation.ItemsArePrefix` | core/logger.py:57-67 | the list loop keeps an in-order prefix of the element-wise results, each with counter below the budget; the first dropped element's counter reaches the budget and is the returned counter |
| `Truncation.FlatListWithinBudget` | core/logger.py:57-67 | for a list of scalars, the kept strings are whole, and when at least one is kept the starting counter plus their total length stays below the budget |
| `Truncation.FlatValueWithinBudget` | core/logger.py:92-97 | with the intended truncate_value (budget 1200, counter 0), a flat list keeps whole strings totalling fewer than 1200 characters |
| `Truncation.TruncateSequence` | core/logger.py:57-67 | the `for item in value` loop with `break` computes exactly `TruncateItems` |
| `Truncation.TruncateEntry` | core/logger.py:72-77 | the key is charged in full and the value is then truncated from the counter after the key, giving the entry's value and final counter; a key that fits the budget on its own is not cut |
| `Truncation.TruncateEntries` | core/logger.py:69-83 | the counter never decreases; a shorter output means the budget was reached; every kept entry keeps its original key |
| `Truncation.EntriesArePrefix` | core/logger.py:69-83 | the dict loop keeps an iteration-order prefix of the per-entry results, each charged key then value and below the budget; the first dropped entry's counter reaches it and is returned |
| `Truncation.DictInsert` | core/logger.py:80 | `truncated[k] = v` on an insertion-ordered dict: a new key goes last; an existing key keeps its place and takes the new value, while every other pair keeps its place and its value; the pair is present afterwards |
| `Truncation.InsertAllFresh` | core/logger.py:80 | assigning pairs with distinct keys builds exactly those pairs in order |
| `Truncation.DictIsEntryPrefix` | core/logger.py:69-83 | with distinct keys, the truncated dict is exactly the kept prefix of entries, with the original keys |
| `Truncation.TruncateComplex` | core/logger.py:55-89 | the recursive loop implementation computes exactly `Truncate` (same value, same counter) |
| `FlowTrace.TruncateArgs` | core/logger.py:129 | as written, any positional argument raises TypeError, and no arguments give an empty tuple; intended, every argument is truncated element-wise in order |
| `FlowTrace.TruncateKwargs` | core/logger.py:130 | as written, any keyword argument raises, and no keyword arguments give an empty dict; intended, each value is truncated under its own key, in order |
| `FlowTrace.BuildFrame` | core/logger.py:127-132 | the new frame has the function name, the truncated args and kwargs and the entry timestamp, and no outcome, result, exception, elapsed time or log list yet; it succeeds exactly when the truncation is the intended one or the call has no arguments; as written it raises TypeError whenever there is an argument |
| `FlowTrace.Settle` | core/logger.py:135-146 | a failure in the body or the function's own exception is recorded and `None` returned; on success the wrapped result is returned unchanged; with the intended truncation its truncated form is recorded, and as written the TypeError is recorded instead |
| `FlowTrace.HasError` | core/logger.py:172 | true exactly when some frame has outcome `ERROR` |
| `FlowTrace.FlowOutcome` | core/logger.py:172-175 | the status is one of ERROR, SUCCESSFUL or UNKNOWN; it is ERROR when any frame failed; otherwise it is SUCCESSFUL exactly when the finishing frame succeeded; it is UNKNOWN exactly when no frame failed and the finishing frame has no outcome |
| `FlowTrace.StatusRoundTrip` | core/logger.py:179 | the status can be read back from the suffix of `logs/<name>__<timestamp>_<status>.json` |
| `FlowTrace.PostExecution` | core/logger.py:153-189 | away from depth one, only the elapsed time and the depth change and nothing is written; at depth one the context resets to idle and exactly one file is appended after the earlier ones: it holds the trace with the elapsed time stamped, the elapsed time as flow duration, and the name built from the finishing frame's function name and the aggregate outcome of that trace |
| `FlowTrace.EmitOn` | core/logger.py:26-37 | with no active trace nothing changes; an empty trace raises IndexError; otherwise exactly one entry is appended to the last frame's log list (created if absent) and nothing else changes |
| `FlowTrace.NestedKeepsTrace` | core/logger.py:113-150 | in either mode, a call made while a trace is active writes no file, keeps a trace active, keeps every earlier frame exactly as it was and leaves the depth no lower |
| `FlowTrace.StepsKeepTrace` | core/logger.py:137 | the same for a whole body of steps, except that the last earlier frame may gain log records: no frame is dropped, all before the last are unchanged, and the last changes at most in its log list |
| `FlowTrace.StepKeepsTrace` | core/logger.py:137 | the same as `StepsKeepTrace` for one step |
| `FlowTrace.ExecPreservesValid` | core/logger.py:120-125 | in either mode, "no trace exactly when depth is zero" holds after every wrapped call |
| `FlowTrace.NestedCallFrames` | core/logger.py:113-150 | intended: a nested call returns the wrapped result or `None` on failure, restores the depth, writes nothing, keeps the earlier frames up to their log lists, and appends one completed frame per invocation in its call tree, in entry order |
| `FlowTrace.StepsCallFrames` | core/logger.py:137 | intended: a body never raises, and it appends completed frames for its nested calls in entry order |
| `FlowTrace.StepCallFrames` | core/logger.py:137 | the same for one step |
| `FlowTrace.LogAfterNestedCall` | core/logger.py:26-37 | a record logged after a nested call returns goes to the frame of the last invocation entered inside that call, not to the caller's frame; all earlier frames are unchanged |
| `FlowTrace.TreeOutcome` | core/logger.py:172-175 | for a trace of completed frames of a call tree, the status is ERROR exactly when some invocation raised, else SUCCESSFUL |
| `FlowTrace.TopLevelCallWritesOnce` | core/logger.py:113-189 | intended, from idle: the wrapper returns the result or `None`; the context is idle again; exactly one file is written, holding one completed frame per invocation in entry order (the root first), with the flow duration and the name `logs/<root>__<timestamp>_<ERROR or SUCCESSFUL>.json` |
| `FlowTrace.AsWrittenArgumentStrandsContext` | core/logger.py:120-129 | as written, a top-level call with any argument raises TypeError after the trace was started and the depth raised, leaving the context at `([], 1)` with nothing written |
| `FlowTrace.AsWrittenNothingWrittenAfter` | core/logger.py:159-163 | as written, once the context is stranded, the next wrapped call of any kind writes no file |
| `FlowTrace.AsWrittenSuccessRecordedAsError` | core/logger.py:136-146 | as written, a top-level call without arguments whose body only logs and whose function returns normally still returns its value, but its frame and file name say ERROR |
| `FlowTrace.LogsKeepFrames` | core/logger.py:26-37 | a body that only logs, with a non-empty trace active, never raises, writes nothing, keeps the depth and changes no frame except in its log list |
| `FlowTrace.AsWrittenNestedArgumentStrandsContext` | core/logger.py:124-129 | as written, a top-level call without arguments whose body first calls a wrapped function with an argument returns `None`, writes no file and leaves the context active at depth 1 |
| `FlowTrace.Tracer.constructor` | core/logger.py:21-22 | both context variables start at their defaults: no trace, depth 0 |
| `FlowTrace.Tracer.Emit` | core/logger.py:26-37 | updates the context exactly as `EmitOn` says, writes nothing, and keeps the idle/active invariant |
| `FlowTrace.Tracer.Execute` | core/logger.py:113-150 | the state after the call and the result are exactly `Exec`; it keeps the idle/active invariant; intended, from idle it writes exactly one file and returns to idle, and nested it restores the depth and writes nothing |
| `FlowTrace.Tracer.RunBody` | core/logger.py:137 | running the body step by step, stopping at the first exception, is exactly `RunSteps` |
| `FlowTrace.Tracer.HandlePostExecution` | core/logger.py:153-189 | the new state is exactly `PostExecution` of the old |
| `ClassWatch.IgnoredRecordsChangeNothing` | javascript/prompt_history.js:28 | dropping every record that is not a `class` attribute change leaves the final state and the callbacks unchanged |
| `ClassWatch.NoClassChangeNoCallback` | javascript/prompt_history.js:28 | a batch without a `class` attribute change fires nothing and keeps the state |
| `ClassWatch.CallbacksAlternate` | javascript/prompt_history.js:29-37 | callbacks strictly alternate, the first being the opposite of the starting state, and the final state is the starting state flipped once per callback; so the i-th callback is "added" exactly when the state it moves to is true |
| `ClassWatch.FinalStateIsLastReading` | javascript/prompt_history.js:29-31 | after a batch, the state is the reading of its last class-change record, or unchanged if there is none |
| `ClassWatch.OneCallbackPerBatch` | javascript/prompt_history.js:26-41 | if all class changes in a batch read the same state, exactly one callback fires when that state differs from the remembered one and there is a class change; otherwise none fires |
| `ClassWatch.BatchesCompose` | javascript/prompt_history.js:26-41 | two batches in a row have the same effect as their concatenation as one batch |
| `ClassWatch.ClassWatcher.constructor` | javascript/prompt_history.js:8 | `lastClassState` starts as whether the target has the watched class; no callback fired yet |
| `ClassWatch.ClassWatcher.MutationCallback` | javascript/prompt_history.js:26-41 | the loop leaves `lastClassState` and the fired callbacks exactly as `Observe` says |

## Left out

- File I/O in handle_post_execution is not modelled: the `logs` directory check and `mkdir`, opening the file and `json.dumps` (core/logger.py:182-186). A write is an append to `written` and always succeeds. In the source the context is reset only after a successful write, so a failing write would leave the context active. The model does not capture that.
- `contextvars` copy-on-fork and interleaved asyncio tasks are not modelled (core/logger.py:21-22). One sequential logical task is modelled, so the two variables are plain state.
- Clocks and float formatting are not modelled (core/logger.py:118, 131, 155-157, 167, 178). They appear only as opaque strings in `Clock`. `flow_duration` is the finishing invocation's own elapsed time, as in the source.
- `str()` of arbitrary objects, `str(type(e))`, `str(e)` and `traceback.format_exc()` are opaque strings. The model does not express that a non-string scalar's rendering can differ from its value. The two exceptions the tracer itself raises, the `TypeError` of `truncate_value` as written (`IsinstanceError`) and the `IndexError` of `emit` on an empty trace (`IndexErrorExc`), carry an empty traceback in the model. In the source, `traceback.format_exc()` (line 144) is never empty inside an `except`. So the traceback that `AsWrittenSuccessRecordedAsError` states for the ERROR frame is a modelling placeholder; only its type and message are meaningful.
- Dict keys are scalar renderings. A tuple key would truncate to a list and make line 80 raise `TypeError` (unhashable); that case is not modelled. Two distinct keys with the same rendering are merged by `DictInsert`, as the source's dict would merge them.
- Endings by a `BaseException` that is not an `Exception` (cancellation, `KeyboardInterrupt`, `SystemExit`) are not modelled. `Ending` has only a normal return and an `Exception`. In the source, line 140 does not catch such an exception, so the frame keeps no outcome. The `finally` at lines 147-148 still runs `handle_post_execution`. At depth 0 the trace is still written, with status UNKNOWN (line 174) unless another frame failed. The exception then reaches the caller, and enclosing wrapped calls do not catch it either. As a result, no run of `Exec` writes a file with status UNKNOWN, although `FlowOutcome` states when that status arises.
- Exceptions raised inside `truncate_complex` itself (for example by a failing `__str__`) are outside the model.
- `get_logger`, the `RichHandler` console output and `super().emit` (core/logger.py:18, 38, 41-52) are console plumbing and not modelled.
- The `log_output` decorator (core/logger.py:100-110) only forwards to `async_logged_execution`; `Exec` models the call it makes.
- `RecordAt`, `StampElapsed` and `PostExecution` check that the frame index is in range. That check is only for totality: every reachable call site has the index in range.
- lib_history/image_process_hijacker.py is not part of this model. It wraps host APIs with nothing checkable here.
- core/dependencies.py is not part of this model. It only declares settings.
- Two parts of javascript/prompt_history.js are not modelled. The first is the DOM glue: `querySelector`, clicks, `updateInput`, polling, button injection and the registration and disconnection of the `MutationObserver` (lines 13-24, 44-149). The second is `targetNode`: each record carries its own `classList.contains` reading instead.

## Findings

| source | as written | input that shows it | evidently intended | confidence | as-written member | corrected member |
|---|---|---|---|---|---|---|
| core/logger.py:94 | `isinstance(value)` with a single argument raises TypeError on every call, so truncate_value never returns; at line 129 that happens after the trace was started and the depth raised (124-125), outside the `try`, so handle_post_execution is skipped | a top-level wrapped call with any positional or keyword argument: TypeError escapes, the context stays at `([], 1)`, and the next wrapped call writes no trace; also a top-level call without arguments whose body first calls a wrapped function with an argument: it returns None, writes nothing and leaves the depth at 1 (`FlowTrace.AsWrittenNestedArgumentStrandsContext`) | `truncate_complex(value, 1200)[0]`; every top-level call then returns the context to idle and writes one trace | high, not executed | `FlowTrace.AsWrittenArgumentStrandsContext` | `FlowTrace.TopLevelCallWritesOnce` |
| core/logger.py:138 | the result is recorded through the same truncate_value, which raises inside the `try` | a top-level wrapped function without arguments whose body only logs and that returns normally: its frame and the file name say ERROR although the wrapper returns the value | a successful call is recorded as SUCCESSFUL with its truncated result | high, not executed | `FlowTrace.AsWrittenSuccessRecordedAsError` | `FlowTrace.NestedCallFrames` |
