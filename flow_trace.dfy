/**
 * The call-flow tracer of core/logger.py: async_logged_execution,
 * handle_post_execution and the trace part of FlowTraceHandler.emit.
 *
 * The two context variables become the pair Ctx(trace, depth); a persisted
 * trace file becomes an entry of `written`. One sequential logical task is
 * modelled. A wrapped function is a Call: its body is a sequence of steps
 * (a log record, or a nested wrapped call), run in order, and then it returns
 * a value or raises. Clock readings are opaque strings carried by the Call.
 */
module FlowTrace {
  import opened Wrappers
  import opened Truncation

  datatype Outcome = Successful | Error

  function OutcomeText(o: Outcome): string {
    match o
    case Successful => "SUCCESSFUL"
    case Error => "ERROR"
  }

  /** One entry of a frame's log_messages. */
  datatype LogEntry = LogEntry(message: string, level: string, timestamp: string)

  /** One function_trace dict; a field is None while its key is absent. */
  datatype Frame = Frame(
    name: string,
    args: seq<Truncated>,
    kwargs: seq<(string, Truncated)>,
    timestamp: string,
    outcome: Option<Outcome>,
    returnValue: Option<Truncated>,
    exception: Option<Exc>,
    elapsed: Option<string>,
    logMessages: Option<seq<LogEntry>>)

  /** The two context variables: current_flow_trace and current_flow_depth. */
  datatype Ctx = Ctx(trace: Option<seq<Frame>>, depth: int)

  /** A trace file: its name, flow_duration and the frames it holds. */
  datatype Persisted = Persisted(filename: string, flowDuration: string, frames: seq<Frame>)

  datatype Config = Config(ctx: Ctx, written: seq<Persisted>)

  /** Opaque clock readings of one invocation: the frame timestamp, the
      formatted elapsed time and the timestamp used in the file name. */
  datatype Clock = Clock(entered: string, elapsed: string, finished: string)

  /** How the wrapped function's own code ends once its body has run. */
  datatype Ending = Returns(value: Value) | Raises(exc: Exc)

  datatype Call = Call(
    name: string,
    args: seq<Value>,
    kwargs: seq<(string, Value)>,
    body: seq<Step>,
    ending: Ending,
    clock: Clock)

  datatype Step = Log(entry: LogEntry) | Invoke(call: Call)

  /** What the wrapper gives its caller: a return value (None when the
      wrapped function failed) or an exception it lets escape. */
  datatype Ret = Returned(result: Option<Value>) | Raised(exc: Exc)

  /** What the try/except writes into the frame. */
  datatype Record = Succeeded(returned: Truncated) | Failed(exc: Exc)

  const IndexErrorExc: Exc := Exc("<class 'IndexError'>", "list index out of range", "")

  /** Idle: no active trace and depth zero; otherwise a trace is active and
      the depth is positive. */
  predicate ValidCtx(ctx: Ctx) {
    ctx.depth >= 0 && (ctx.trace.None? <==> ctx.depth == 0)
  }

  // ---------------------------------------------------------------------
  // Frame construction

  /** The positional arguments, each passed through truncate_value in order;
      the first exception escapes. */
  function TruncateArgs(mode: Mode, xs: seq<Value>): (r: Result<seq<Truncated>, Exc>)
    ensures mode == AsWritten && xs != [] ==> r == Err(IsinstanceError)
    ensures mode == AsWritten && xs == [] ==> r == Ok([])
    ensures mode == Intended ==>
      r.Ok? && |r.value| == |xs| &&
      forall i :: 0 <= i < |xs| ==> r.value[i] == IntendedTruncateValue(xs[i])
  {
    if xs == [] then Ok([])
    else match TruncateValue(mode, xs[0])
      case Err(e) => Err(e)
      case Ok(t) =>
        match TruncateArgs(mode, xs[1..])
        case Err(e) => Err(e)
        case Ok(ts) => Ok([t] + ts)
  }

  /** The keyword arguments, each value passed through truncate_value under
      its own key, in order; the first exception escapes. */
  function TruncateKwargs(mode: Mode, kws: seq<(string, Value)>)
    : (r: Result<seq<(string, Truncated)>, Exc>)
    ensures mode == AsWritten && kws != [] ==> r == Err(IsinstanceError)
    ensures mode == AsWritten && kws == [] ==> r == Ok([])
    ensures mode == Intended ==>
      r.Ok? && |r.value| == |kws| &&
      forall i :: 0 <= i < |kws| ==>
        r.value[i] == (kws[i].0, IntendedTruncateValue(kws[i].1))
  {
    if kws == [] then Ok([])
    else match TruncateValue(mode, kws[0].1)
      case Err(e) => Err(e)
      case Ok(t) =>
        match TruncateKwargs(mode, kws[1..])
        case Err(e) => Err(e)
        case Ok(ts) => Ok([(kws[0].0, t)] + ts)
  }

  /** The function_trace dict as first appended: no outcome yet. */
  function BuildFrame(mode: Mode, c: Call): (r: Result<Frame, Exc>)
    ensures r.Ok? ==>
      r.value.name == c.name && r.value.timestamp == c.clock.entered &&
      TruncateArgs(mode, c.args) == Ok(r.value.args) &&
      TruncateKwargs(mode, c.kwargs) == Ok(r.value.kwargs) &&
      r.value.outcome.None? && r.value.returnValue.None? && r.value.exception.None? &&
      r.value.elapsed.None? && r.value.logMessages.None?
    ensures mode == Intended ==> r.Ok?
    ensures mode == AsWritten && (c.args != [] || c.kwargs != []) ==> r == Err(IsinstanceError)
    ensures r.Ok? <==> mode == Intended || (c.args == [] && c.kwargs == [])
  {
    match TruncateArgs(mode, c.args)
    case Err(e) => Err(e)
    case Ok(args) =>
      match TruncateKwargs(mode, c.kwargs)
      case Err(e) => Err(e)
      case Ok(kwargs) => Ok(Frame(c.name, args, kwargs, c.clock.entered, None, None, None, None, None))
  }

  /** The try/except around the call: the value returned to the caller and
      what is recorded. A failure of the body, of the function's own code or
      of truncating its result is recorded as ERROR. */
  function Settle(mode: Mode, ending: Ending, failure: Option<Exc>): (r: (Option<Value>, Record))
    ensures failure.Some? ==> r == (None, Failed(failure.value))
    ensures failure.None? && ending.Raises? ==> r == (None, Failed(ending.exc))
    ensures failure.None? && ending.Returns? ==> r.0 == Some(ending.value)
    ensures mode == Intended && failure.None? && ending.Returns? ==>
      r.1 == Succeeded(IntendedTruncateValue(ending.value))
    ensures mode == AsWritten && failure.None? && ending.Returns? ==>
      r == (Some(ending.value), Failed(IsinstanceError))
  {
    if failure.Some? then (None, Failed(failure.value))
    else match ending
      case Raises(e) => (None, Failed(e))
      case Returns(v) =>
        match TruncateValue(mode, v)
        case Ok(t) => (Some(v), Succeeded(t))
        case Err(e) => (Some(v), Failed(e))
  }

  function Apply(f: Frame, rec: Record): Frame {
    match rec
    case Succeeded(t) => f.(returnValue := Some(t), outcome := Some(Successful))
    case Failed(e) => f.(exception := Some(e), outcome := Some(Error))
  }

  /** Writing the outcome into the frame at position idx of the trace. */
  function RecordAt(trace: Option<seq<Frame>>, idx: nat, rec: Record): Option<seq<Frame>> {
    if trace.Some? && idx < |trace.value| then Some(trace.value[idx := Apply(trace.value[idx], rec)])
    else trace
  }

  function StampElapsed(trace: Option<seq<Frame>>, idx: nat, elapsed: string): Option<seq<Frame>> {
    if trace.Some? && idx < |trace.value| then
      Some(trace.value[idx := trace.value[idx].(elapsed := Some(elapsed))])
    else trace
  }

  // ---------------------------------------------------------------------
  // Aggregate outcome and file name

  /** Whether some frame of the trace has outcome ERROR. */
  function HasError(frames: seq<Frame>): (b: bool)
    ensures b <==> exists i :: 0 <= i < |frames| && frames[i].outcome == Some(Error)
  {
    if frames == [] then false
    else frames[0].outcome == Some(Error) || HasError(frames[1..])
  }

  /** The outcome in the file name: ERROR if any frame failed, else the
      finishing frame's outcome, else UNKNOWN. */
  function FlowOutcome(frames: seq<Frame>, root: Option<Frame>): (s: string)
    ensures s == "ERROR" || s == "SUCCESSFUL" || s == "UNKNOWN"
    ensures (exists i :: 0 <= i < |frames| && frames[i].outcome == Some(Error)) ==> s == "ERROR"
    ensures s == "SUCCESSFUL" ==> root.Some? && root.value.outcome == Some(Successful)
    ensures !HasError(frames) && root.Some? && root.value.outcome == Some(Successful) ==> s == "SUCCESSFUL"
    ensures s == "UNKNOWN" <==> !HasError(frames) && (root.None? || root.value.outcome.None?)
  {
    if HasError(frames) then "ERROR"
    else if root.Some? && root.value.outcome.Some? then OutcomeText(root.value.outcome.value)
    else "UNKNOWN"
  }

  function FlowFilename(name: string, timestamp: string, status: string): string {
    ("logs/" + name + "__" + timestamp) + ("_" + status + ".json")
  }

  predicate EndsWith(s: string, suffix: string) {
    |suffix| <= |s| && s[|s| - |suffix|..] == suffix
  }

  /** Reads the outcome back from a file name's suffix. */
  function StatusOf(filename: string): string {
    if EndsWith(filename, "_ERROR.json") then "ERROR"
    else if EndsWith(filename, "_SUCCESSFUL.json") then "SUCCESSFUL"
    else "UNKNOWN"
  }

  lemma EndsWithTail(stem: string, tail: string)
    ensures EndsWith(stem + tail, tail)
  {
    assert (stem + tail)[|stem|..] == tail;
  }

  /** A name that ends in `tail` cannot end in `other` when the character of
      `tail` at distance |other| from its end differs from other[0]. */
  lemma NotEndsWith(f: string, tail: string, other: string)
    requires EndsWith(f, tail) && 0 < |other| <= |tail|
    requires tail[|tail| - |other|] != other[0]
    ensures !EndsWith(f, other)
  {
    assert f[|f| - |tail|..][|tail| - |other|] == f[|f| - |other|];
  }

  /** The file name determines the aggregate outcome it was built from. */
  lemma StatusRoundTrip(name: string, timestamp: string, status: string)
    requires status == "ERROR" || status == "SUCCESSFUL" || status == "UNKNOWN"
    ensures StatusOf(FlowFilename(name, timestamp, status)) == status
  {
    if status == "ERROR" {
      ErrorSuffixRead(name, timestamp);
    } else if status == "SUCCESSFUL" {
      SuccessfulSuffixRead(name, timestamp);
    } else {
      UnknownSuffixRead(name, timestamp);
    }
  }

  lemma ErrorSuffixRead(name: string, timestamp: string)
    ensures StatusOf(FlowFilename(name, timestamp, "ERROR")) == "ERROR"
  {
    var stem := "logs/" + name + "__" + timestamp;
    assert "_" + "ERROR" + ".json" == "_ERROR.json";
    EndsWithTail(stem, "_ERROR.json");
  }

  lemma SuccessfulSuffixRead(name: string, timestamp: string)
    ensures StatusOf(FlowFilename(name, timestamp, "SUCCESSFUL")) == "SUCCESSFUL"
  {
    var stem := "logs/" + name + "__" + timestamp;
    var f := stem + "_SUCCESSFUL.json";
    assert "_" + "SUCCESSFUL" + ".json" == "_SUCCESSFUL.json";
    EndsWithTail(stem, "_SUCCESSFUL.json");
    NotEndsWith(f, "_SUCCESSFUL.json", "_ERROR.json");
  }

  lemma UnknownSuffixRead(name: string, timestamp: string)
    ensures StatusOf(FlowFilename(name, timestamp, "UNKNOWN")) == "UNKNOWN"
  {
    var stem := "logs/" + name + "__" + timestamp;
    var f := stem + "_UNKNOWN.json";
    assert "_" + "UNKNOWN" + ".json" == "_UNKNOWN.json";
    EndsWithTail(stem, "_UNKNOWN.json");
    NotEndsWith(f, "_UNKNOWN.json", "_ERROR.json");
    if EndsWith(f, "_SUCCESSFUL.json") {
      NotEndsWith(f, "_SUCCESSFUL.json", "_UNKNOWN.json");
    }
  }

  /** handle_post_execution: stamp the elapsed time and decrement depth; on
      reaching depth zero, compute the outcome and file name, write the trace
      and reset the context. */
  function PostExecution(cfg: Config, idx: nat, clock: Clock): (r: Config)
    ensures cfg.ctx.depth != 1 ==> r.written == cfg.written && r.ctx.depth == cfg.ctx.depth - 1
    ensures cfg.ctx.depth != 1 ==> (r.ctx.trace.Some? <==> cfg.ctx.trace.Some?)
    ensures cfg.ctx.depth == 1 ==> r.ctx == Ctx(None, 0) && |r.written| == |cfg.written| + 1
    ensures cfg.ctx.depth == 1 ==> r.written[..|cfg.written|] == cfg.written
    ensures cfg.ctx.depth != 1 ==> r.ctx.trace == StampElapsed(cfg.ctx.trace, idx, clock.elapsed)
    ensures cfg.ctx.depth == 1 && cfg.ctx.trace.Some? && idx < |cfg.ctx.trace.value| ==>
      var frames := StampElapsed(cfg.ctx.trace, idx, clock.elapsed).value;
      r.written == cfg.written +
        [Persisted(FlowFilename(frames[idx].name, clock.finished, FlowOutcome(frames, Some(frames[idx]))),
                   clock.elapsed, frames)]
  {
    var trace := StampElapsed(cfg.ctx.trace, idx, clock.elapsed);
    var depth := cfg.ctx.depth - 1;
    if depth == 0 then
      var frames := if trace.Some? then trace.value else [];
      var root := if idx < |frames| then Some(frames[idx]) else None;
      var status := FlowOutcome(frames, root);
      var name := if root.Some? then root.value.name else "UNKNOWN";
      var file := Persisted(FlowFilename(name, clock.finished, status), clock.elapsed, frames);
      assert (cfg.written + [file])[..|cfg.written|] == cfg.written;
      Config(Ctx(None, 0), cfg.written + [file])
    else
      Config(Ctx(trace, depth), cfg.written)
  }

  // ---------------------------------------------------------------------
  // emit

  /** The trace part of FlowTraceHandler.emit: append to the last frame's
      log_messages, creating the list if absent. An empty active trace makes
      current_flow_trace[-1] raise IndexError. */
  function EmitOn(ctx: Ctx, entry: LogEntry): (r: (Ctx, Option<Exc>))
    ensures ctx.trace.None? ==> r == (ctx, None)
    ensures ctx.trace == Some([]) ==> r == (ctx, Some(IndexErrorExc))
    ensures ctx.trace.Some? && ctx.trace.value != [] ==>
      var t := ctx.trace.value;
      var last := t[|t| - 1];
      r.1.None? && r.0.depth == ctx.depth && r.0.trace.Some? &&
      |r.0.trace.value| == |t| &&
      r.0.trace.value[..|t| - 1] == t[..|t| - 1] &&
      r.0.trace.value[|t| - 1].(logMessages := None) == last.(logMessages := None) &&
      r.0.trace.value[|t| - 1].logMessages ==
        Some((if last.logMessages.Some? then last.logMessages.value else []) + [entry])
  {
    match ctx.trace
    case None => (ctx, None)
    case Some(t) =>
      if t == [] then (ctx, Some(IndexErrorExc))
      else
        var last := t[|t| - 1];
        var logs := if last.logMessages.Some? then last.logMessages.value else [];
        (ctx.(trace := Some(t[|t| - 1 := last.(logMessages := Some(logs + [entry]))])), None)
  }

  // ---------------------------------------------------------------------
  // async_logged_execution

  /** Entering a wrapped call: a trace is started when none is active, and
      the depth goes up by one. */
  function Enter(ctx: Ctx): Ctx {
    Ctx(Some(if ctx.trace.None? then [] else ctx.trace.value), ctx.depth + 1)
  }

  /** One wrapped invocation from configuration cfg. */
  function Exec(mode: Mode, c: Call, cfg: Config): (Config, Ret)
    decreases c
  {
    var entered := Enter(cfg.ctx);
    match BuildFrame(mode, c)
    case Err(e) => (Config(entered, cfg.written), Raised(e))
    case Ok(frame) =>
      var idx := |entered.trace.value|;
      var pushed := Config(Ctx(Some(entered.trace.value + [frame]), entered.depth), cfg.written);
      var ran := RunSteps(mode, c.body, pushed);
      var settled := SettleFrame(mode, c, ran.0, ran.1, idx);
      (PostExecution(settled.0, idx, c.clock), Returned(settled.1))
  }

  /** The try/except/finally up to handle_post_execution: the outcome is
      written into the invocation's frame at position idx. */
  function SettleFrame(mode: Mode, c: Call, ran: Config, failure: Option<Exc>, idx: nat)
    : (Config, Option<Value>)
  {
    var s := Settle(mode, c.ending, failure);
    (Config(ran.ctx.(trace := RecordAt(ran.ctx.trace, idx, s.1)), ran.written), s.0)
  }

  /** The wrapped function's body, stopping at the first exception. */
  function RunSteps(mode: Mode, steps: seq<Step>, cfg: Config): (Config, Option<Exc>)
    decreases steps
  {
    if steps == [] then (cfg, None)
    else
      var first := RunStep(mode, steps[0], cfg);
      if first.1.Some? then first else RunSteps(mode, steps[1..], first.0)
  }

  function RunStep(mode: Mode, s: Step, cfg: Config): (Config, Option<Exc>)
    decreases s
  {
    match s
    case Log(entry) =>
      var e := EmitOn(cfg.ctx, entry);
      (Config(e.0, cfg.written), e.1)
    case Invoke(call) =>
      var r := Exec(mode, call, cfg);
      (r.0, if r.1.Raised? then Some(r.1.exc) else None)
  }

  // ---------------------------------------------------------------------
  // The call tree in entry order

  function Preorder(c: Call): (r: seq<Call>)
    ensures |r| >= 1 && r[0] == c
    decreases c
  {
    [c] + PreorderSteps(c.body)
  }

  function PreorderSteps(steps: seq<Step>): seq<Call>
    decreases steps
  {
    if steps == [] then [] else PreorderStep(steps[0]) + PreorderSteps(steps[1..])
  }

  function PreorderStep(s: Step): seq<Call>
    decreases s
  {
    match s
    case Log(_) => []
    case Invoke(call) => Preorder(call)
  }

  /** Some invocation of the tree raises. */
  predicate AnyRaises(c: Call) {
    exists j :: 0 <= j < |Preorder(c)| && Preorder(c)[j].ending.Raises?
  }

  /** A completed frame of `call` under the intended truncate_value, ignoring
      log_messages: exactly one of return_value and exception is present. */
  predicate Completes(f: Frame, call: Call) {
    f.name == call.name &&
    |f.args| == |call.args| &&
    (forall i :: 0 <= i < |call.args| ==> f.args[i] == IntendedTruncateValue(call.args[i])) &&
    |f.kwargs| == |call.kwargs| &&
    (forall i :: 0 <= i < |call.kwargs| ==>
       f.kwargs[i] == (call.kwargs[i].0, IntendedTruncateValue(call.kwargs[i].1))) &&
    f.timestamp == call.clock.entered &&
    f.elapsed == Some(call.clock.elapsed) &&
    match call.ending
    case Returns(v) =>
      f.outcome == Some(Successful) && f.returnValue == Some(IntendedTruncateValue(v)) && f.exception.None?
    case Raises(e) =>
      f.outcome == Some(Error) && f.exception == Some(e) && f.returnValue.None?
  }

  /** Two frames that differ at most in their log_messages. */
  predicate SameButLogs(f: Frame, g: Frame) {
    f.(logMessages := None) == g.(logMessages := None)
  }

  function WrapperResult(c: Call): Ret {
    Returned(if c.ending.Returns? then Some(c.ending.value) else None)
  }

  // ---------------------------------------------------------------------
  // Lifecycle lemmas, for either reading of truncate_value

  /** t' keeps the frames of t: none is dropped, all but the last are
      unchanged, and the last changes at most in its log list (a record
      logged on t goes there). */
  predicate KeepsFrames(t': seq<Frame>, t: seq<Frame>) {
    |t'| >= |t| &&
    (t != [] ==> t'[..|t| - 1] == t[..|t| - 1] && SameButLogs(t'[|t| - 1], t[|t| - 1]))
  }

  lemma KeepsFramesTrans(t2: seq<Frame>, t1: seq<Frame>, t: seq<Frame>)
    requires KeepsFrames(t1, t) && KeepsFrames(t2, t1)
    ensures KeepsFrames(t2, t)
  {
    if t != [] {
      assert t2[..|t| - 1] == t2[..|t1| - 1][..|t| - 1];
      assert t1[..|t| - 1] == t1[..|t1| - 1][..|t| - 1];
      if |t1| > |t| {
        assert t2[|t| - 1] == t2[..|t1| - 1][|t| - 1];
      }
    }
  }

  /** A call made while a trace is active writes nothing, leaves a trace
      active, keeps every earlier frame exactly as it was and does not
      lower the depth. */
  lemma {:induction false} NestedKeepsTrace(mode: Mode, c: Call, cfg: Config)
    requires cfg.ctx.depth >= 1 && cfg.ctx.trace.Some?
    ensures var next := Exec(mode, c, cfg).0;
            next.written == cfg.written && next.ctx.depth >= cfg.ctx.depth &&
            next.ctx.trace.Some? && |next.ctx.trace.value| >= |cfg.ctx.trace.value| &&
            next.ctx.trace.value[..|cfg.ctx.trace.value|] == cfg.ctx.trace.value
    decreases c, 1
  {
    var t := cfg.ctx.trace.value;
    match BuildFrame(mode, c)
    case Err(e) =>
    case Ok(frame) =>
      var pushed := Config(Ctx(Some(t + [frame]), cfg.ctx.depth + 1), cfg.written);
      StepsKeepTrace(mode, c.body, pushed);
      ExecUnfolds(mode, c, cfg, t);
      var run := RunSteps(mode, c.body, pushed).0.ctx.trace.value;
      assert run[..|t|] == (t + [frame])[..|t|] == t;
  }

  lemma {:induction false} StepsKeepTrace(mode: Mode, steps: seq<Step>, cfg: Config)
    requires cfg.ctx.depth >= 1 && cfg.ctx.trace.Some?
    ensures var next := RunSteps(mode, steps, cfg).0;
            next.written == cfg.written && next.ctx.depth >= cfg.ctx.depth &&
            next.ctx.trace.Some? && KeepsFrames(next.ctx.trace.value, cfg.ctx.trace.value)
    decreases steps
  {
    if steps != [] {
      StepKeepsTrace(mode, steps[0], cfg);
      var first := RunStep(mode, steps[0], cfg);
      if first.1.None? {
        StepsKeepTrace(mode, steps[1..], first.0);
        KeepsFramesTrans(RunSteps(mode, steps[1..], first.0).0.ctx.trace.value,
                         first.0.ctx.trace.value, cfg.ctx.trace.value);
      }
    }
  }

  lemma {:induction false} StepKeepsTrace(mode: Mode, s: Step, cfg: Config)
    requires cfg.ctx.depth >= 1 && cfg.ctx.trace.Some?
    ensures var next := RunStep(mode, s, cfg).0;
            next.written == cfg.written && next.ctx.depth >= cfg.ctx.depth &&
            next.ctx.trace.Some? && KeepsFrames(next.ctx.trace.value, cfg.ctx.trace.value)
    decreases s
  {
    var t := cfg.ctx.trace.value;
    match s
    case Log(_) =>
    case Invoke(call) =>
      NestedKeepsTrace(mode, call, cfg);
      var t' := RunStep(mode, s, cfg).0.ctx.trace.value;
      if t != [] {
        assert t'[..|t| - 1] == t'[..|t|][..|t| - 1];
        assert t'[|t| - 1] == t'[..|t|][|t| - 1];
      }
  }

  /** "No trace iff depth zero" holds after every wrapped call. */
  lemma ExecPreservesValid(mode: Mode, c: Call, cfg: Config)
    requires ValidCtx(cfg.ctx)
    ensures ValidCtx(Exec(mode, c, cfg).0.ctx)
  {
    var entered := Enter(cfg.ctx);
    match BuildFrame(mode, c)
    case Err(e) =>
    case Ok(frame) =>
      var pushed := Config(Ctx(Some(entered.trace.value + [frame]), entered.depth), cfg.written);
      StepsKeepTrace(mode, c.body, pushed);
  }

  // ---------------------------------------------------------------------
  // Lifecycle lemmas under the intended truncate_value

  /** t' is t, changed at most in log messages, followed by one completed
      frame for each of `calls`. */
  predicate Extends(t': seq<Frame>, t: seq<Frame>, calls: seq<Call>) {
    |t'| == |t| + |calls| &&
    (forall i :: 0 <= i < |t| ==> SameButLogs(t'[i], t[i])) &&
    (forall j :: 0 <= j < |calls| ==> Completes(t'[|t| + j], calls[j]))
  }

  /** What a nested call or body leaves unchanged: written files and depth. */
  predicate Nested(next: Config, cfg: Config) {
    next.written == cfg.written && next.ctx.depth == cfg.ctx.depth && next.ctx.trace.Some?
  }

  lemma CompletesIgnoresLogs(f: Frame, g: Frame, call: Call)
    requires SameButLogs(f, g) && Completes(g, call)
    ensures Completes(f, call)
  {
    assert f.name == g.name && f.args == g.args && f.kwargs == g.kwargs && f.timestamp == g.timestamp;
    assert f.elapsed == g.elapsed && f.outcome == g.outcome;
    assert f.returnValue == g.returnValue && f.exception == g.exception;
  }

  lemma ExtendsTrans(t2: seq<Frame>, t1: seq<Frame>, t: seq<Frame>, a: seq<Call>, b: seq<Call>)
    requires Extends(t1, t, a) && Extends(t2, t1, b)
    ensures Extends(t2, t, a + b)
  {
    forall j | 0 <= j < |a + b| ensures Completes(t2[|t| + j], (a + b)[j]) {
      if j < |a| {
        CompletesIgnoresLogs(t2[|t| + j], t1[|t| + j], a[j]);
      } else {
        assert t2[|t| + j] == t2[|t1| + (j - |a|)];
      }
    }
  }

  /** A nested call leaves depth and the written files as they were, appends
      one completed frame per invocation of its tree in entry order, and
      changes earlier frames at most in their log messages. */
  lemma {:induction false} NestedCallFrames(c: Call, cfg: Config)
    requires cfg.ctx.depth >= 1 && cfg.ctx.trace.Some?
    ensures var r := Exec(Intended, c, cfg);
            r.1 == WrapperResult(c) && Nested(r.0, cfg) &&
            Extends(r.0.ctx.trace.value, cfg.ctx.trace.value, Preorder(c))
    decreases c, 1
  {
    var t := cfg.ctx.trace.value;
    var f := BuildFrame(Intended, c).value;
    var pushed := Config(Ctx(Some(t + [f]), cfg.ctx.depth + 1), cfg.written);
    var run := RunSteps(Intended, c.body, pushed);
    var settled := SettleFrame(Intended, c, run.0, run.1, |t|);
    var t4 := BodyThenSettle(c, pushed, |t|);
    ExecUnfolds(Intended, c, cfg, t);
    assert PostExecution(settled.0, |t|, c.clock) == Config(Ctx(Some(t4), cfg.ctx.depth), cfg.written);
    PushedTreeFrames(c, t, f, t + [f], run.0.ctx.trace.value, t4);
  }

  /** A record the caller logs right after a nested call returns goes to the
      frame of the last invocation entered inside that call, which is no
      longer running; all earlier frames, the caller's included, are left
      as they were. */
  lemma LogAfterNestedCall(c: Call, cfg: Config, entry: LogEntry)
    requires cfg.ctx.depth >= 1 && cfg.ctx.trace.Some?
    ensures var next := Exec(Intended, c, cfg).0;
            next.ctx.trace.Some? &&
            LogGoesToLast(EmitOn(next.ctx, entry), next.ctx.trace.value, cfg.ctx.trace.value, Preorder(c), entry)
  {
    NestedCallFrames(c, cfg);
    var next := Exec(Intended, c, cfg).0;
    EmitAfterCalls(next.ctx, cfg.ctx.trace.value, Preorder(c), entry);
  }

  /** r is the result of logging entry on trace t', which holds the frames of
      t followed by those of calls: entry went to the last frame, which is
      the frame of the last call, and every earlier frame is unchanged. */
  predicate LogGoesToLast(r: (Ctx, Option<Exc>), t': seq<Frame>, t: seq<Frame>, calls: seq<Call>, entry: LogEntry) {
    |t'| == |t| + |calls| && calls != [] && r.1.None? && r.0.trace.Some? && |r.0.trace.value| == |t'| &&
    r.0.trace.value[..|t'| - 1] == t'[..|t'| - 1] &&
    Completes(r.0.trace.value[|t'| - 1], calls[|calls| - 1]) &&
    r.0.trace.value[|t'| - 1].logMessages.Some? &&
    var logs := r.0.trace.value[|t'| - 1].logMessages.value;
    |logs| > 0 && logs[|logs| - 1] == entry
  }

  lemma EmitAfterCalls(ctx: Ctx, t: seq<Frame>, calls: seq<Call>, entry: LogEntry)
    requires ctx.trace.Some? && Extends(ctx.trace.value, t, calls) && calls != []
    ensures LogGoesToLast(EmitOn(ctx, entry), ctx.trace.value, t, calls, entry)
  {
    var t' := ctx.trace.value;
    var r := EmitOn(ctx, entry);
    assert Completes(t'[|t| + (|calls| - 1)], calls[|calls| - 1]);
    CompletesIgnoresLogs(r.0.trace.value[|t'| - 1], t'[|t'| - 1], calls[|calls| - 1]);
  }

  /** Putting together the pushed frame, completed, and the frames its body
      appended. */
  lemma PushedTreeFrames(c: Call, t: seq<Frame>, f: Frame, t1: seq<Frame>, t2: seq<Frame>, t4: seq<Frame>)
    requires t1 == t + [f]
    requires Extends(t2, t1, PreorderSteps(c.body))
    requires |t4| == |t2| && Completes(t4[|t|], c)
    requires forall i :: 0 <= i < |t| ==> t4[i] == t2[i]
    requires forall j :: |t| < j < |t4| ==> t4[j] == t2[j]
    ensures Extends(t4, t, Preorder(c))
  {
    var ps := PreorderSteps(c.body);
    assert Preorder(c) == [c] + ps;
    forall j | 0 <= j < |Preorder(c)| ensures Completes(t4[|t| + j], Preorder(c)[j]) {
      if j > 0 {
        assert t4[|t| + j] == t2[|t1| + (j - 1)];
        assert Completes(t2[|t1| + (j - 1)], ps[j - 1]);
        assert Preorder(c)[j] == ps[j - 1];
      }
    }
    forall i | 0 <= i < |t| ensures SameButLogs(t4[i], t[i]) {
      assert t4[i] == t2[i] && t1[i] == t[i];
      assert SameButLogs(t2[i], t1[i]);
    }
  }

  /** The part of an invocation after its frame is pushed (at idx, last), up
      to handle_post_execution's depth test: the body runs and the frame is
      completed. Returns the trace at that point. */
  lemma BodyThenSettle(c: Call, pushed: Config, idx: nat) returns (t4: seq<Frame>)
    requires pushed.ctx.depth >= 1 && pushed.ctx.trace.Some?
    requires |pushed.ctx.trace.value| == idx + 1
    requires pushed.ctx.trace.value[idx] == BuildFrame(Intended, c).value
    ensures var run := RunSteps(Intended, c.body, pushed);
            var settled := SettleFrame(Intended, c, run.0, run.1, idx);
            run.1.None? && settled.1 == WrapperResult(c).result && Nested(settled.0, pushed) &&
            StampElapsed(settled.0.ctx.trace, idx, c.clock.elapsed) == Some(t4) &&
            |t4| == idx + 1 + |PreorderSteps(c.body)| &&
            (forall i :: 0 <= i < idx ==> t4[i] == run.0.ctx.trace.value[i]) &&
            Completes(t4[idx], c) &&
            (forall j :: idx < j < |t4| ==> t4[j] == run.0.ctx.trace.value[j])
    ensures Extends(RunSteps(Intended, c.body, pushed).0.ctx.trace.value, pushed.ctx.trace.value,
                    PreorderSteps(c.body))
    decreases c, 0
  {
    StepsCallFrames(c.body, pushed);
    var ran := RunSteps(Intended, c.body, pushed).0;
    SettleCompletes(c, ran, idx);
    var settled := SettleFrame(Intended, c, ran, None, idx).0;
    t4 := StampElapsed(settled.ctx.trace, idx, c.clock.elapsed).value;
  }

  /** Recording the outcome of a body that did not raise, then stamping the
      elapsed time, completes the invocation's frame and touches no other. */
  lemma SettleCompletes(c: Call, ran: Config, idx: nat)
    requires ran.ctx.trace.Some? && idx < |ran.ctx.trace.value|
    requires SameButLogs(ran.ctx.trace.value[idx], BuildFrame(Intended, c).value)
    ensures var r := SettleFrame(Intended, c, ran, None, idx);
            var settled := r.0;
            var t := ran.ctx.trace.value;
            r.1 == WrapperResult(c).result &&
            settled.written == ran.written && settled.ctx.depth == ran.ctx.depth &&
            settled.ctx.trace.Some? &&
            var t' := StampElapsed(settled.ctx.trace, idx, c.clock.elapsed).value;
            |t'| == |t| && (forall i :: 0 <= i < |t| && i != idx ==> t'[i] == t[i]) &&
            Completes(t'[idx], c)
  {
  }

  lemma {:induction false} StepsCallFrames(steps: seq<Step>, cfg: Config)
    requires cfg.ctx.depth >= 1 && cfg.ctx.trace.Some? && cfg.ctx.trace.value != []
    ensures var r := RunSteps(Intended, steps, cfg);
            var next := r.0;
            r.1.None? && Nested(next, cfg) &&
            Extends(next.ctx.trace.value, cfg.ctx.trace.value, PreorderSteps(steps))
    decreases steps
  {
    if steps != [] {
      StepCallFrames(steps[0], cfg);
      var mid := RunStep(Intended, steps[0], cfg).0;
      StepsCallFrames(steps[1..], mid);
      var next := RunSteps(Intended, steps[1..], mid).0;
      ExtendsTrans(next.ctx.trace.value, mid.ctx.trace.value, cfg.ctx.trace.value,
                   PreorderStep(steps[0]), PreorderSteps(steps[1..]));
    }
  }

  lemma {:induction false} StepCallFrames(s: Step, cfg: Config)
    requires cfg.ctx.depth >= 1 && cfg.ctx.trace.Some? && cfg.ctx.trace.value != []
    ensures var r := RunStep(Intended, s, cfg);
            var next := r.0;
            r.1.None? && Nested(next, cfg) &&
            Extends(next.ctx.trace.value, cfg.ctx.trace.value, PreorderStep(s))
    decreases s
  {
    match s
    case Log(entry) =>
      var t := cfg.ctx.trace.value;
      var t' := EmitOn(cfg.ctx, entry).0.trace.value;
      forall i | 0 <= i < |t| ensures SameButLogs(t'[i], t[i]) {
        if i < |t| - 1 {
          assert t'[i] == t'[..|t| - 1][i];
        }
      }
    case Invoke(call) =>
      NestedCallFrames(call, cfg);
  }

  /** The outermost call: the context returns to idle and exactly one trace
      is written, holding one completed frame per invocation of the tree in
      entry order (so the root's frame first), the root's elapsed time as
      flow_duration, and a file name carrying the root's name and ERROR if
      any invocation failed, SUCCESSFUL otherwise. */
  lemma TopLevelCallWritesOnce(c: Call, cfg: Config)
    requires cfg.ctx == Ctx(None, 0)
    ensures var r := Exec(Intended, c, cfg);
            var next := r.0;
            r.1 == WrapperResult(c) &&
            next.ctx == Ctx(None, 0) &&
            |next.written| == |cfg.written| + 1 && next.written[..|cfg.written|] == cfg.written &&
            var w := next.written[|cfg.written|];
            Extends(w.frames, [], Preorder(c)) &&
            w.flowDuration == c.clock.elapsed &&
            w.filename == FlowFilename(c.name, c.clock.finished,
                                       if AnyRaises(c) then "ERROR" else "SUCCESSFUL")
  {
    var none: seq<Frame> := [];
    var f := BuildFrame(Intended, c).value;
    var pushed := Config(Ctx(Some(none + [f]), 1), cfg.written);
    var run := RunSteps(Intended, c.body, pushed);
    var settled := SettleFrame(Intended, c, run.0, run.1, 0);
    var t4 := BodyThenSettle(c, pushed, 0);
    ExecUnfolds(Intended, c, cfg, none);
    PushedTreeFrames(c, none, f, none + [f], run.0.ctx.trace.value, t4);
    TreeOutcome(t4, c);
  }

  /** Exec once a frame could be built on the trace t: push, run the body,
      settle, post. */
  lemma ExecUnfolds(mode: Mode, c: Call, cfg: Config, t: seq<Frame>)
    requires BuildFrame(mode, c).Ok? && Enter(cfg.ctx).trace == Some(t)
    ensures var pushed := Config(Ctx(Some(t + [BuildFrame(mode, c).value]), cfg.ctx.depth + 1), cfg.written);
            var run := RunSteps(mode, c.body, pushed);
            var settled := SettleFrame(mode, c, run.0, run.1, |t|);
            Exec(mode, c, cfg) == (PostExecution(settled.0, |t|, c.clock), Returned(settled.1))
  {
  }

  /** The aggregate outcome of a trace of completed frames for a call tree. */
  lemma TreeOutcome(frames: seq<Frame>, c: Call)
    requires Extends(frames, [], Preorder(c))
    ensures FlowOutcome(frames, Some(frames[0])) == if AnyRaises(c) then "ERROR" else "SUCCESSFUL"
  {
    if AnyRaises(c) {
      var j :| 0 <= j < |Preorder(c)| && Preorder(c)[j].ending.Raises?;
      assert frames[j].outcome == Some(Error);
    } else {
      assert c.ending.Returns? by { assert Preorder(c)[0] == c; }
      var none: seq<Frame> := [];
      forall j | 0 <= j < |frames| ensures frames[j].outcome != Some(Error) {
        assert frames[|none| + j] == frames[j];
        assert Completes(frames[j], Preorder(c)[j]);
      }
      assert Completes(frames[|none| + 0], Preorder(c)[0]);
    }
  }

  // ---------------------------------------------------------------------
  // truncate_value as written

  /** A top-level call with any argument raises out of the wrapper after the
      trace was created and the depth raised, before any frame is appended:
      the context is left at depth 1 with an empty trace and nothing is written. */
  lemma AsWrittenArgumentStrandsContext(c: Call, cfg: Config)
    requires cfg.ctx == Ctx(None, 0) && (c.args != [] || c.kwargs != [])
    ensures Exec(AsWritten, c, cfg) == (Config(Ctx(Some([]), 1), cfg.written), Raised(IsinstanceError))
  {
  }

  /** Once stranded, the next wrapped call, of whatever kind, writes no file. */
  lemma AsWrittenNothingWrittenAfter(c: Call, d: Call, cfg: Config)
    requires cfg.ctx == Ctx(None, 0) && (c.args != [] || c.kwargs != [])
    ensures var stranded := Exec(AsWritten, c, cfg).0;
            Exec(AsWritten, d, stranded).0.written == cfg.written
  {
    AsWrittenArgumentStrandsContext(c, cfg);
    NestedKeepsTrace(AsWritten, d, Exec(AsWritten, c, cfg).0);
  }

  /** A body that only logs: it calls no wrapped function. */
  predicate OnlyLogs(steps: seq<Step>) {
    forall i :: 0 <= i < |steps| ==> steps[i].Log?
  }

  /** A body that only logs, run with a non-empty trace active, never raises,
      writes nothing, keeps the depth, and changes the frames at most in
      their log lists. */
  lemma {:induction false} LogsKeepFrames(mode: Mode, steps: seq<Step>, cfg: Config)
    requires OnlyLogs(steps) && cfg.ctx.trace.Some? && cfg.ctx.trace.value != []
    ensures var r := RunSteps(mode, steps, cfg);
            var t := cfg.ctx.trace.value;
            r.1.None? && r.0.written == cfg.written && r.0.ctx.depth == cfg.ctx.depth &&
            r.0.ctx.trace.Some? && |r.0.ctx.trace.value| == |t| &&
            forall i :: 0 <= i < |t| ==> SameButLogs(r.0.ctx.trace.value[i], t[i])
    decreases steps
  {
    if steps != [] {
      var t := cfg.ctx.trace.value;
      var mid := RunStep(mode, steps[0], cfg).0;
      var t' := mid.ctx.trace.value;
      forall i | 0 <= i < |t| ensures SameButLogs(t'[i], t[i]) {
        if i < |t| - 1 {
          assert t'[i] == t'[..|t| - 1][i];
        }
      }
      assert OnlyLogs(steps[1..]) by {
        forall i | 0 <= i < |steps[1..]| ensures steps[1..][i].Log? {
          assert steps[1..][i] == steps[i + 1];
        }
      }
      LogsKeepFrames(mode, steps[1..], mid);
    }
  }

  /** A top-level call without arguments whose body only logs and whose
      function returns normally returns its value, yet its frame and file
      name say ERROR: truncating the result raises inside the try. */
  lemma AsWrittenSuccessRecordedAsError(c: Call, cfg: Config)
    requires cfg.ctx == Ctx(None, 0) && c.args == [] && c.kwargs == [] && OnlyLogs(c.body)
    requires c.ending.Returns?
    ensures var r := Exec(AsWritten, c, cfg);
            var next := r.0;
            r.1 == Returned(Some(c.ending.value)) &&
            next.ctx == Ctx(None, 0) && |next.written| == |cfg.written| + 1 &&
            var w := next.written[|cfg.written|];
            |w.frames| == 1 && w.frames[0].outcome == Some(Error) &&
            w.frames[0].exception == Some(IsinstanceError) && w.frames[0].returnValue.None? &&
            w.filename == FlowFilename(c.name, c.clock.finished, "ERROR")
  {
    var none: seq<Frame> := [];
    var frame := BuildFrame(AsWritten, c).value;
    var pushed := Config(Ctx(Some(none + [frame]), 1), cfg.written);
    LogsKeepFrames(AsWritten, c.body, pushed);
    var run := RunSteps(AsWritten, c.body, pushed);
    var settled := SettleFrame(AsWritten, c, run.0, run.1, 0);
    ExecUnfolds(AsWritten, c, cfg, none);
    var t := StampElapsed(settled.0.ctx.trace, 0, c.clock.elapsed).value;
    assert t[0].outcome == Some(Error);
    assert HasError(t);
  }

  /** A top-level call without arguments whose body starts with a wrapped
      call that has an argument: the nested call strands the depth one level
      up, so the outer call records the TypeError, returns None, writes no
      file and leaves the context active at depth 1. */
  lemma AsWrittenNestedArgumentStrandsContext(c: Call, d: Call, cfg: Config)
    requires cfg.ctx == Ctx(None, 0) && c.args == [] && c.kwargs == []
    requires c.body != [] && c.body[0] == Invoke(d) && (d.args != [] || d.kwargs != [])
    ensures var r := Exec(AsWritten, c, cfg);
            r.1 == Returned(None) && r.0.written == cfg.written &&
            r.0.ctx.depth == 1 && r.0.ctx.trace.Some?
  {
    var none: seq<Frame> := [];
    var frame := BuildFrame(AsWritten, c).value;
    var pushed := Config(Ctx(Some(none + [frame]), 1), cfg.written);
    ExecUnfolds(AsWritten, c, cfg, none);
    assert Exec(AsWritten, d, pushed) == (Config(Ctx(pushed.ctx.trace, 2), cfg.written), Raised(IsinstanceError));
    assert RunSteps(AsWritten, c.body, pushed) == RunStep(AsWritten, c.body[0], pushed);
  }

  // ---------------------------------------------------------------------
  // The context variables as mutable state

  /** The two context variables of one logical task, and the trace files
      written so far. `mode` says which truncate_value the wrapper calls. */
  class Tracer {
    const mode: Mode
    var trace: Option<seq<Frame>>
    var depth: int
    ghost var written: seq<Persisted>

    ghost function State(): Config
      reads this
    {
      Config(Ctx(trace, depth), written)
    }

    /** The idle/active invariant: no trace exactly when the depth is zero.
        The constructor establishes it, and Execute and Emit preserve it. */
    ghost predicate Valid()
      reads this
    {
      ValidCtx(Ctx(trace, depth))
    }

    /** Both context variables at their defaults. */
    constructor (mode: Mode)
      ensures this.mode == mode && trace == None && depth == 0 && written == []
      ensures Valid()
    {
      this.mode := mode;
      trace := None;
      depth := 0;
      written := [];
    }

    /** FlowTraceHandler.emit, trace part: the record goes to the last frame
      of the active trace, whichever invocation appended it. */
    method Emit(entry: LogEntry) returns (failure: Option<Exc>)
      modifies this
      ensures (Ctx(trace, depth), failure) == EmitOn(old(Ctx(trace, depth)), entry)
      ensures written == old(written)
      ensures old(Valid()) ==> Valid()
    {
      failure := None;
      if trace.Some? {
        var t := trace.value;
        if t == [] {
          failure := Some(IndexErrorExc);
          return;
        }
        var last := t[|t| - 1];
        var logs := if last.logMessages.Some? then last.logMessages.value else [];
        trace := Some(t[|t| - 1 := last.(logMessages := Some(logs + [entry]))]);
      }
    }

    /** async_logged_execution for the call c. */
    method Execute(c: Call) returns (ret: Ret)
      modifies this
      ensures (State(), ret) == Exec(mode, c, old(State()))
      ensures old(Valid()) ==> Valid()
      ensures mode == Intended && old(trace) == None && old(depth) == 0 ==>
        trace == None && depth == 0 && |written| == |old(written)| + 1 && ret == WrapperResult(c)
      ensures mode == Intended && old(depth) >= 1 && old(trace).Some? ==>
        depth == old(depth) && written == old(written) && ret == WrapperResult(c)
      decreases c, 1
    {
      ghost var start := State();
      if trace.None? {
        trace := Some([]);
      }
      depth := depth + 1;
      var built := BuildFrame(mode, c);
      if built.Err? {
        ret := Raised(built.error);
      } else {
        var idx := |trace.value|;
        trace := Some(trace.value + [built.value]);
        var failure := RunBody(c);
        var (result, rec) := Settle(mode, c.ending, failure);
        trace := RecordAt(trace, idx, rec);
        HandlePostExecution(idx, c.clock);
        ret := Returned(result);
      }
      if start.ctx == Ctx(None, 0) && mode == Intended {
        TopLevelCallWritesOnce(c, start);
      }
      if start.ctx.depth >= 1 && start.ctx.trace.Some? && mode == Intended {
        NestedCallFrames(c, start);
      }
      if ValidCtx(start.ctx) {
        ExecPreservesValid(mode, c, start);
      }
    }

    /** The wrapped function's body: its steps in order, until one raises. */
    method RunBody(c: Call) returns (failure: Option<Exc>)
      modifies this
      ensures (State(), failure) == RunSteps(mode, c.body, old(State()))
      decreases c, 0
    {
      failure := None;
      var i := 0;
      while i < |c.body| && failure.None?
        invariant 0 <= i <= |c.body|
        invariant RunSteps(mode, c.body, old(State())) ==
          if failure.None? then RunSteps(mode, c.body[i..], State()) else (State(), failure)
        decreases |c.body| - i
      {
        assert c.body[i..][0] == c.body[i] && c.body[i..][1..] == c.body[i + 1..];
        assert c.body[i] in c.body;
        match c.body[i] {
          case Log(entry) =>
            failure := Emit(entry);
          case Invoke(child) =>
            var r := Execute(child);
            if r.Raised? {
              failure := Some(r.exc);
            }
        }
        i := i + 1;
      }
      assert failure.None? ==> c.body[i..] == [];
    }

    /** handle_post_execution for the frame at position idx. */
    method HandlePostExecution(idx: nat, clock: Clock)
      modifies this
      ensures State() == PostExecution(old(State()), idx, clock)
    {
      trace := StampElapsed(trace, idx, clock.elapsed);
      depth := depth - 1;
      if depth == 0 {
        var frames := if trace.Some? then trace.value else [];
        var root := if idx < |frames| then Some(frames[idx]) else None;
        var status := FlowOutcome(frames, root);
        var name := if root.Some? then root.value.name else "UNKNOWN";
        written := written + [Persisted(FlowFilename(name, clock.finished, status), clock.elapsed, frames)];
        trace := None;
        depth := 0;
      }
    }
  }
}
