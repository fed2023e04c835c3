/**
 * The `Coverage` tracer: a scoped object that, while entered, is the
 * process-wide trace function, forwards every event to the trace function it
 * displaced, and logs the (function, line) of each line event.
 */
module Tracer {
  import opened Wrappers
  import opened TraceLog

  /**
   * A trace function that is not a `Coverage` tracer. The model observes it
   * only through the events it is called with.
   */
  class Sink {
    var received: seq<TraceEvent>

    constructor ()
      ensures received == []
    {
      received := [];
    }

    /** Called with one event; what it returns is of no use to its caller. */
    method Receive(e: TraceEvent)
      modifies this
      ensures received == old(received) + [e]
    {
      received := received + [e];
    }
  }

  /** What the trace slot can hold: a tracer's bound `traceit`, or a foreign sink. */
  datatype TraceFn = TracerFn(owner: Coverage) | ExternalFn(sink: Sink)

  /** The process-wide slot read by `sys.gettrace` and written by `sys.settrace`. */
  class TraceSlot {
    var current: Option<TraceFn>

    constructor (initial: Option<TraceFn>)
      ensures current == initial
    {
      current := initial;
    }
  }

  /** Exception information handed to `__exit__`; `NoException` is three `None`s. */
  datatype ExcInfo = NoException | Raised(excType: string, message: string)

  /** The tracers reached by following a trace function's chain of captured sinks. */
  ghost function ChainOf(fn: Option<TraceFn>): set<Coverage>
    reads if fn.Some? && fn.value.TracerFn? then {fn.value.owner} else {}
  {
    match fn
    case Some(TracerFn(c)) => c.Chain
    case _ => {}
  }

  /** The foreign sinks reached by following a trace function's chain. */
  ghost function SinksOf(fn: Option<TraceFn>): set<Sink>
    reads if fn.Some? && fn.value.TracerFn? then {fn.value.owner} else {}
  {
    match fn
    case Some(TracerFn(c)) => c.Sinks
    case Some(ExternalFn(s)) => {s}
    case None => {}
  }

  class Coverage {
    /** The log of visited locations, in the order they were visited. */
    var trace: seq<Location>
    /** Whether `__enter__` has run, so that `orig_trace` exists. */
    var entered: bool
    /** The trace function that was installed when this tracer was entered. */
    var origTrace: Option<TraceFn>

    /** This tracer and every tracer its captured trace function chains to. */
    ghost var Chain: set<Coverage>
    /** The foreign sink at the end of that chain, if there is one. */
    ghost var Sinks: set<Sink>

    /**
     * The chain of captured trace functions is finite and acyclic, so that
     * forwarding an event ends; every tracer on it has been entered, and
     * `Chain` and `Sinks` are exactly the tracers and sinks on it.
     */
    ghost predicate Valid()
      reads this, Chain, Sinks
    {
      this in Chain &&
      match origTrace
      case None => Chain == {this} && Sinks == {}
      case Some(ExternalFn(s)) => Chain == {this} && Sinks == {s}
      case Some(TracerFn(c)) =>
        c in Chain && c in c.Chain && Chain == {this} + c.Chain && Sinks == c.Sinks && this !in c.Chain &&
        c.entered && c.Valid()
    }

    /** A new tracer has an empty log. */
    constructor ()
      ensures Valid() && !entered
      ensures trace == []
      ensures Chain == {this} && Sinks == {}
    {
      trace := [];
      entered := false;
      origTrace := None;
      Chain := {this};
      Sinks := {};
    }

    /**
     * The trace function. The captured trace function, if any, is called
     * first with the same frame, event and payload; then a line event outside
     * the exit handler appends its location to the log. Returns this
     * tracer's own trace function, so that the runtime keeps tracing nested
     * frames. Along the whole chain, every tracer logs the event by the same
     * rule and keeps what it captured, and the sink at its end receives the
     * event.
     */
    method Traceit(frame: Frame, event: EventKind, arg: Option<string>) returns (next: TraceFn)
      requires Valid() && entered
      modifies Chain, Sinks
      decreases Chain
      ensures Valid() && entered
      ensures Chain == old(Chain) && Sinks == old(Sinks) && origTrace == old(origTrace)
      ensures trace == old(trace) + Recorded(TraceEvent(frame, event, arg))
      ensures next == TracerFn(this)
      ensures forall c :: c in old(Chain) ==>
                c.trace == old(c.trace) + Recorded(TraceEvent(frame, event, arg)) &&
                c.origTrace == old(c.origTrace) && c.entered == old(c.entered) &&
                c.Chain == old(c.Chain) && c.Sinks == old(c.Sinks)
      ensures forall s :: s in old(Sinks) ==>
                s.received == old(s.received) + [TraceEvent(frame, event, arg)]
    {
      match origTrace {
        case None =>
        case Some(ExternalFn(s)) =>
          s.Receive(TraceEvent(frame, event, arg));
        case Some(TracerFn(c)) =>
          var _ := c.Traceit(frame, event, arg);
      }
      if event == LineEvent {
        var name, num := frame.funcName, frame.lineno;
        if name != ExitHandlerName {
          trace := trace + [Location(name, num)];
        }
      }
      next := TracerFn(this);
    }

    /**
     * `__enter__`: captures the installed trace function and installs this
     * tracer's. The slot must not already lead back to this tracer, or every
     * forwarded event would come back to it.
     */
    method Enter(slot: TraceSlot) returns (self: Coverage)
      requires slot.current.Some? && slot.current.value.TracerFn? ==>
                 slot.current.value.owner.Valid() && slot.current.value.owner.entered &&
                 this !in slot.current.value.owner.Chain
      modifies this, slot
      ensures self == this && Valid() && entered
      ensures origTrace == old(slot.current)
      ensures slot.current == Some(TracerFn(this))
      ensures trace == old(trace)
      ensures Chain == {this} + ChainOf(origTrace) && Sinks == SinksOf(origTrace)
    {
      origTrace := slot.current;
      Chain := {this} + ChainOf(origTrace);
      Sinks := SinksOf(origTrace);
      entered := true;
      slot.current := Some(TracerFn(this));
      self := this;
    }

    /**
     * `__exit__`: puts back the trace function captured by `Enter`, whatever
     * the exception, and does not suppress the exception.
     */
    method Exit(slot: TraceSlot, exc: ExcInfo) returns (suppress: bool)
      requires entered
      modifies slot
      ensures slot.current == origTrace
      ensures !suppress
    {
      slot.current := origTrace;
      suppress := false;
    }

    /**
     * The runtime delivering a run of events, one by one, to this tracer:
     * the log grows by the run's log, and along the chain every tracer logs
     * the run and the sink at its end receives it.
     */
    method TraceAll(body: seq<TraceEvent>)
      requires Valid() && entered
      modifies Chain, Sinks
      ensures Valid() && entered
      ensures Chain == old(Chain) && Sinks == old(Sinks) && origTrace == old(origTrace)
      ensures trace == old(trace) + RecordedAll(body)
      ensures forall c :: c in old(Chain) ==>
                c.trace == old(c.trace) + RecordedAll(body) &&
                c.origTrace == old(c.origTrace) && c.entered == old(c.entered) &&
                c.Chain == old(c.Chain) && c.Sinks == old(c.Sinks)
      ensures forall s :: s in old(Sinks) ==> s.received == old(s.received) + body
      decreases |body|
    {
      if body != [] {
        var init, e := body[..|body| - 1], body[|body| - 1];
        TraceAll(init);
        var _ := Traceit(e.frame, e.kind, e.arg);
        assert body == init + [e];
      }
    }

    /** `coverage()`: the set of logged locations. */
    function CoverageSet(): (r: set<Location>)
      reads this
      ensures forall l :: l in r <==> l in trace
      ensures |r| <= |trace|
    {
      SetViewBound(trace);
      set l | l in trace
    }
  }

  /**
   * A `with Coverage() as cov:` block whose body makes the runtime deliver
   * `body` to the installed trace function; the body may first reinstall
   * `cov`'s own trace function, and it ends with `exc`. Afterwards the slot
   * holds what it held before, the new tracer's log is the log of `body`,
   * and every tracer and sink on the displaced chain has seen every event of
   * `body`, each tracer keeping what it captured.
   */
  method TracedBlock(slot: TraceSlot, body: seq<TraceEvent>, reinstall: bool, exc: ExcInfo)
    returns (cov: Coverage, suppress: bool)
    requires slot.current.Some? && slot.current.value.TracerFn? ==>
               slot.current.value.owner.Valid() && slot.current.value.owner.entered
    modifies slot, ChainOf(slot.current), SinksOf(slot.current)
    ensures fresh(cov) && cov.trace == RecordedAll(body)
    ensures slot.current == old(slot.current)
    ensures !suppress
    ensures slot.current.Some? && slot.current.value.TracerFn? ==>
              slot.current.value.owner.Valid()
    ensures forall c :: c in old(ChainOf(slot.current)) ==>
              c.trace == old(c.trace) + RecordedAll(body) &&
              c.origTrace == old(c.origTrace) && c.entered == old(c.entered) &&
              c.Chain == old(c.Chain) && c.Sinks == old(c.Sinks)
    ensures forall s :: s in old(SinksOf(slot.current)) ==>
              s.received == old(s.received) + body
  {
    cov := EnterNew(slot);
    if reinstall {
      // `old_trace = sys.gettrace()` in `exec_program` only reads the slot back.
      slot.current := Some(TracerFn(cov));
    }
    cov.TraceAll(body);
    suppress := cov.Exit(slot, exc);
  }

  /** `with Coverage() as cov:` up to the body: a new tracer, entered. */
  method EnterNew(slot: TraceSlot) returns (cov: Coverage)
    requires slot.current.Some? && slot.current.value.TracerFn? ==>
               slot.current.value.owner.Valid() && slot.current.value.owner.entered
    modifies slot
    ensures fresh(cov) && cov.Valid() && cov.entered && cov.trace == []
    ensures cov.origTrace == old(slot.current) && slot.current == Some(TracerFn(cov))
    ensures cov.Chain == {cov} + ChainOf(old(slot.current)) && cov.Sinks == SinksOf(old(slot.current))
  {
    cov := new Coverage();
    var _ := cov.Enter(slot);
  }

  /**
   * Two nested `with Coverage()` blocks around one body: both tracers log
   * every line of it, a foreign trace function displaced by the outer one
   * still receives every event, and each exit restores what its enter
   * displaced, so the slot ends as it began.
   */
  method NestedTracedBlocks(slot: TraceSlot, body: seq<TraceEvent>)
    returns (outer: Coverage, inner: Coverage)
    requires slot.current.Some? && slot.current.value.TracerFn? ==>
               slot.current.value.owner.Valid() && slot.current.value.owner.entered
    modifies slot, ChainOf(slot.current), SinksOf(slot.current)
    ensures fresh(outer) && fresh(inner)
    ensures slot.current == old(slot.current)
    ensures outer.trace == RecordedAll(body) && inner.trace == RecordedAll(body)
    ensures forall s :: s in old(SinksOf(slot.current)) ==> s.received == old(s.received) + body
  {
    outer := EnterNew(slot);
    var suppressed;
    inner, suppressed := TracedBlock(slot, body, false, NoException);
    suppressed := outer.Exit(slot, NoException);
  }
}
