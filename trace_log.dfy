/**
 * The values a line-coverage tracer works with: the events the host runtime
 * delivers to a trace function, and the append-only log of visited
 * (function name, line number) locations that the tracer keeps.
 */
module TraceLog {
  import opened Wrappers

  /** The kinds of event a trace function is called with. */
  datatype EventKind = CallEvent | LineEvent | ReturnEvent | ExceptionEvent | OpcodeEvent

  /** What the tracer reads from an execution frame: its function name and current line. */
  datatype Frame = Frame(funcName: string, lineno: int)

  /** One call of a trace function: the frame, the event and its payload. */
  datatype TraceEvent = TraceEvent(frame: Frame, kind: EventKind, arg: Option<string>)

  /** One log entry: a visited line of a function. */
  datatype Location = Location(funcName: string, lineno: int)

  /** Lines executed inside the scope-exit handler are excluded by this name. */
  const ExitHandlerName: string := "__exit__"

  /** An event leaves an entry in the log: a line event outside the exit handler. */
  predicate IsRecorded(e: TraceEvent)
  {
    e.kind == LineEvent && e.frame.funcName != ExitHandlerName
  }

  function LocationOf(e: TraceEvent): Location
  {
    Location(e.frame.funcName, e.frame.lineno)
  }

  /** The entries one event adds to the log. */
  function Recorded(e: TraceEvent): seq<Location>
  {
    if IsRecorded(e) then [LocationOf(e)] else []
  }

  /** The log that a sequence of events, delivered in order, leaves behind. */
  function RecordedAll(es: seq<TraceEvent>): (r: seq<Location>)
    ensures |r| <= |es|
  {
    if es == [] then [] else RecordedAll(es[..|es| - 1]) + Recorded(es[|es| - 1])
  }

  /** Delivering two runs of events one after the other logs the two logs one after the other. */
  lemma {:induction false} RecordedAllAppend(a: seq<TraceEvent>, b: seq<TraceEvent>)
    ensures RecordedAll(a + b) == RecordedAll(a) + RecordedAll(b)
    decreases |b|
  {
    if b == [] {
      assert a + b == a;
    } else {
      var b' := b[..|b| - 1];
      assert a + b == (a + b') + [b[|b| - 1]];
      assert (a + b)[..|a + b| - 1] == a + b';
      RecordedAllAppend(a, b');
    }
  }

  /**
   * A location is in the log exactly when some delivered event was a line
   * event at that location outside the exit handler.
   */
  lemma {:induction false} RecordedAllMembership(es: seq<TraceEvent>, loc: Location)
    ensures loc in RecordedAll(es) <==>
            exists i :: 0 <= i < |es| && IsRecorded(es[i]) && LocationOf(es[i]) == loc
    decreases |es|
  {
    if es != [] {
      var init := es[..|es| - 1];
      var last := es[|es| - 1];
      RecordedAllMembership(init, loc);
      if loc in RecordedAll(es) {
        if loc in RecordedAll(init) {
          var i :| 0 <= i < |init| && IsRecorded(init[i]) && LocationOf(init[i]) == loc;
          assert es[i] == init[i];
        } else {
          assert IsRecorded(last) && LocationOf(last) == loc;
        }
      } else {
        forall i | 0 <= i < |es| && IsRecorded(es[i])
          ensures LocationOf(es[i]) != loc
        {
          if i < |init| {
            assert es[i] == init[i];
          }
        }
      }
    }
  }

  /** The set view of a log holds no more locations than the log has entries. */
  lemma {:induction false} SetViewBound(log: seq<Location>)
    ensures |set l | l in log| <= |log|
    decreases |log|
  {
    if log != [] {
      var init := log[..|log| - 1];
      SetViewBound(init);
      assert (set l | l in log) == (set l | l in init) + {log[|log| - 1]} by {
        assert log == init + [log[|log| - 1]];
      }
    }
  }
}
