/**
 * The error boundary (`src/components/ErrorBoundary.tsx`): the boundary's
 * state and the transitions React drives (an error thrown below it, "Try
 * Again"), what it renders in each state, the development-mode details, the
 * optional `onError` callback, and the local error log that keeps the ten
 * most recent reports. The console, the page reload and the browser history
 * are outside the model; the clock, the page address and the user agent are
 * parameters.
 */
module ErrorBoundary {
  import opened Wrappers
  import Strings

  /** A thrown `Error`: its message and its optional stack trace. */
  datatype ErrorValue = ErrorValue(message: string, stack: Option<string>)

  /** React's `ErrorInfo`: the stack of components below the boundary. */
  datatype ComponentInfo = ComponentInfo(componentStack: Option<string>)

  datatype BoundaryState = BoundaryState(hasError: bool, error: Option<ErrorValue>, errorInfo: Option<ComponentInfo>)

  /** The state a boundary starts in: no error, nothing recorded. */
  const InitialState: BoundaryState := BoundaryState(false, None, None)

  /** `getDerivedStateFromError`: the error UI is switched on and the error kept; the component stack is not known yet. */
  function DerivedStateFromError(error: ErrorValue): (s: BoundaryState)
    ensures s.hasError && s.error == Some(error) && s.errorInfo.None?
    ensures s != InitialState
  {
    BoundaryState(true, Some(error), None)
  }

  /** What `render` returns: the custom fallback, the built-in error page, or the wrapped children. */
  datatype Rendered<N> = FallbackShown(fallback: N) | DefaultErrorPage | ChildrenShown(children: N)

  /** `render`; a fallback that is absent or falsy is `None`. */
  function Render<N>(s: BoundaryState, fallback: Option<N>, children: N): (r: Rendered<N>)
    ensures r.ChildrenShown? <==> !s.hasError
    ensures r.ChildrenShown? ==> r.children == children
    ensures r.FallbackShown? <==> s.hasError && fallback.Some?
    ensures r.FallbackShown? ==> r.fallback == fallback.value
    ensures r.DefaultErrorPage? <==> s.hasError && fallback.None?
  {
    if s.hasError then
      if fallback.Some? then FallbackShown(fallback.value) else DefaultErrorPage
    else ChildrenShown(children)
  }

  /** The development-mode block of the error page: the message, then each stack that is known and non-empty. */
  datatype Details = Details(message: string, stack: Option<string>, componentStack: Option<string>)

  function DebugDetails(s: BoundaryState, development: bool): (r: Option<Details>)
    ensures r.Some? <==> development && s.error.Some?
    ensures r.Some? ==> r.value.message == s.error.value.message
    ensures r.Some? ==> (r.value.stack.Some? <==> s.error.value.stack.Some? && s.error.value.stack.value != [])
    ensures r.Some? ==> (r.value.componentStack.Some? <==>
      s.errorInfo.Some? && s.errorInfo.value.componentStack.Some? && s.errorInfo.value.componentStack.value != [])
  {
    if development && s.error.Some? then
      Some(Details(s.error.value.message, Strings.Truthy(s.error.value.stack),
                   if s.errorInfo.Some? then Strings.Truthy(s.errorInfo.value.componentStack) else None))
    else None
  }

  // ----- the local error log -------------------------------------------------

  const ErrorLogKey: string := "error_log"
  const MaxLogEntries: nat := 10

  /** One stored report. */
  datatype LogEntry = LogEntry(message: string, stack: Option<string>, componentStack: Option<string>,
                               timestamp: string, url: string, userAgent: string)

  /**
   * The `error_log` slot of the local store, as `JSON.parse` sees it: missing
   * or empty (read as `[]`), text that does not parse to an array (the push
   * throws and the report is dropped), or a list of reports.
   */
  datatype LogSlot = MissingLog | Unreadable | Entries(entries: seq<LogEntry>)

  /** The reports already stored, when the slot can be read. */
  function Prior(slot: LogSlot): (r: Option<seq<LogEntry>>)
    ensures r.None? <==> slot.Unreadable?
    ensures slot.MissingLog? ==> r == Some([])
    ensures slot.Entries? ==> r == Some(slot.entries)
  {
    match slot
    case MissingLog => Some([])
    case Unreadable => None
    case Entries(es) => Some(es)
  }

  /** The last `n` elements of `s`, or all of them when there are fewer. */
  function KeepLast<T>(s: seq<T>, n: nat): (r: seq<T>)
    ensures |r| == if |s| < n then |s| else n
    ensures r == s[|s| - |r|..]
  {
    if |s| > n then s[|s| - n..] else s
  }

  /** Trimming twice is trimming once. */
  lemma KeepLastIdempotent<T>(s: seq<T>, n: nat)
    ensures KeepLast(KeepLast(s, n), n) == KeepLast(s, n)
  {
  }

  /** Trimming before an append loses nothing that trimming after it would keep. */
  lemma KeepLastAppend<T>(s: seq<T>, e: T, n: nat)
    requires n > 0
    ensures KeepLast(KeepLast(s, n) + [e], n) == KeepLast(s + [e], n)
  {
    var a := KeepLast(KeepLast(s, n) + [e], n);
    var b := KeepLast(s + [e], n);
    assert |a| == |b|;
    forall i | 0 <= i < |a| ensures a[i] == b[i] {
      if i == |a| - 1 {
        assert a[i] == e && b[i] == e;
      }
    }
  }

  /**
   * What one write does to a readable log: the new report is last, the log
   * grows by one until it holds ten, and the older reports kept are the
   * newest nine of those before.
   */
  lemma AppendedLog(prior: seq<LogEntry>, e: LogEntry)
    ensures var r := KeepLast(prior + [e], MaxLogEntries);
      |r| == (if |prior| < MaxLogEntries then |prior| + 1 else MaxLogEntries) &&
      r[|r| - 1] == e && r[..|r| - 1] == KeepLast(prior, MaxLogEntries - 1)
  {
    var r := KeepLast(prior + [e], MaxLogEntries);
    var q := KeepLast(prior, MaxLogEntries - 1);
    assert |r[..|r| - 1]| == |q|;
    forall i | 0 <= i < |q| ensures r[i] == q[i] {
      assert r[i] == (prior + [e])[|prior| + 1 - |r| + i];
    }
  }

  /** The report `logErrorToService` builds. */
  function Report(error: ErrorValue, info: ComponentInfo, timestamp: string, url: string, userAgent: string): (e: LogEntry)
    ensures e.message == error.message && e.stack == error.stack && e.componentStack == info.componentStack
    ensures e.timestamp == timestamp && e.url == url && e.userAgent == userAgent
  {
    LogEntry(error.message, error.stack, info.componentStack, timestamp, url, userAgent)
  }

  /** The log as its own history: the last ten of every report appended since it was empty. */
  function History(reports: seq<LogEntry>): (r: seq<LogEntry>)
    ensures |r| == if |reports| < MaxLogEntries then |reports| else MaxLogEntries
    ensures reports != [] ==> r != [] && r[|r| - 1] == reports[|reports| - 1]
  {
    KeepLast(reports, MaxLogEntries)
  }

  /** One more report moves the history on by one report. */
  lemma HistoryStep(reports: seq<LogEntry>, e: LogEntry)
    ensures KeepLast((if reports == [] then [] else History(reports)) + [e], MaxLogEntries) == History(reports + [e])
  {
    if reports == [] {
      assert reports + [e] == [e];
    } else {
      KeepLastAppend(reports, e, MaxLogEntries);
    }
  }

  /** The store after a run of successful writes into an empty slot. */
  function LogAfter(reports: seq<LogEntry>): LogSlot
  {
    if reports == [] then MissingLog else Entries(History(reports))
  }

  /** One more successful write moves the store on by that report. */
  lemma LogAfterStep(reports: seq<LogEntry>, e: LogEntry)
    ensures Prior(LogAfter(reports)).Some?
    ensures Entries(KeepLast(Prior(LogAfter(reports)).value + [e], MaxLogEntries)) == LogAfter(reports + [e])
  {
    HistoryStep(reports, e);
  }

  class Boundary {
    var state: BoundaryState
    /** The local store's `error_log` slot. */
    var log: LogSlot

    constructor (log: LogSlot)
      ensures state == InitialState && this.log == log
    {
      state := InitialState;
      this.log := log;
    }

    /**
     * `logErrorToService`: read the stored list, append the report, drop the
     * oldest beyond ten, write it back. An unreadable slot or a failing write
     * leaves the store as it was.
     */
    method LogErrorToService(error: ErrorValue, info: ComponentInfo, timestamp: string, url: string, userAgent: string,
                             writeFails: bool)
      modifies this`log
      ensures Prior(old(log)).None? || writeFails ==> log == old(log)
      ensures Prior(old(log)).Some? && !writeFails ==>
        log == Entries(KeepLast(Prior(old(log)).value + [Report(error, info, timestamp, url, userAgent)], MaxLogEntries))
    {
      var prior := Prior(log);
      if prior.None? {
        return;
      }
      var errorLog := prior.value;
      errorLog := errorLog + [Report(error, info, timestamp, url, userAgent)];
      if |errorLog| > MaxLogEntries {
        errorLog := errorLog[|errorLog| - MaxLogEntries..];
      }
      if !writeFails {
        log := Entries(errorLog);
      }
    }

    /**
     * `componentDidCatch`: record the error and its component stack, hand both
     * to `onError` when one is given (the call is returned), then log them.
     */
    method ComponentDidCatch(error: ErrorValue, info: ComponentInfo, hasOnError: bool,
                             timestamp: string, url: string, userAgent: string, writeFails: bool)
      returns (onErrorCall: Option<(ErrorValue, ComponentInfo)>)
      modifies this
      ensures state == old(state).(error := Some(error), errorInfo := Some(info))
      ensures onErrorCall.Some? <==> hasOnError
      ensures onErrorCall.Some? ==> onErrorCall.value == (error, info)
      ensures Prior(old(log)).None? || writeFails ==> log == old(log)
      ensures Prior(old(log)).Some? && !writeFails ==>
        log == Entries(KeepLast(Prior(old(log)).value + [Report(error, info, timestamp, url, userAgent)], MaxLogEntries))
    {
      state := state.(error := Some(error), errorInfo := Some(info));
      onErrorCall := if hasOnError then Some((error, info)) else None;
      LogErrorToService(error, info, timestamp, url, userAgent, writeFails);
    }

    /** An error thrown below the boundary: React derives the state, then calls `componentDidCatch`. */
    method Catch(error: ErrorValue, info: ComponentInfo, hasOnError: bool,
                 timestamp: string, url: string, userAgent: string, writeFails: bool)
      returns (onErrorCall: Option<(ErrorValue, ComponentInfo)>)
      modifies this
      ensures state == BoundaryState(true, Some(error), Some(info))
      ensures onErrorCall.Some? <==> hasOnError
      ensures Prior(old(log)).None? || writeFails ==> log == old(log)
      ensures Prior(old(log)).Some? && !writeFails ==>
        log == Entries(KeepLast(Prior(old(log)).value + [Report(error, info, timestamp, url, userAgent)], MaxLogEntries))
    {
      state := DerivedStateFromError(error);
      onErrorCall := ComponentDidCatch(error, info, hasOnError, timestamp, url, userAgent, writeFails);
    }

    /** "Try Again": back to the initial state, so the children are rendered again. */
    method HandleRetry()
      modifies this`state
      ensures state == InitialState
    {
      state := BoundaryState(false, None, None);
    }
  }

  /** After a caught error the page shows the fallback or the error page, and "Try Again" brings the children back. */
  lemma CatchThenRetry<N>(error: ErrorValue, info: ComponentInfo, fallback: Option<N>, children: N)
    ensures !Render(BoundaryState(true, Some(error), Some(info)), fallback, children).ChildrenShown?
    ensures Render(InitialState, fallback, children) == ChildrenShown(children)
  {
  }

  /** The reports of a run of caught errors, one per error, in order. */
  function ReportsOf(errors: seq<(ErrorValue, ComponentInfo)>, timestamp: string, url: string, userAgent: string)
    : (r: seq<LogEntry>)
    ensures |r| == |errors|
    ensures forall k {:trigger r[k]} :: 0 <= k < |errors| ==> r[k] == Report(errors[k].0, errors[k].1, timestamp, url, userAgent)
  {
    if errors == [] then []
    else
      var n := |errors| - 1;
      ReportsOf(errors[..n], timestamp, url, userAgent) + [Report(errors[n].0, errors[n].1, timestamp, url, userAgent)]
  }

  /**
   * Logging a run of reports one at a time into an empty store, with every
   * write succeeding, leaves exactly the last ten of them in order.
   */
  method LogAll(b: Boundary, errors: seq<(ErrorValue, ComponentInfo)>, timestamp: string, url: string, userAgent: string)
    returns (reports: seq<LogEntry>)
    requires b.log == MissingLog
    modifies b
    ensures reports == ReportsOf(errors, timestamp, url, userAgent)
    ensures errors != [] ==> b.log == Entries(History(reports))
    ensures errors == [] ==> b.log == MissingLog
  {
    reports := [];
    var i := 0;
    while i < |errors|
      invariant 0 <= i <= |errors|
      invariant reports == ReportsOf(errors[..i], timestamp, url, userAgent)
      invariant b.log == LogAfter(reports)
    {
      var e := Report(errors[i].0, errors[i].1, timestamp, url, userAgent);
      LogAfterStep(reports, e);
      b.LogErrorToService(errors[i].0, errors[i].1, timestamp, url, userAgent, false);
      assert errors[..i + 1][..i] == errors[..i];
      reports := reports + [e];
      i := i + 1;
    }
    assert errors[..i] == errors;
  }
}
