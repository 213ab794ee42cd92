/** The reference-counted stopwatch scope. One wrapper is shared by every scope of
    a request: acquiring it counts one more holder and restarts the stopwatch on a
    new step, probing restarts it, and closing stops it, counts one holder less and,
    once no holder is left, logs the stopwatch's summary. */
module StopWatchWrapper {
  import opened Text
  import opened Logging

  /** One call the wrapper makes on its stopwatch. */
  datatype Call = Started(stepName: string) | Stopped

  function CountStarts(calls: seq<Call>): (n: nat)
    ensures n <= |calls|
  {
    if calls == [] then 0
    else CountStarts(calls[..|calls| - 1]) + (if calls[|calls| - 1].Started? then 1 else 0)
  }

  function CountStops(calls: seq<Call>): (n: nat)
    ensures n <= |calls|
  {
    if calls == [] then 0
    else CountStops(calls[..|calls| - 1]) + (if calls[|calls| - 1].Stopped? then 1 else 0)
  }

  /** Counting over a history extended by one call. */
  lemma CountAppend(calls: seq<Call>, c: Call)
    ensures CountStarts(calls + [c]) == CountStarts(calls) + (if c.Started? then 1 else 0)
    ensures CountStops(calls + [c]) == CountStops(calls) + (if c.Stopped? then 1 else 0)
  {
    assert (calls + [c])[..|calls|] == calls;
  }

  // ---------------------------------------------------------------------------
  // The wrapper's state and its transitions

  /** The reference counter, the stopwatch's started flag and call history, and
      the lines written to the wrapper's logger. */
  datatype WatchState = WatchState(counter: int, started: bool, calls: seq<Call>, log: seq<LogLine>)

  /** Every start so far is matched by a stop, except the one still running. */
  predicate Balanced(w: WatchState) {
    CountStarts(w.calls) == CountStops(w.calls) + (if w.started then 1 else 0)
  }

  /** The error reported when more scopes were closed than acquired. */
  function WrongCounterMessage(context: string, counter: int): string {
    "Something wrong with StopWatch!!! Context: " + context + ", counter=" + IntToString(counter)
  }

  /** The summary written once the last holder closes. */
  function SummaryMessage(context: string, summary: string): string {
    context + ": " + summary
  }

  /** Stops the stopwatch when, and only when, it is running. */
  function AfterStopIfStarted(w: WatchState): (r: WatchState)
    ensures !r.started && r.counter == w.counter && r.log == w.log
    ensures w.calls <= r.calls && |r.calls| <= |w.calls| + 1
    ensures CountStarts(r.calls) == CountStarts(w.calls)
    ensures CountStops(r.calls) == CountStops(w.calls) + (if w.started then 1 else 0)
    ensures Balanced(w) ==> Balanced(r)
  {
    CountAppend(w.calls, Stopped);
    if w.started then w.(started := false, calls := w.calls + [Stopped]) else w
  }

  /** Restarts the stopwatch on a new step; the counter and the log stay. */
  function AfterProbe(w: WatchState, stepName: string): (r: WatchState)
    ensures r.started && r.counter == w.counter && r.log == w.log
    ensures w.calls <= r.calls && |r.calls| > 0 && r.calls[|r.calls| - 1] == Started(stepName)
    ensures CountStarts(r.calls) == CountStarts(w.calls) + 1
    ensures CountStops(r.calls) == CountStops(w.calls) + (if w.started then 1 else 0)
    ensures Balanced(w) ==> Balanced(r)
  {
    var s := AfterStopIfStarted(w);
    CountAppend(s.calls, Started(stepName));
    s.(started := true, calls := s.calls + [Started(stepName)])
  }

  /** One more holder, and the stopwatch restarted on the holder's step. */
  function AfterAcquire(w: WatchState, stepName: string): (r: WatchState)
    ensures r.counter == w.counter + 1 && r.started && r.log == w.log
    ensures w.calls <= r.calls && |r.calls| > 0 && r.calls[|r.calls| - 1] == Started(stepName)
    ensures CountStarts(r.calls) == CountStarts(w.calls) + 1
    ensures CountStops(r.calls) == CountStops(w.calls) + (if w.started then 1 else 0)
    ensures Balanced(w) ==> Balanced(r)
  {
    AfterProbe(w.(counter := w.counter + 1), stepName)
  }

  /** One holder less: the stopwatch is stopped; with holders left nothing is
      logged, with none left the summary is logged, and below none an error is
      logged before the summary. `describe` is the stopwatch's own rendering of
      its history. */
  function AfterClose(w: WatchState, context: string, describe: seq<Call> -> string): (r: WatchState)
    ensures r.counter == w.counter - 1 && !r.started
    ensures CountStarts(r.calls) == CountStarts(w.calls)
    ensures CountStops(r.calls) == CountStops(w.calls) + (if w.started then 1 else 0)
    ensures Balanced(w) ==> Balanced(r)
    ensures r.counter > 0 ==> r.log == w.log
    ensures r.counter == 0 ==>
              r.log == w.log + [LogLine(Debug, SummaryMessage(context, describe(r.calls)))]
    ensures r.counter < 0 ==>
              r.log == w.log + [LogLine(Error, WrongCounterMessage(context, r.counter)),
                                LogLine(Debug, SummaryMessage(context, describe(r.calls)))]
  {
    var s := AfterStopIfStarted(w);
    var counter := s.counter - 1;
    var errors := if counter < 0 then [LogLine(Error, WrongCounterMessage(context, counter))] else [];
    var summary := if counter <= 0 then [LogLine(Debug, SummaryMessage(context, describe(s.calls)))] else [];
    s.(counter := counter, log := s.log + errors + summary)
  }

  // ---------------------------------------------------------------------------
  // Nested scopes: acquire, a body of probes and inner scopes, close

  /** What happens inside a scope: a probe on the shared wrapper, or an inner
      scope that acquires and closes the same wrapper. */
  datatype Step = ProbeStep(name: string) | Inner(scope: Scope)

  /** A try-with-resources block around `getStopWatch(name)`. */
  datatype Scope = Scope(name: string, body: seq<Step>)

  /** The wrapper state after the scope closes. */
  function RunScope(w: WatchState, s: Scope, context: string, describe: seq<Call> -> string): WatchState
    decreases s, |s.body| + 1
  {
    AfterClose(RunBody(AfterAcquire(w, s.name), s, 0, context, describe), context, describe)
  }

  /** The wrapper state after the steps of `s.body` from index `i` on. */
  function RunBody(w: WatchState, s: Scope, i: nat, context: string, describe: seq<Call> -> string): WatchState
    requires i <= |s.body|
    decreases s, |s.body| - i
  {
    if i == |s.body| then w
    else
      var next := match s.body[i]
        case ProbeStep(name) => AfterProbe(w, name)
        case Inner(t) => RunScope(w, t, context, describe);
      RunBody(next, s, i + 1, context, describe)
  }

  /** The scopes acquired, this one included. */
  function Acquisitions(s: Scope): nat
    decreases s, |s.body| + 1
  {
    1 + BodyAcquisitions(s, 0)
  }

  function BodyAcquisitions(s: Scope, i: nat): nat
    requires i <= |s.body|
    decreases s, |s.body| - i
  {
    if i == |s.body| then 0
    else (match s.body[i] case ProbeStep(_) => 0 case Inner(t) => Acquisitions(t)) + BodyAcquisitions(s, i + 1)
  }

  /** The probes made, in this scope and in every inner one. */
  function Probes(s: Scope): nat
    decreases s, |s.body| + 1
  {
    BodyProbes(s, 0)
  }

  function BodyProbes(s: Scope, i: nat): nat
    requires i <= |s.body|
    decreases s, |s.body| - i
  {
    if i == |s.body| then 0
    else (match s.body[i] case ProbeStep(_) => 1 case Inner(t) => Probes(t)) + BodyProbes(s, i + 1)
  }

  /** A scope entered with `c >= 0` holders leaves `c` holders and a stopped
      stopwatch, starts it once per acquisition and probe, keeps the history
      balanced, and logs only when it was the outermost holder: then exactly the
      summary, and no error. */
  lemma {:induction false} ScopeEffect(w: WatchState, s: Scope, context: string, describe: seq<Call> -> string)
    requires w.counter >= 0
    ensures var r := RunScope(w, s, context, describe);
      && r.counter == w.counter && !r.started
      && CountStarts(r.calls) == CountStarts(w.calls) + Acquisitions(s) + Probes(s)
      && (Balanced(w) ==> Balanced(r))
      && (w.counter > 0 ==> r.log == w.log)
      && (w.counter == 0 ==> r.log == w.log + [LogLine(Debug, SummaryMessage(context, describe(r.calls)))])
    decreases s, |s.body| + 1
  {
    var a := AfterAcquire(w, s.name);
    BodyEffect(a, s, 0, context, describe);
  }

  /** Inside a scope (at least one holder) the remaining steps keep the counter
      and the log, and start the stopwatch once per acquisition and probe. */
  lemma {:induction false} BodyEffect(w: WatchState, s: Scope, i: nat, context: string, describe: seq<Call> -> string)
    requires i <= |s.body| && w.counter >= 1
    ensures var r := RunBody(w, s, i, context, describe);
      && r.counter == w.counter && r.log == w.log
      && CountStarts(r.calls) == CountStarts(w.calls) + BodyAcquisitions(s, i) + BodyProbes(s, i)
      && (Balanced(w) ==> Balanced(r))
    decreases s, |s.body| - i
  {
    if i < |s.body| {
      match s.body[i]
      case ProbeStep(name) =>
        BodyEffect(AfterProbe(w, name), s, i + 1, context, describe);
      case Inner(t) =>
        ScopeEffect(w, t, context, describe);
        BodyEffect(RunScope(w, t, context, describe), s, i + 1, context, describe);
    }
  }

  /** The wrapper as the factory creates it, over a fresh stopwatch. */
  function FreshState(log: seq<LogLine>): WatchState {
    WatchState(0, false, [], log)
  }

  /** Properly nested usage from a fresh wrapper: exactly one line is logged, the
      summary, on the last close; the counter is back to 0; and the stopwatch was
      started and stopped once per acquisition and probe. */
  lemma NestedScopes(s: Scope, log: seq<LogLine>, context: string, describe: seq<Call> -> string)
    ensures var r := RunScope(FreshState(log), s, context, describe);
      && r.counter == 0 && !r.started
      && r.log == log + [LogLine(Debug, SummaryMessage(context, describe(r.calls)))]
      && CountStarts(r.calls) == Acquisitions(s) + Probes(s)
      && CountStops(r.calls) == Acquisitions(s) + Probes(s)
  {
    ScopeEffect(FreshState(log), s, context, describe);
  }

  // ---------------------------------------------------------------------------
  // The scenarios of the wrapper's unit tests, on a fresh wrapper

  /** An inner scope that probes twice. */
  function InnerWithProbes(): Scope {
    Scope("inner", [ProbeStep("first inner probe"), ProbeStep("second inner probe")])
  }

  /** An inner scope that does not probe. */
  function InnerWithoutProbe(): Scope {
    Scope("inner", [])
  }

  /** An outer scope around `inner`, with or without its own two probes. */
  function Outer(probing: bool, inner: Scope): Scope {
    if probing then Scope("outer", [ProbeStep("first outer probe"), Inner(inner), ProbeStep("second outer probe")])
    else Scope("outer", [Inner(inner)])
  }

  lemma InnerCounts()
    ensures Acquisitions(InnerWithProbes()) == 1 && Probes(InnerWithProbes()) == 2
    ensures Acquisitions(InnerWithoutProbe()) == 1 && Probes(InnerWithoutProbe()) == 0
  {
    var probing := InnerWithProbes();
    assert BodyAcquisitions(probing, 1) == 0 && BodyProbes(probing, 1) == 1;
  }

  lemma OuterCounts(probing: bool, inner: Scope)
    ensures Acquisitions(Outer(probing, inner)) == 1 + Acquisitions(inner)
    ensures Probes(Outer(probing, inner)) == (if probing then 2 else 0) + Probes(inner)
  {
    var o := Outer(probing, inner);
    if probing {
      assert BodyAcquisitions(o, 2) == 0 && BodyProbes(o, 2) == 1;
      assert BodyAcquisitions(o, 1) == Acquisitions(inner) && BodyProbes(o, 1) == 1 + Probes(inner);
    } else {
      assert BodyAcquisitions(o, 1) == 0 && BodyProbes(o, 1) == 0;
    }
  }

  /** Starts and stops of a nested-block scenario: 6 with probes in both
      scopes, 4 with probes in one of them, 2 with none. */
  lemma NestedBlockCounts(outerProbes: bool, innerProbes: bool, log: seq<LogLine>,
                          context: string, describe: seq<Call> -> string)
    ensures var inner := if innerProbes then InnerWithProbes() else InnerWithoutProbe();
      var r := RunScope(FreshState(log), Outer(outerProbes, inner), context, describe);
      var expected := 2 + (if outerProbes then 2 else 0) + (if innerProbes then 2 else 0);
      CountStarts(r.calls) == expected && CountStops(r.calls) == expected
  {
    var inner := if innerProbes then InnerWithProbes() else InnerWithoutProbe();
    InnerCounts();
    OuterCounts(outerProbes, inner);
    NestedScopes(Outer(outerProbes, inner), log, context, describe);
  }

  // ---------------------------------------------------------------------------
  // The objects

  /** The stopwatch the wrapper drives: started by `start`, stopped by `stop`,
      and rendered by its own `describe` of the calls it received. */
  class StopWatch {
    var started: bool
    var calls: seq<Call>
    const describe: seq<Call> -> string

    constructor (describe: seq<Call> -> string)
      ensures !started && calls == [] && this.describe == describe
    {
      started := false;
      calls := [];
      this.describe := describe;
    }

    method Start(stepName: string)
      modifies this
      ensures started && calls == old(calls) + [Started(stepName)]
    {
      started := true;
      calls := calls + [Started(stepName)];
    }

    method Stop()
      modifies this
      ensures !started && calls == old(calls) + [Stopped]
    {
      started := false;
      calls := calls + [Stopped];
    }

    method IsStarted() returns (b: bool)
      ensures b == started
    {
      b := started;
    }
  }

  class LoggingStopWatchWrapper {
    const logger: Logger
    const requestId: string
    const context: string
    const stopWatch: StopWatch
    var referenceCounter: int

    /** The wrapper, its stopwatch and its logger seen as one state. */
    ghost function State(): WatchState
      reads this, stopWatch, logger
    {
      WatchState(referenceCounter, stopWatch.started, stopWatch.calls, logger.lines)
    }

    constructor (logger: Logger, requestId: string, context: string, stopWatch: StopWatch)
      ensures this.logger == logger && this.requestId == requestId
      ensures this.context == context && this.stopWatch == stopWatch
      ensures referenceCounter == 0
    {
      this.logger := logger;
      this.requestId := requestId;
      this.context := context;
      this.stopWatch := stopWatch;
      referenceCounter := 0;
    }

    method IncrementRCAndStart(stepName: string)
      modifies this, stopWatch
      ensures State() == AfterAcquire(old(State()), stepName)
    {
      referenceCounter := referenceCounter + 1;
      Probe(stepName);
    }

    method Probe(stepName: string)
      modifies stopWatch
      ensures State() == AfterProbe(old(State()), stepName)
    {
      StopIfStarted();
      stopWatch.Start(stepName);
    }

    method Close()
      modifies this, stopWatch, logger
      ensures State() == AfterClose(old(State()), context, stopWatch.describe)
    {
      StopIfStarted();
      referenceCounter := referenceCounter - 1;
      var counter := referenceCounter;
      if counter < 0 {
        logger.Log(Error, WrongCounterMessage(context, counter));
      }
      if counter <= 0 {
        logger.Log(Debug, SummaryMessage(context, stopWatch.describe(stopWatch.calls)));
      }
    }

    method StopIfStarted()
      modifies stopWatch
      ensures State() == AfterStopIfStarted(old(State()))
    {
      var running := stopWatch.IsStarted();
      if running {
        stopWatch.Stop();
      }
    }
  }
}
