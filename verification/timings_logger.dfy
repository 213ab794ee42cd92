/** The timed-area / probe logger. A logger counts how deeply nested timed areas are
    entered, collects timestamped probe records, and when the outermost area is left
    renders a header and, when the time tolerance is exceeded or an error was flagged,
    one line per probe. Clock readings are parameters; the static logger is the
    `log` sink. */
module Timings {
  import opened Text
  import opened Logging
  import LogOutput

  /** One probe: its message and the clock reading taken when it was recorded. */
  datatype LogRecord = LogRecord(message: string, timestamp: int)

  /** The outcome of leaving a timed area: `checkState` throws when no area is open. */
  datatype Status = Done | IllegalState

  // ---------------------------------------------------------------------------
  // Messages

  /** The record message for an event that has a configured delay. */
  function DelayMessage(event: string, delay: int): string
  {
    "Pausing before event " + event + " for " + IntToString(delay) + " millis"
  }

  /** The message `probe` records: the event name, or the pause notice when the
      event has a configured delay. */
  function RecordMessage(event: string, probeDelays: map<string, int>): string
  {
    if event in probeDelays then DelayMessage(event, probeDelays[event]) else event
  }

  /** `probeMessage`: the rendered line for one record, `'name'=+took`. */
  function ProbeMessage(elapsed: int, name: string): string
  {
    "'" + name + "'=+" + IntToString(elapsed)
  }

  // ---------------------------------------------------------------------------
  // The header

  function ContextPart(context: string): string
  {
    if IsNotBlank(context) then "Context : " + context + " ; " else ""
  }

  function TolerancePart(threshold: int, timeSpent: int): string
  {
    if timeSpent > threshold && threshold > 0 then IntToString(threshold) + "ms tolerance exceeded, " else ""
  }

  function TotalPart(timeSpent: int): string
  {
    "total time " + IntToString(timeSpent) + " ms"
  }

  /** The total-time message built before anything is logged. */
  function Header(context: string, threshold: int, timeSpent: int): string
  {
    ContextPart(context) + TolerancePart(threshold, timeSpent) + TotalPart(timeSpent)
  }

  /** Prefixes of a three-part concatenation. */
  lemma ThreeParts(a: string, b: string, c: string)
    ensures a <= a + b + c && a + b <= a + b + c
    ensures a == [] ==> a + b + c == b + c
    ensures b == [] ==> a + b + c == a + c
  {
    assert (a + b + c)[..|a|] == a;
    assert (a + b + c)[..|a + b|] == a + b;
  }

  lemma FirstCharacterMismatch(a: string, b: string)
    requires |a| > 0 && |b| > 0 && a[0] != b[0]
    ensures !(a <= b)
  {
  }

  /** The first character of a header without a context label is a digit of the
      threshold or the `t` of "total time". */
  lemma UnlabelledHeaderStart(threshold: int, timeSpent: int)
    ensures var h := TolerancePart(threshold, timeSpent) + TotalPart(timeSpent);
      |h| > 0 && (IsDigit(h[0]) || h[0] == 't')
  {
    var tail := TotalPart(timeSpent);
    assert tail[0] == 't';
    if timeSpent > threshold && threshold > 0 {
      var t := IntToString(threshold);
      assert (TolerancePart(threshold, timeSpent) + tail)[0] == t[0];
    }
  }

  /** The header opens with the context label exactly when the context is not blank. */
  lemma HeaderContextPrefix(context: string, threshold: int, timeSpent: int)
    ensures ("Context : " + context + " ; " <= Header(context, threshold, timeSpent)) <==> IsNotBlank(context)
  {
    var p, tol, tot := ContextPart(context), TolerancePart(threshold, timeSpent), TotalPart(timeSpent);
    ThreeParts(p, tol, tot);
    if IsNotBlank(context) {
      assert p == "Context : " + context + " ; ";
    } else {
      UnlabelledHeaderStart(threshold, timeSpent);
      FirstCharacterMismatch("Context : " + context + " ; ", tol + tot);
    }
  }

  /** The header always ends with the total time spent. */
  lemma HeaderEndsWithTotal(context: string, threshold: int, timeSpent: int)
    ensures var h, tail := Header(context, threshold, timeSpent), "total time " + IntToString(timeSpent) + " ms";
      |tail| <= |h| && h[|h| - |tail|..] == tail
  {
  }

  /** Between the context label and the total time, the header holds the tolerance
      notice when the time spent exceeds a positive threshold, and nothing otherwise. */
  lemma HeaderTolerance(context: string, threshold: int, timeSpent: int)
    ensures var h, p := Header(context, threshold, timeSpent), ContextPart(context);
      var notice := IntToString(threshold) + "ms tolerance exceeded, ";
      && p <= h
      && (timeSpent > threshold && threshold > 0 ==> p + notice <= h)
      && (!(timeSpent > threshold && threshold > 0) ==> h == p + TotalPart(timeSpent))
  {
    ThreeParts(ContextPart(context), TolerancePart(threshold, timeSpent), TotalPart(timeSpent));
  }

  // ---------------------------------------------------------------------------
  // Deltas between records

  /** How long after record `idx` the next one (or the end of the area) came. */
  function Took(records: seq<LogRecord>, endTime: int, idx: nat): int
    requires idx < |records|
  {
    var next := if idx + 1 == |records| then endTime else records[idx + 1].timestamp;
    next - records[idx].timestamp
  }

  function Deltas(records: seq<LogRecord>, endTime: int): seq<int>
  {
    seq(|records|, i requires 0 <= i < |records| => Took(records, endTime, i))
  }

  function Sum(xs: seq<int>): int
  {
    if xs == [] then 0 else xs[0] + Sum(xs[1..])
  }

  /** The deltas telescope: together they span from the first record to the end. */
  lemma {:induction false} DeltasSum(records: seq<LogRecord>, endTime: int)
    requires |records| > 0
    ensures Sum(Deltas(records, endTime)) == endTime - records[0].timestamp
    decreases |records|
  {
    var d := Deltas(records, endTime);
    if |records| > 1 {
      assert d[1..] == Deltas(records[1..], endTime);
      DeltasSum(records[1..], endTime);
    }
  }

  predicate NonDecreasing(records: seq<LogRecord>, endTime: int)
  {
    && (forall i :: 0 <= i < |records| - 1 ==> records[i].timestamp <= records[i + 1].timestamp)
    && (|records| > 0 ==> records[|records| - 1].timestamp <= endTime)
  }

  /** With a clock that never goes back, no delta is negative. */
  lemma DeltasNonNegative(records: seq<LogRecord>, endTime: int)
    requires NonDecreasing(records, endTime)
    ensures forall i :: 0 <= i < |records| ==> Deltas(records, endTime)[i] >= 0
  {
  }

  /** The rendered probe lines, one per record, in record order. */
  function ProbeMessages(records: seq<LogRecord>, endTime: int): seq<string>
    decreases |records|
  {
    if records == [] then []
    else [ProbeMessage(Took(records, endTime, 0), records[0].message)] + ProbeMessages(records[1..], endTime)
  }

  lemma {:induction false} ProbeMessagesLength(records: seq<LogRecord>, endTime: int)
    ensures |ProbeMessages(records, endTime)| == |records|
    decreases |records|
  {
    if records != [] {
      ProbeMessagesLength(records[1..], endTime);
    }
  }

  /** The probe line of record `i` carries its message and the time to the next
      record, or to the end of the area for the last record. */
  lemma {:induction false} ProbeMessageAt(records: seq<LogRecord>, endTime: int, i: nat)
    requires i < |records|
    ensures |ProbeMessages(records, endTime)| == |records|
    ensures ProbeMessages(records, endTime)[i] == ProbeMessage(Took(records, endTime, i), records[i].message)
    decreases i
  {
    ProbeMessagesLength(records, endTime);
    if i > 0 {
      ProbeMessageAt(records[1..], endTime, i - 1);
      assert Took(records[1..], endTime, i - 1) == Took(records, endTime, i);
    }
  }

  /** The same, read off a message list that starts with the header. */
  lemma ProbeMessageIn(records: seq<LogRecord>, endTime: int, messages: seq<string>, i: nat, took: int)
    requires |messages| >= 1 && messages[1..] == ProbeMessages(records, endTime)
    requires i < |records|
    requires took == (if i + 1 == |records| then endTime else records[i + 1].timestamp) - records[i].timestamp
    ensures |messages| == |records| + 1
    ensures messages[i + 1] == ProbeMessage(took, records[i].message)
  {
    ProbeMessageAt(records, endTime, i);
    assert messages[i + 1] == messages[1..][i];
  }

  // ---------------------------------------------------------------------------
  // Rendering

  /** Whether the probes are listed: an error was flagged or the tolerance exceeded. */
  predicate LogsProbes(errorState: bool, threshold: int, timeSpent: int)
  {
    errorState || timeSpent > threshold
  }

  function ProbeLevel(errorState: bool): Level
  {
    if errorState then Error else Warn
  }

  /** Everything `outputLoggedTimings` writes to the log. */
  function RenderLines(context: string, threshold: int, prototypes: seq<LogOutput.Prototype>,
                       startTime: int, endTime: int, errorState: bool, records: seq<LogRecord>): seq<LogLine>
  {
    var timeSpent := endTime - startTime;
    var header := Header(context, threshold, timeSpent);
    if !LogsProbes(errorState, threshold, timeSpent) then [LogLine(Debug, header)]
    else LogOutput.Emitted(prototypes, ProbeLevel(errorState), context, [header] + ProbeMessages(records, endTime))
  }

  lemma ConsParts(first: string, rest: seq<string>)
    ensures |[first] + rest| == |rest| + 1
    ensures ([first] + rest)[0] == first && ([first] + rest)[1..] == rest
  {
  }

  /** When probes are not listed, the header is the only line, at DEBUG. */
  lemma RenderWithinTolerance(context: string, threshold: int, prototypes: seq<LogOutput.Prototype>,
                              startTime: int, endTime: int, errorState: bool, records: seq<LogRecord>,
                              timeSpent: int)
    requires timeSpent == endTime - startTime
    requires !LogsProbes(errorState, threshold, timeSpent)
    ensures RenderLines(context, threshold, prototypes, startTime, endTime, errorState, records)
         == [LogLine(Debug, Header(context, threshold, timeSpent))]
  {
  }

  /** When probes are listed, the lines are those the outputs write, at ERROR or
      WARN, for the header followed by the probe lines. */
  lemma RenderProbes(context: string, threshold: int, prototypes: seq<LogOutput.Prototype>,
                     startTime: int, endTime: int, errorState: bool, records: seq<LogRecord>)
    requires LogsProbes(errorState, threshold, endTime - startTime)
    ensures RenderLines(context, threshold, prototypes, startTime, endTime, errorState, records)
         == LogOutput.Emitted(prototypes, ProbeLevel(errorState), context,
                              [Header(context, threshold, endTime - startTime)] + ProbeMessages(records, endTime))
  {
  }

  /** `RenderProbes` for a caller that has the time spent, the level and the
      messages at hand. */
  lemma RenderThroughOutputs(context: string, threshold: int, prototypes: seq<LogOutput.Prototype>,
                             startTime: int, endTime: int, errorState: bool, records: seq<LogRecord>,
                             timeSpent: int, level: Level, messages: seq<string>)
    requires timeSpent == endTime - startTime
    requires LogsProbes(errorState, threshold, timeSpent)
    requires level == ProbeLevel(errorState)
    requires messages == [Header(context, threshold, timeSpent)] + ProbeMessages(records, endTime)
    ensures RenderLines(context, threshold, prototypes, startTime, endTime, errorState, records)
         == LogOutput.Emitted(prototypes, level, context, messages)
  {
    assert Header(context, threshold, endTime - startTime) == Header(context, threshold, timeSpent);
    RenderProbes(context, threshold, prototypes, startTime, endTime, errorState, records);
  }

  /** Once the error flag is set, every line is written at ERROR, whatever the time. */
  lemma RenderErrorLevel(context: string, threshold: int, prototypes: seq<LogOutput.Prototype>,
                         startTime: int, endTime: int, records: seq<LogRecord>)
    ensures LogOutput.SameLevel(RenderLines(context, threshold, prototypes, startTime, endTime, true, records), Error)
  {
    var messages := [Header(context, threshold, endTime - startTime)] + ProbeMessages(records, endTime);
    RenderThroughOutputs(context, threshold, prototypes, startTime, endTime, true, records, endTime - startTime,
                         Error, messages);
    LogOutput.EmittedLevel(prototypes, Error, context, messages);
  }

  /** Without an error but over the tolerance, every line is written at WARN. */
  lemma RenderExceededLevel(context: string, threshold: int, prototypes: seq<LogOutput.Prototype>,
                            startTime: int, endTime: int, records: seq<LogRecord>)
    requires endTime - startTime > threshold
    ensures LogOutput.SameLevel(RenderLines(context, threshold, prototypes, startTime, endTime, false, records), Warn)
  {
    var messages := [Header(context, threshold, endTime - startTime)] + ProbeMessages(records, endTime);
    RenderThroughOutputs(context, threshold, prototypes, startTime, endTime, false, records, endTime - startTime,
                         Warn, messages);
    LogOutput.EmittedLevel(prototypes, Warn, context, messages);
  }

  /** When probes are listed, every multi-string output writes one line for the
      header and one per record, and every one-string output writes one line. */
  lemma RenderCount(context: string, threshold: int, prototypes: seq<LogOutput.Prototype>,
                    startTime: int, endTime: int, errorState: bool, records: seq<LogRecord>)
    requires LogsProbes(errorState, threshold, endTime - startTime)
    ensures |RenderLines(context, threshold, prototypes, startTime, endTime, errorState, records)|
         == LogOutput.LinesFor(prototypes, |records| + 1)
  {
    RenderProbes(context, threshold, prototypes, startTime, endTime, errorState, records);
    ProbeMessagesLength(records, endTime);
    LogOutput.EmittedLines(prototypes, ProbeLevel(errorState), context, Header(context, threshold, endTime - startTime),
                           ProbeMessages(records, endTime), |records| + 1);
  }

  /** With the default multi-string output, the header line comes first and then one
      `'name'=+took` line per record, in record order, where `took` runs to the next
      record's timestamp (or to the end time for the last one). */
  lemma RenderDefaultPrototype(context: string, threshold: int, startTime: int, endTime: int,
                               errorState: bool, records: seq<LogRecord>)
    requires LogsProbes(errorState, threshold, endTime - startTime)
    ensures var lines := RenderLines(context, threshold, [LogOutput.MultipleString], startTime, endTime, errorState, records);
      var level, prefix := ProbeLevel(errorState), LogOutput.ContextPrefix(context);
      && |lines| == |records| + 1
      && lines[0] == LogLine(level, prefix + Header(context, threshold, endTime - startTime))
      && forall i :: 0 <= i < |records| ==>
           lines[i + 1] == LogLine(level, prefix + ProbeMessage(Took(records, endTime, i), records[i].message))
  {
    var level := ProbeLevel(errorState);
    var header := Header(context, threshold, endTime - startTime);
    RenderProbes(context, threshold, [LogOutput.MultipleString], startTime, endTime, errorState, records);
    LogOutput.EmittedMultipleStringCons(level, context, header, ProbeMessages(records, endTime));
    ProbeMessagesLength(records, endTime);
    forall i | 0 <= i < |records|
      ensures ProbeMessages(records, endTime)[i] == ProbeMessage(Took(records, endTime, i), records[i].message)
    {
      ProbeMessageAt(records, endTime, i);
    }
  }


  /** With the one-string output, a single line holds the header and every probe
      line, in record order, each followed by "; ". */
  lemma RenderOneString(context: string, threshold: int, startTime: int, endTime: int,
                        errorState: bool, records: seq<LogRecord>)
    requires LogsProbes(errorState, threshold, endTime - startTime)
    ensures RenderLines(context, threshold, [LogOutput.OneString], startTime, endTime, errorState, records)
         == [LogLine(ProbeLevel(errorState),
                     Header(context, threshold, endTime - startTime) + "; "
                     + LogOutput.Joined(ProbeMessages(records, endTime)))]
  {
    RenderProbes(context, threshold, [LogOutput.OneString], startTime, endTime, errorState, records);
    LogOutput.EmittedOneStringCons(ProbeLevel(errorState), context, Header(context, threshold, endTime - startTime),
                                   ProbeMessages(records, endTime));
  }

  // ---------------------------------------------------------------------------
  // The logger object

  class TimingsLogger {
    const probeDelays: map<string, int>
    const totalTimeThreshold: int
    const timingsContext: string
    const requestId: string
    const prototypes: seq<LogOutput.Prototype>
    /** The static `LOG` of the class, injected. */
    const log: Logger

    var logRecords: seq<LogRecord>
    var timedAreasCount: nat
    var errorState: bool
    var startTime: int

    constructor (context: string, requestId: string, probeDelays: map<string, int>,
                 totalTimeThreshold: int, prototypes: seq<LogOutput.Prototype>, log: Logger)
      ensures timingsContext == context && this.requestId == requestId
      ensures this.probeDelays == probeDelays && this.totalTimeThreshold == totalTimeThreshold
      ensures this.prototypes == prototypes && this.log == log
      ensures logRecords == [] && timedAreasCount == 0 && !errorState && startTime == 0
    {
      timingsContext := context;
      this.requestId := requestId;
      this.probeDelays := probeDelays;
      this.totalTimeThreshold := totalTimeThreshold;
      this.prototypes := prototypes;
      this.log := log;
      logRecords := [];
      timedAreasCount := 0;
      errorState := false;
      startTime := 0;
    }

    /** Opens one more timed area; the clock is read into `startTime` only while
        `startTime` still holds the unset value 0. */
    method EnterTimedArea(now: int)
      modifies this`timedAreasCount, this`startTime
      ensures timedAreasCount == old(timedAreasCount) + 1
      ensures startTime == if old(startTime) == 0 then now else old(startTime)
    {
      if startTime == 0 {
        startTime := now;
      }
      timedAreasCount := timedAreasCount + 1;
    }

    /** Closes one timed area and renders when the last one is closed. With no area
        open it fails and changes nothing. */
    method LeaveTimedArea(now: int) returns (status: Status)
      modifies this`timedAreasCount, log
      ensures old(timedAreasCount) == 0 <==> status == IllegalState
      ensures status == IllegalState ==> timedAreasCount == 0 && log.lines == old(log.lines)
      ensures status == Done ==> timedAreasCount == old(timedAreasCount) - 1
      ensures status == Done && timedAreasCount > 0 ==> log.lines == old(log.lines)
      ensures status == Done && timedAreasCount == 0 ==>
                log.lines == old(log.lines)
                  + RenderLines(timingsContext, totalTimeThreshold, prototypes, startTime, now, errorState, logRecords)
    {
      if timedAreasCount < 1 {
        return IllegalState;
      }
      timedAreasCount := timedAreasCount - 1;
      if timedAreasCount == 0 {
        OutputLoggedTimings(now);
      }
      status := Done;
    }

    /** Flags the error state; it is never cleared. */
    method SetErrorState()
      modifies this`errorState
      ensures errorState
    {
      errorState := true;
    }

    /** Records a probe at the current time. An event with a configured delay records
        the pause notice, read from the clock before the (unmodelled) sleep. */
    method Probe(event: string, now: int)
      modifies this`logRecords
      ensures logRecords == old(logRecords) + [LogRecord(RecordMessage(event, probeDelays), now)]
      ensures event !in probeDelays ==> logRecords[|logRecords| - 1].message == event
      ensures event in probeDelays ==>
                logRecords[|logRecords| - 1].message == DelayMessage(event, probeDelays[event])
    {
      if event !in probeDelays {
        AddLogRecord(event, now);
      } else {
        AddLogRecord(DelayMessage(event, probeDelays[event]), now);
      }
    }

    method AddLogRecord(message: string, now: int)
      modifies this`logRecords
      ensures logRecords == old(logRecords) + [LogRecord(message, now)]
    {
      logRecords := logRecords + [LogRecord(message, now)];
    }

    /** Writes the header at DEBUG, or the header and one line per record through one
        output per prototype, at ERROR or WARN. */
    method OutputLoggedTimings(endTime: int)
      modifies log
      ensures log.lines == old(log.lines)
        + RenderLines(timingsContext, totalTimeThreshold, prototypes, startTime, endTime, errorState, logRecords)
    {
      var timeSpent := endTime - startTime;
      var exceeded := timeSpent > totalTimeThreshold;
      var logProbes := errorState || exceeded;
      var totalTimeMessage := Header(timingsContext, totalTimeThreshold, timeSpent);
      if !logProbes {
        log.Log(Debug, totalTimeMessage);
        RenderWithinTolerance(timingsContext, totalTimeThreshold, prototypes, startTime, endTime, errorState, logRecords,
                              timeSpent);
        return;
      }
      var level := if errorState then Error else Warn;
      ghost var messages := [totalTimeMessage] + ProbeMessages(logRecords, endTime);
      ConsParts(totalTimeMessage, ProbeMessages(logRecords, endTime));
      ListProbes(level, totalTimeMessage, endTime, messages);
      RenderThroughOutputs(timingsContext, totalTimeThreshold, prototypes, startTime, endTime, errorState, logRecords,
                           timeSpent, level, messages);
    }

    /** The listing branch of `outputLoggedTimings`: fresh outputs at `level` receive
        the header and then every probe line, and are dumped. */
    method ListProbes(level: Level, header: string, endTime: int, ghost messages: seq<string>)
      requires |messages| >= 1 && messages[0] == header && messages[1..] == ProbeMessages(logRecords, endTime)
      modifies log
      ensures log.lines == old(log.lines) + LogOutput.Emitted(prototypes, level, timingsContext, messages)
    {
      var outputs := LogOutput.Make(log, level, timingsContext, prototypes);
      ghost var start := LogOutput.Fresh(prototypes, level, timingsContext);
      LogOutput.CollectFirst(header, outputs, log, start, messages);
      CollectRecordLines(outputs, endTime, start, messages, old(log.lines));
      ghost var collected := log.lines;
      LogOutput.Dump(outputs, log);
      LogOutput.EmittedAfter(prototypes, level, timingsContext, messages, old(log.lines), collected, log.lines);
    }

    /** The record loop of `outputLoggedTimings`: each record's probe line, with the
        delta to the next record (or to `endTime` for the last), is collected into
        every output, in record order, after the header. */
    method CollectRecordLines(outputs: array<LogOutput.Output>, endTime: int,
                              ghost start: seq<LogOutput.OutputView>, ghost messages: seq<string>,
                              ghost base: seq<LogLine>)
      requires |messages| >= 1 && messages[1..] == ProbeMessages(logRecords, endTime)
      requires LogOutput.Distinct(outputs[..])
      requires forall i :: 0 <= i < outputs.Length ==> outputs[i].logger == log
      requires LogOutput.Views(outputs[..]) == LogOutput.CollectMany(start, messages[..1])
      requires log.lines == base + LogOutput.CollectManyEmits(start, messages[..1])
      modifies set i | 0 <= i < outputs.Length :: outputs[i]
      modifies log
      ensures LogOutput.Views(outputs[..]) == LogOutput.CollectMany(start, messages)
      ensures log.lines == base + LogOutput.CollectManyEmits(start, messages)
    {
      ProbeMessagesLength(logRecords, endTime);
      var totalRecords := |logRecords|;
      for idx := 0 to totalRecords
        invariant LogOutput.Views(outputs[..]) == LogOutput.CollectMany(start, messages[..idx + 1])
        invariant log.lines == base + LogOutput.CollectManyEmits(start, messages[..idx + 1])
      {
        CollectRecordLine(outputs, endTime, idx, start, messages, base);
      }
      assert messages[..totalRecords + 1] == messages;
    }

    /** One pass of that loop: the probe line of record `idx` is collected. */
    method CollectRecordLine(outputs: array<LogOutput.Output>, endTime: int, idx: nat,
                             ghost start: seq<LogOutput.OutputView>, ghost messages: seq<string>,
                             ghost base: seq<LogLine>)
      requires idx < |logRecords|
      requires |messages| == |logRecords| + 1 && messages[1..] == ProbeMessages(logRecords, endTime)
      requires LogOutput.Distinct(outputs[..])
      requires forall i :: 0 <= i < outputs.Length ==> outputs[i].logger == log
      requires LogOutput.Views(outputs[..]) == LogOutput.CollectMany(start, messages[..idx + 1])
      requires log.lines == base + LogOutput.CollectManyEmits(start, messages[..idx + 1])
      modifies set i | 0 <= i < outputs.Length :: outputs[i]
      modifies log
      ensures LogOutput.Views(outputs[..]) == LogOutput.CollectMany(start, messages[..idx + 2])
      ensures log.lines == base + LogOutput.CollectManyEmits(start, messages[..idx + 2])
    {
      var timestamp := logRecords[idx].timestamp;
      var nextTimestamp := if idx + 1 == |logRecords| then endTime else logRecords[idx + 1].timestamp;
      var took := nextTimestamp - timestamp;
      var line := ProbeMessage(took, logRecords[idx].message);
      ProbeMessageIn(logRecords, endTime, messages, idx, took);
      LogOutput.CollectNext(line, outputs, log, start, messages, base, idx + 1);
    }
  }
}
