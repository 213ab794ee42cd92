# hh-timings: request timing and a reference-counted stopwatch, in Dafny

This project models the core of the hh-timings library. It has two stateful components.

**The timings logger** (`TimingsLogger`, its output strategies `LogOutput`, and `TimingsLoggerFactory`):

- A request enters and leaves nested timed areas. The start time is captured on the first entry only; `startTime == 0` marks it as unset.
- Named probes are recorded as timestamped records. An event with a configured delay records a pause notice instead of its name.
- An error flag can be set; it is never cleared.
- When the outermost area is left, the logger renders a header:
  - `Context : X ; ` when the context is not blank;
  - `Tms tolerance exceeded, ` when the tolerance was exceeded and `T` is positive;
  - always `total time N ms`.
- With no error and within tolerance, the header is the only line, written at DEBUG.
- Otherwise the header and one `'name'=+took` line per record go, at ERROR or WARN, through one output per configured prototype:
  - a multi-string output writes one line per message;
  - a one-string output buffers every message and writes a single line when dumped.

**The stopwatch scope** (`LoggingStopWatchWrapper` and `LoggingStopWatchFactory`):

- One wrapper per request is shared by every scope that asks the factory for it.
- Acquiring the wrapper counts one more holder and restarts the stopwatch on a new step. Probing restarts it.
- Closing stops the stopwatch and counts one holder less. Then:
  - below zero holders, it logs an error;
  - at or below zero holders, it logs the stopwatch's summary.

**How the model is built.** Clock readings are parameters (`now`, `endTime`). The slf4j logger is a `Logging.Logger` object whose `lines` record each (level, text) pair written.

Every imperative operation is a method on a class with the source's fields. Its `ensures` ties the new state to a pure function of the old one:

- `RenderLines` for the rendering;
- `LogOutput.Emitted` for a make/collect/dump round;
- `AfterAcquire`, `AfterProbe`, `AfterClose` and `AfterStopIfStarted` for the wrapper.

Lemmas then prove what the library promises about those functions.

**Behaviour the model follows from the code:**

- The delta shown for a record runs from its own timestamp to the *next* record's timestamp, or to the end time for the last record. It is not the time since the previous record. The deltas therefore sum to the end time minus the first record's timestamp.
- A probe for a delayed event records `Pausing before event X for N millis`. It is timestamped before the pause.
- There are no anonymous records.
- Rendering goes through per-prototype outputs, so one-string and multi-string layouts differ.
- Within tolerance the header alone is written at DEBUG.

## Model

| member | source | states |
|---|---|---|
| Text.NatToString | src/main/java/ru/hh/health/monitoring/TimingsLogger.java:96-100 | the decimal text of a count is non-empty, all digits, and has no leading zero |
| Text.IntToString | src/main/java/ru/hh/health/monitoring/TimingsLogger.java:100 | the text of a `long` starts with '-' exactly when it is negative and with a digit exactly when it is not |
| Text.ParseIntToString | src/main/java/ru/hh/health/monitoring/TimingsLogger.java:100 | the rendered number reads back as the same value, so the decimal rendering loses nothing |
| Text.IntToStringInjective | src/main/java/ru/hh/health/monitoring/TimingsLogger.java:100 | two numbers with the same text are equal |
| Text.IsNotBlankWitness | src/main/java/ru/hh/health/monitoring/TimingsLogger.java:92 | `isNotBlank` holds exactly when some character is not whitespace, in both directions |
| Logging.Logger.Log | src/main/java/ru/hh/health/monitoring/TimingsLogger.java:104 | writing appends exactly one (level, text) line and keeps every earlier line |
| LogOutput.Output.constructor | src/main/java/ru/hh/health/monitoring/LogOutput.java:39-42 | a prototype's `get()` plus the three setters yields an output of that kind, bound to the logger, level and context, with an empty buffer |
| LogOutput.Output.Collect | src/main/java/ru/hh/health/monitoring/LogOutput.java:64-84 | a one-string output appends `message + "; "` and writes nothing; a multi-string output writes exactly one line `Context : c ; message` at its level and keeps its state |
| LogOutput.Output.Dump | src/main/java/ru/hh/health/monitoring/LogOutput.java:17-71 | a one-string output writes its buffer as exactly one line at its level; a multi-string dump writes nothing |
| LogOutput.Make | src/main/java/ru/hh/health/monitoring/LogOutput.java:32-45 | one fresh, distinct output per prototype, in prototype order, each bound to the given logger, level and context with an empty buffer |
| LogOutput.Collect | src/main/java/ru/hh/health/monitoring/LogOutput.java:47-51 | every output, in array order, receives the message; the log grows by exactly what the outputs write, in that order |
| LogOutput.Dump | src/main/java/ru/hh/health/monitoring/LogOutput.java:53-57 | every output is dumped in array order; the log grows by exactly the dump lines in that order |
| LogOutput.CollectManyKeepsKinds | src/main/java/ru/hh/health/monitoring/LogOutput.java:64-84 | collecting never changes how many outputs there are, nor any output's kind, level or context |
| LogOutput.CollectAllEmitsLevel | src/main/java/ru/hh/health/monitoring/LogOutput.java:47-51 | outputs made at one level write every collected line at that level |
| LogOutput.DumpAllEmitsLevel | src/main/java/ru/hh/health/monitoring/LogOutput.java:53-57 | outputs made at one level write every dumped line at that level |
| LogOutput.CollectManyEmitsLevel | src/main/java/ru/hh/health/monitoring/LogOutput.java:47-51 | over any number of messages, every collected line is at the outputs' level |
| LogOutput.EmittedLevel | src/main/java/ru/hh/health/monitoring/LogOutput.java:32-57 | everything a make/collect/dump round writes is at the level the outputs were made with |
| LogOutput.EmittedMultipleString | src/main/java/ru/hh/health/monitoring/LogOutput.java:80-90 | with the single multi-string prototype, each message becomes exactly one prefixed line, in collection order, and the dump adds nothing |
| LogOutput.EmittedMultipleStringCons | src/main/java/ru/hh/health/monitoring/LogOutput.java:80-90 | with the multi-string prototype, a first message and the rest give the prefixed first message as line 0 and the prefixed message i of the rest as line i + 1, nothing more |
| LogOutput.MultipleStringUnchanged | src/main/java/ru/hh/health/monitoring/LogOutput.java:82-84 | a multi-string output keeps its state however many messages it collects |
| LogOutput.MultipleStringEmits | src/main/java/ru/hh/health/monitoring/LogOutput.java:82-84 | a multi-string output writes line i as the context prefix followed by message i |
| LogOutput.EmittedOneString | src/main/java/ru/hh/health/monitoring/LogOutput.java:60-77 | with the single one-string prototype, the round writes exactly one line: every message in order, each followed by "; " |
| LogOutput.EmittedOneStringCons | src/main/java/ru/hh/health/monitoring/LogOutput.java:60-77 | with the one-string prototype, the single line is the first message, "; ", then every other message each followed by "; " |
| LogOutput.OneStringBuffers | src/main/java/ru/hh/health/monitoring/LogOutput.java:64-66 | a one-string output's buffer is its old buffer followed by each collected message and "; ", in order |
| LogOutput.OneStringSilent | src/main/java/ru/hh/health/monitoring/LogOutput.java:64-66 | a one-string output writes nothing while collecting |
| LogOutput.CollectAllEmitsCount | src/main/java/ru/hh/health/monitoring/LogOutput.java:47-51 | collecting one message writes one line per multi-string output |
| LogOutput.DumpAllEmitsCount | src/main/java/ru/hh/health/monitoring/LogOutput.java:53-57 | dumping writes one line per one-string output |
| LogOutput.CollectManyEmitsCount | src/main/java/ru/hh/health/monitoring/LogOutput.java:47-51 | collecting n messages writes n lines per multi-string output |
| LogOutput.EmittedCount | src/main/java/ru/hh/health/monitoring/LogOutput.java:32-57 | a round over n messages writes n lines per multi-string prototype plus one per one-string prototype |
| LogOutput.LinesForCount | src/main/java/ru/hh/health/monitoring/LogOutput.java:32-57 | the per-prototype line tally (n for each multi-string prototype, one for each one-string prototype) equals n times the multi-string prototypes plus the one-string prototypes |
| LogOutput.EmittedLines | src/main/java/ru/hh/health/monitoring/LogOutput.java:32-57 | a round over a first message and n - 1 more writes exactly that tally of lines |
| Timings.HeaderContextPrefix | src/main/java/ru/hh/health/monitoring/TimingsLogger.java:92-94 | the header starts with `Context : X ; ` if and only if the context is not blank |
| Timings.HeaderTolerance | src/main/java/ru/hh/health/monitoring/TimingsLogger.java:95-98 | after the context label comes `Tms tolerance exceeded, ` when the time spent exceeds a positive threshold, and otherwise directly the total |
| Timings.HeaderEndsWithTotal | src/main/java/ru/hh/health/monitoring/TimingsLogger.java:99-101 | the header always ends with `total time N ms` |
| Timings.DeltasSum | src/main/java/ru/hh/health/monitoring/TimingsLogger.java:115-121 | the per-record deltas telescope to the end time minus the first record's timestamp |
| Timings.DeltasNonNegative | src/main/java/ru/hh/health/monitoring/TimingsLogger.java:117-119 | with a clock that never goes back, no delta is negative |
| Timings.ProbeMessagesLength | src/main/java/ru/hh/health/monitoring/TimingsLogger.java:115-121 | one probe line per record |
| Timings.ProbeMessageAt | src/main/java/ru/hh/health/monitoring/TimingsLogger.java:116-120 | probe line i is `'name_i'=+took_i`, where took_i runs to the next record's timestamp, or to the end time for the last record |
| Timings.RenderWithinTolerance | src/main/java/ru/hh/health/monitoring/TimingsLogger.java:88-106 | without error and within tolerance, the only line written is the header at DEBUG, with no probe lines |
| Timings.RenderProbes | src/main/java/ru/hh/health/monitoring/TimingsLogger.java:88-122 | when probes are listed, the lines are exactly what a make/collect/dump round writes at the probe level for the header followed by the probe lines |
| Timings.RenderThroughOutputs | src/main/java/ru/hh/health/monitoring/TimingsLogger.java:108-122 | when probes are listed, the lines are what the outputs write for the header followed by the probe lines, at ERROR or WARN |
| Timings.RenderErrorLevel | src/main/java/ru/hh/health/monitoring/TimingsLogger.java:89-110 | once the error flag is set, every line is written at ERROR, whatever the time spent |
| Timings.RenderExceededLevel | src/main/java/ru/hh/health/monitoring/TimingsLogger.java:88-110 | without an error but over the tolerance, every line is written at WARN |
| Timings.RenderCount | src/main/java/ru/hh/health/monitoring/TimingsLogger.java:108-122 | when probes are listed, each multi-string output writes 1 + (number of records) lines and each one-string output writes one line |
| Timings.RenderDefaultPrototype | src/main/java/ru/hh/health/monitoring/TimingsLogger.java:114-121 | with the default output, line 0 is the prefixed header and line i+1 is the prefixed probe line of record i, in record order |
| Timings.RenderOneString | src/main/java/ru/hh/health/monitoring/TimingsLogger.java:108-122 | with the one-string output, a single line holds the header and every probe line in record order, each followed by "; " |
| Timings.TimingsLogger.constructor | src/main/java/ru/hh/health/monitoring/TimingsLogger.java:39-45 | a new logger is bound to its settings, at depth 0, with no error, no records and an unset start time |
| Timings.TimingsLogger.EnterTimedArea | src/main/java/ru/hh/health/monitoring/TimingsLogger.java:47-51 | the depth grows by exactly 1; the start time is taken only while it is still 0 and is never changed afterwards |
| Timings.TimingsLogger.LeaveTimedArea | src/main/java/ru/hh/health/monitoring/TimingsLogger.java:53-58 | at depth 0 it fails and writes nothing; otherwise the depth drops by 1, inner leaves write nothing, and the last leave writes exactly the rendered lines |
| Timings.TimingsLogger.SetErrorState | src/main/java/ru/hh/health/monitoring/TimingsLogger.java:63-65 | the error flag is set, and nothing the logger does clears it |
| Timings.TimingsLogger.Probe | src/main/java/ru/hh/health/monitoring/TimingsLogger.java:67-75 | exactly one record is appended with the current time and earlier records are kept; its message is the event name, or the pause notice when a delay is configured |
| Timings.TimingsLogger.AddLogRecord | src/main/java/ru/hh/health/monitoring/TimingsLogger.java:128-131 | the record list grows by exactly the new record at its end |
| Timings.TimingsLogger.OutputLoggedTimings | src/main/java/ru/hh/health/monitoring/TimingsLogger.java:81-126 | the log grows by exactly `RenderLines` of the logger's state and the end time, whose properties the rendering lemmas state |
| Timings.TimingsLogger.ListProbes | src/main/java/ru/hh/health/monitoring/TimingsLogger.java:108-122 | fresh outputs receive the header and then every probe line and are dumped; the log grows by exactly `Emitted` for those messages |
| Timings.TimingsLogger.CollectRecordLines | src/main/java/ru/hh/health/monitoring/TimingsLogger.java:115-121 | the record loop collects record i's probe line after those of records 0..i-1, so the outputs and the log are as if every probe line had been collected in order |
| Timings.TimingsLogger.CollectRecordLine | src/main/java/ru/hh/health/monitoring/TimingsLogger.java:116-120 | one pass of the record loop: record i's delta runs to the next record or to the end time, and its probe line is collected into every output right after the earlier ones |
| StopWatchWrapper.AfterStopIfStarted | src/main/java/ru/hh/health/monitoring/LoggingStopWatchWrapper.java:47-51 | the stopwatch ends stopped; `stop` is called once if it was running and not at all otherwise; counter and log are unchanged |
| StopWatchWrapper.AfterProbe | src/main/java/ru/hh/health/monitoring/LoggingStopWatchWrapper.java:28-31 | the counter is unchanged; stop is called only if the stopwatch was started; start is always called, last, on the step; afterwards it is started |
| StopWatchWrapper.AfterAcquire | src/main/java/ru/hh/health/monitoring/LoggingStopWatchWrapper.java:23-26 | the counter grows by exactly 1 and the stopwatch is left started on the step |
| StopWatchWrapper.AfterClose | src/main/java/ru/hh/health/monitoring/LoggingStopWatchWrapper.java:33-45 | the counter drops by exactly 1 and the stopwatch ends stopped; an error line is logged iff the new counter is below 0, and the summary iff it is at most 0 |
| StopWatchWrapper.ScopeEffect | src/main/java/ru/hh/health/monitoring/LoggingStopWatchWrapper.java:23-45 | a properly nested scope restores the counter, leaves the stopwatch stopped, starts it once per acquisition and probe, keeps starts and stops balanced, and logs only at the outermost close: then exactly the summary and no error |
| StopWatchWrapper.BodyEffect | src/main/java/ru/hh/health/monitoring/LoggingStopWatchWrapper.java:28-31 | while a holder is open, probes and inner scopes keep the counter and log nothing |
| StopWatchWrapper.NestedScopes | src/test/java/ru/hh/health/monitoring/LoggingStopWatchWrapperTest.java:41-101 | from a fresh wrapper, nested usage writes exactly one line, the summary at the last close; starts and stops both equal acquisitions plus probes |
| StopWatchWrapper.NestedBlockCounts | src/test/java/ru/hh/health/monitoring/LoggingStopWatchWrapperTest.java:41-87 | the four nested-block scenarios start and stop the stopwatch 6/6, 4/4, 4/4 and 2/2 times |
| StopWatchWrapper.StopWatch.Start | src/test/java/ru/hh/health/monitoring/LoggingStopWatchWrapperTest.java:29-32 | start records the call and leaves the stopwatch started |
| StopWatchWrapper.StopWatch.Stop | src/test/java/ru/hh/health/monitoring/LoggingStopWatchWrapperTest.java:33-36 | stop records the call and leaves the stopwatch stopped |
| StopWatchWrapper.StopWatch.IsStarted | src/test/java/ru/hh/health/monitoring/LoggingStopWatchWrapperTest.java:37 | reports whether the stopwatch is running |
| StopWatchWrapper.LoggingStopWatchWrapper.constructor | src/main/java/ru/hh/health/monitoring/LoggingStopWatchWrapper.java:15-21 | a new wrapper holds its logger, request id, context and stopwatch, with reference count 0 |
| StopWatchWrapper.LoggingStopWatchWrapper.IncrementRCAndStart | src/main/java/ru/hh/health/monitoring/LoggingStopWatchWrapper.java:23-26 | the new state is `AfterAcquire` of the old |
| StopWatchWrapper.LoggingStopWatchWrapper.Probe | src/main/java/ru/hh/health/monitoring/LoggingStopWatchWrapper.java:28-31 | the new state is `AfterProbe` of the old |
| StopWatchWrapper.LoggingStopWatchWrapper.Close | src/main/java/ru/hh/health/monitoring/LoggingStopWatchWrapper.java:33-45 | the new state is `AfterClose` of the old, the summary being the stopwatch's rendering of its history |
| StopWatchWrapper.LoggingStopWatchWrapper.StopIfStarted | src/main/java/ru/hh/health/monitoring/LoggingStopWatchWrapper.java:47-51 | the new state is `AfterStopIfStarted` of the old |
| StopWatchFactory.LoggingStopWatchFactory.constructor | src/main/java/ru/hh/health/monitoring/LoggingStopWatchFactory.java:10-12 | the factory wraps the one supplied stopwatch in a fresh wrapper with count 0 |
| StopWatchFactory.LoggingStopWatchFactory.GetStopWatch | src/main/java/ru/hh/health/monitoring/LoggingStopWatchFactory.java:14-17 | every call returns the same wrapper, with its count up by exactly 1 and its stopwatch restarted on the step, stopped first if it was running |
| TimingsFactory.NewFactory | src/main/java/ru/hh/health/monitoring/TimingsLoggerFactory.java:16-22 | the factory keeps the delays and prototypes; its threshold is the configured one when present and 15000 otherwise |
| TimingsFactory.NewDefaultFactory | src/main/java/ru/hh/health/monitoring/TimingsLoggerFactory.java:24-26 | without prototypes, the single prototype is the multi-string one |
| TimingsFactory.ThresholdDefaulting | src/main/java/ru/hh/health/monitoring/TimingsLoggerFactory.java:19-21 | the threshold a factory reports is the supplied one when present and 15000 otherwise, for either constructor |
| TimingsFactory.GetLogger | src/main/java/ru/hh/health/monitoring/TimingsLoggerFactory.java:28-30 | each call yields a new logger of its own, bound to the factory's delays, threshold and prototypes, at depth 0, without error and without records |

## Left out

- Thread safety (`synchronized`, `volatile`, `AtomicInteger`). Every operation is modelled as sequential and atomic, and the cross-thread wrapper test is not modelled.
- `Thread.sleep` in `probe` and its interrupt handling. The pause is a no-op; the record is appended before it, as in the code.
- The clock (`DateTimeUtils.currentTimeMillis`). Readings are parameters of the operations that read it.
- `LoggingContext.enter`/`leave` around rendering and around the wrapper's summary. That class is not part of this model; it only scopes diagnostic context and writes nothing to the log.
- slf4j formatting. `MessageFormatter` and `{}` placeholders become plain concatenation, with no escape handling. `LogLevel.log` is a write at the given level.
- Integer width. Java `long` and `int` values are unbounded integers here; overflow of the counter or of time differences is not modelled.
- `StopWatch.toString()` belongs to the injected stopwatch. It is a function `describe` of the calls the stopwatch received. The stopwatch's start/stop behaviour is that of the tests' stopwatch: start sets started, stop clears it.
- The stopwatch supplier. The factory receives the one stopwatch the supplier returns.
- LogOutput.Collect: requires the outputs to be distinct objects. `Make` always produces distinct, fresh outputs, which is the only way the logger obtains them.
- LogOutput.Make: `prototype.get()` and the three setters are folded into one constructor call. `LogOutputPrototype` is the two-case datatype `Prototype`.
- Null arguments (a null context, null maps, the `assert ... != null` checks in `make`) are not modelled. Strings and collections are always present values.
- Timings.TimingsLogger.constructor: the four-argument constructor that defaults to the multi-string prototype is covered by passing `[MultipleString]`.
- The `probeMessage` `'{}'=+{}` format is plain concatenation of the name and the decimal delta.
