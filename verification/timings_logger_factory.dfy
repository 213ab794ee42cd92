/** The factory of timings loggers: it fixes the probe delays, the total-time
    threshold and the output prototypes once, and binds a new logger to them for
    each request. */
module TimingsFactory {
  import opened Logging
  import LogOutput
  import Timings

  /** The threshold, in milliseconds, used when none is configured. */
  const DEFAULT_TIME_TOLERANCE: int := 15000

  datatype Option<T> = None | Some(value: T)

  datatype TimingsLoggerFactory = TimingsLoggerFactory(
    probeDelays: map<string, int>,
    totalTimeThreshold: int,
    prototypes: seq<LogOutput.Prototype>)

  /** The threshold in force for a configured, possibly absent, value. */
  function EffectiveThreshold(totalTimeThreshold: Option<int>): int {
    match totalTimeThreshold
    case Some(t) => t
    case None => DEFAULT_TIME_TOLERANCE
  }

  function NewFactory(probeDelays: map<string, int>, totalTimeThreshold: Option<int>,
                      prototypes: seq<LogOutput.Prototype>): (f: TimingsLoggerFactory)
    ensures f.probeDelays == probeDelays && f.prototypes == prototypes
    ensures f.totalTimeThreshold == EffectiveThreshold(totalTimeThreshold)
  {
    TimingsLoggerFactory(probeDelays, EffectiveThreshold(totalTimeThreshold), prototypes)
  }

  /** Without explicit prototypes every logger writes one line per message. */
  function NewDefaultFactory(probeDelays: map<string, int>, totalTimeThreshold: Option<int>): (f: TimingsLoggerFactory)
    ensures f.prototypes == [LogOutput.MultipleString]
    ensures f.probeDelays == probeDelays
    ensures f.totalTimeThreshold == EffectiveThreshold(totalTimeThreshold)
  {
    NewFactory(probeDelays, totalTimeThreshold, [LogOutput.MultipleString])
  }

  function GetTotalTimeThreshold(f: TimingsLoggerFactory): int {
    f.totalTimeThreshold
  }

  /** The threshold a factory reports is the configured one when present and
      15000 otherwise, whatever the prototypes. */
  lemma {:induction false} ThresholdDefaulting(probeDelays: map<string, int>, totalTimeThreshold: Option<int>,
                                               prototypes: seq<LogOutput.Prototype>)
    ensures totalTimeThreshold.Some? ==>
              GetTotalTimeThreshold(NewFactory(probeDelays, totalTimeThreshold, prototypes)) == totalTimeThreshold.value
    ensures totalTimeThreshold.None? ==>
              GetTotalTimeThreshold(NewFactory(probeDelays, totalTimeThreshold, prototypes)) == 15000
    ensures GetTotalTimeThreshold(NewDefaultFactory(probeDelays, totalTimeThreshold))
              == GetTotalTimeThreshold(NewFactory(probeDelays, totalTimeThreshold, prototypes))
  {
  }

  /** A new logger of its own for a request, bound to the factory's settings,
      outside every timed area, without error and without records. `log` is the
      loggers' shared static logger. */
  method GetLogger(f: TimingsLoggerFactory, context: string, requestId: string, log: Logger)
    returns (l: Timings.TimingsLogger)
    ensures fresh(l)
    ensures l.timingsContext == context && l.requestId == requestId && l.log == log
    ensures l.probeDelays == f.probeDelays && l.totalTimeThreshold == f.totalTimeThreshold
    ensures l.prototypes == f.prototypes
    ensures l.timedAreasCount == 0 && !l.errorState && l.logRecords == [] && l.startTime == 0
  {
    l := new Timings.TimingsLogger(context, requestId, f.probeDelays, f.totalTimeThreshold, f.prototypes, log);
  }
}
