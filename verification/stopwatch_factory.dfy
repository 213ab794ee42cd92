/** The factory that hands the one shared stopwatch wrapper of a request to every
    scope that asks for it. */
module StopWatchFactory {
  import opened Logging
  import opened StopWatchWrapper

  class LoggingStopWatchFactory {
    const wrapper: LoggingStopWatchWrapper

    /** Wraps the one stopwatch the supplier provides; `stopWatch` is that
        stopwatch. No holder is counted yet. */
    constructor (logger: Logger, stopWatch: StopWatch, context: string, reqId: string)
      ensures fresh(wrapper)
      ensures wrapper.logger == logger && wrapper.stopWatch == stopWatch
      ensures wrapper.context == context && wrapper.requestId == reqId
      ensures wrapper.referenceCounter == 0
    {
      wrapper := new LoggingStopWatchWrapper(logger, reqId, context, stopWatch);
    }

    /** Counts one more holder of the shared wrapper, restarts its stopwatch on
        `stepName`, and returns that same wrapper. */
    method GetStopWatch(stepName: string) returns (w: LoggingStopWatchWrapper)
      modifies wrapper, wrapper.stopWatch
      ensures w == wrapper
      ensures w.State() == AfterAcquire(old(wrapper.State()), stepName)
    {
      wrapper.IncrementRCAndStart(stepName);
      w := wrapper;
    }
  }
}
