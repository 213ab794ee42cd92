/** The log sink: the slf4j logger reduced to an ordered record of (level, text)
    pairs that the modelled components append to. */
module Logging {

  /** The severities the core writes at. */
  datatype Level = Debug | Warn | Error

  datatype LogLine = LogLine(level: Level, text: string)

  class Logger {
    var lines: seq<LogLine>

    constructor ()
      ensures lines == []
    {
      lines := [];
    }

    /** `LogLevel.log(logger, level, text)` and `logger.debug/warn/error(text)`. */
    method Log(level: Level, text: string)
      modifies this
      ensures lines == old(lines) + [LogLine(level, text)]
    {
      lines := lines + [LogLine(level, text)];
    }
  }
}
