/** The application logger as an append-only trail of records. Each record carries the request
    identifier bound by the enclosing contextualize block, or None when no block is active. */
module Logging {
  import opened Wrappers

  datatype Level = Info | Error

  datatype LogRecord = LogRecord(level: Level, logId: Option<string>, message: string)

  class Logger {
    var trail: seq<LogRecord>

    constructor ()
      ensures trail == []
    {
      trail := [];
    }

    /** app_logger.info(message) */
    method Info(logId: Option<string>, message: string)
      modifies this
      ensures trail == old(trail) + [LogRecord(Level.Info, logId, message)]
    {
      trail := trail + [LogRecord(Level.Info, logId, message)];
    }

    /** app_logger.error(message) */
    method Error(logId: Option<string>, message: string)
      modifies this
      ensures trail == old(trail) + [LogRecord(Level.Error, logId, message)]
    {
      trail := trail + [LogRecord(Level.Error, logId, message)];
    }
  }
}
