/** The Django service's RequestLoggingMiddleware: three hooks that each draw their own log
    identifier, log one record and bump one series of requests_total. */
module DjangoMiddleware {
  import opened Wrappers
  import opened Http
  import opened Logging
  import opened Metrics
  import opened Classifier
  import Decimal

  /** The process-wide request_counter of the Django service, declared with no series yet. */
  method NewRequestCounter() returns (counter: Registry)
    ensures fresh(counter)
    ensures counter.name == "requests_total" && counter.labelNames == ("endpoint", "method", "status")
    ensures counter.series == map[]
  {
    counter := new Registry("requests_total", ("endpoint", "method", "status"));
  }

  /** A request first seen by process_request and then closed by process_response with `code` bumps
      two distinct series: the "in_progress" series is never taken back, so the counter total rises by two. */
  lemma InProgressNeverRetracted(m: map<Labels, nat>, request: Request, code: int)
    ensures var entered := (request.path, request.verb, "in_progress");
      var closed := (request.path, request.verb, ResponseStatus(code));
      var after := Bumped(Bumped(m, entered), closed);
      && entered != closed
      && Count(after, entered) == Count(m, entered) + 1
      && Count(after, closed) == Count(m, closed) + 1
      && Total(after) == Total(m) + 2
  {
    var entered := (request.path, request.verb, "in_progress");
    var closed := (request.path, request.verb, ResponseStatus(code));
    Decimal.FromIntNotWord(code, "in_progress");
    assert entered != closed;
    TotalBumped(m, entered);
    TotalBumped(Bumped(m, entered), closed);
  }

  class RequestLoggingMiddleware {
    const counter: Registry
    const logger: Logger

    constructor (counter: Registry, logger: Logger)
      ensures this.counter == counter && this.logger == logger
    {
      this.counter := counter;
      this.logger := logger;
    }

    /** process_request: logs the entry and bumps the "in_progress" series; lets the request through. */
    method ProcessRequest(request: Request, logId: string) returns (r: Option<Response>)
      modifies counter, logger
      ensures r == None
      ensures counter.series == Bumped(old(counter.series), (request.path, request.verb, "in_progress"))
      ensures logger.trail == old(logger.trail) + [LogRecord(Info, Some(logId), EntryMessage(request))]
      ensures Total(counter.series) == old(Total(counter.series)) + 1
    {
      var id := Some(logId);
      logger.Info(id, "Request to access " + request.verb + " " + request.path);
      counter.Inc((request.path, request.verb, "in_progress"));
      r := None;
    }

    /** process_response: bumps the series of the response's code (error record for 422, info
        record otherwise) and returns the response it was given. */
    method ProcessResponse(request: Request, response: Response, logId: string) returns (r: Response)
      modifies counter, logger
      ensures r == response
      ensures counter.series == Bumped(old(counter.series), (request.path, request.verb, Decimal.FromInt(response.code)))
      ensures response.code == 422 ==>
        logger.trail == old(logger.trail) + [LogRecord(Error, Some(logId), UnprocessableMessage(request))]
      ensures response.code != 422 ==>
        logger.trail == old(logger.trail) + [LogRecord(Info, Some(logId), SuccessMessage(request))]
      ensures Total(counter.series) == old(Total(counter.series)) + 1
    {
      var id := Some(logId);
      if response.code == 422 {
        logger.Error(id, "Unprocessable Entity: " + request.verb + " " + request.path);
        counter.Inc((request.path, request.verb, "422"));
      } else {
        logger.Info(id, "Request to " + request.verb + " " + request.path + " successful");
        counter.Inc((request.path, request.verb, Decimal.FromInt(response.code)));
      }
      Decimal.Is422Iff(response.code);
      r := response;
    }

    /** process_exception: logs the exception text at error level, bumps the "500" series and
        returns nothing, leaving the exception to Django's own handling. */
    method ProcessException(request: Request, exceptionText: string, logId: string) returns (r: Option<Response>)
      modifies counter, logger
      ensures r == None
      ensures counter.series == Bumped(old(counter.series), (request.path, request.verb, "500"))
      ensures logger.trail == old(logger.trail) + [LogRecord(Error, Some(logId), FailedMessage(request, exceptionText))]
      ensures Total(counter.series) == old(Total(counter.series)) + 1
    {
      var id := Some(logId);
      logger.Error(id, "Request to " + request.verb + " " + request.path + " failed: " + exceptionText);
      counter.Inc((request.path, request.verb, "500"));
      r := None;
    }
  }
}
