/** The FastAPI service's HTTP middleware: it logs the request, runs the downstream handler,
    classifies how it ended, bumps one series of http_requests_total and returns a response. */
module FastApiMain {
  import opened Wrappers
  import opened Http
  import opened Logging
  import opened Metrics
  import opened Classifier
  import Decimal

  /** How the downstream handler (call_next) ended. */
  datatype Outcome =
    | Resp(response: Response)
    | ValidationFault(errors: seq<Json>, text: string)
    | OtherFault(text: string)

  /** What the middleware does once the handler has ended: the status label, the closing log
      record's level and message, and the response handed back. */
  datatype Exit = Exit(status: string, level: Level, message: string, response: Response)

  /** The body of the synthesised 422 response. */
  function ValidationBody(errors: seq<Json>): Body {
    Content(JObject([("success", JBool(false)), ("detail", JList(errors))]))
  }

  /** The body of the synthesised 500 response. */
  const FailureBody: Body := Content(JObject([("success", JBool(false))]))

  /** The process-wide request_counter, declared with no series yet. */
  method NewRequestCounter() returns (counter: Registry)
    ensures fresh(counter)
    ensures counter.name == "http_requests_total" && counter.labelNames == ("operation", "method", "status")
    ensures counter.series == map[]
  {
    counter := new Registry("http_requests_total", ("operation", "method", "status"));
  }

  /** The error record of a validation fault, naming the fault's text. */
  function ValidationMessage(r: Request, text: string): string {
    "Validation error for request to " + r.verb + " " + r.path + ": " + text
  }

  function Classify(r: Request, o: Outcome): (e: Exit)
    ensures e.status == "422" <==> o.ValidationFault? || (o.Resp? && o.response.code == 422)
    ensures e.level == Error <==> !(o.Resp? && o.response.code != 422)
    ensures o.Resp? ==> e.response == o.response && e.status == Decimal.FromInt(o.response.code)
    ensures o.ValidationFault? ==> e.response == Response(422, ValidationBody(o.errors))
    ensures o.OtherFault? ==> e.status == "500" && e.response == Response(500, FailureBody)
    ensures o.Resp? ==> e.message == if o.response.code == 422 then UnprocessableMessage(r) else SuccessMessage(r)
    ensures o.ValidationFault? ==> e.status == "422" && e.message == ValidationMessage(r, o.text)
    ensures o.OtherFault? ==> e.message == FailedMessage(r, o.text)
  {
    match o
    case Resp(resp) =>
      Exit(ResponseStatus(resp.code),
           if resp.code == 422 then Error else Info,
           if resp.code == 422 then UnprocessableMessage(r) else SuccessMessage(r),
           resp)
    case ValidationFault(errors, text) =>
      Exit("422", Error, ValidationMessage(r, text),
           Response(422, ValidationBody(errors)))
    case OtherFault(text) =>
      Exit("500", Error, FailedMessage(r, text), Response(500, FailureBody))
  }

  /** An unexpected exception's text reaches the log but never the response: two failures that differ
      only in their text get the same response and different log records. */
  lemma FaultTextLoggedNotReturned(r: Request, t1: string, t2: string)
    ensures Classify(r, OtherFault(t1)).response == Classify(r, OtherFault(t2)).response
    ensures Classify(r, OtherFault(t1)).message == Classify(r, OtherFault(t2)).message <==> t1 == t2
  {
    FailedMessageInjective(r, t1, t2);
  }

  /** log_middleware. `logId` stands for the uuid4 drawn at entry, `downstream` for the outcome of
      call_next. Exactly one of the three exits runs, so exactly one series grows by one. */
  method LogMiddleware(counter: Registry, logger: Logger, request: Request, logId: string, downstream: Outcome)
    returns (response: Response)
    modifies counter, logger
    ensures var e := Classify(request, downstream);
      && counter.series == Bumped(old(counter.series), (request.path, request.verb, e.status))
      && logger.trail == old(logger.trail)
           + [LogRecord(Info, Some(logId), EntryMessage(request)), LogRecord(e.level, Some(logId), e.message)]
      && response == e.response
    ensures Total(counter.series) == old(Total(counter.series)) + 1
  {
    var id := Some(logId);
    logger.Info(id, "Request to access " + request.verb + " " + request.path);
    match downstream {
      case Resp(resp) =>
        response := resp;
        if response.code == 422 {
          logger.Error(id, "Unprocessable Entity: " + request.verb + " " + request.path);
          counter.Inc((request.path, request.verb, "422"));
        } else {
          logger.Info(id, "Request to " + request.verb + " " + request.path + " successful");
          counter.Inc((request.path, request.verb, Decimal.FromInt(response.code)));
        }
      case ValidationFault(errors, text) =>
        logger.Error(id, "Validation error for request to " + request.verb + " " + request.path + ": " + text);
        counter.Inc((request.path, request.verb, "422"));
        response := Response(422, Content(JObject([("success", JBool(false)), ("detail", JList(errors))])));
      case OtherFault(text) =>
        logger.Error(id, "Request to " + request.verb + " " + request.path + " failed: " + text);
        counter.Inc((request.path, request.verb, "500"));
        response := Response(500, Content(JObject([("success", JBool(false))])));
    }
  }

  /** read_root: greets and logs under whatever identifier the middleware bound. */
  method ReadRoot(logger: Logger, logId: Option<string>) returns (body: Json)
    modifies logger
    ensures logger.trail == old(logger.trail) + [LogRecord(Info, logId, "Root endpoint accessed")]
    ensures body == JObject([("Hello", JStr("World"))])
  {
    logger.Info(logId, "Root endpoint accessed");
    body := JObject([("Hello", JStr("World"))]);
  }
}
