# Request accounting of the FastAPI and Django services

This project models how the two services account for every HTTP request. Each service classifies
the request's outcome as a status label. It bumps one series of a labelled request counter, writes
log records under a per-request identifier, and chooses the response to return. There are three
places where this happens:

- **FastAPI `log_middleware`** wraps the downstream handler (`call_next`). Each request ends in one
  of three ways: a normal response, a `RequestValidationError`, or any other exception. In every
  case the middleware increments `http_requests_total{operation=path, method, status}` exactly once
  and returns a response.
- **Django `RequestLoggingMiddleware`** has three hooks. `process_request` counts the request as
  `"in_progress"`. `process_response` counts the response's code and passes the response through.
  `process_exception` counts `"500"` and returns nothing.
- **Django item views** are CRUD handlers over the item table. Every exit path bumps the handler's
  `(endpoint, method, status)` series of `requests_total`, with status `success`, `error` or
  `not_found`, and answers with a fixed code (200, 201, 204, 400, 404 or 500). Each exit bumps one
  series, with one exception: a failing item-list query bumps two (see below).

Modules, one per component:

- `Decimal` models Python's `str(int)` for status codes, with its parser as the partner of the
  round trip.
- `Metrics` holds the series map, a single increment (`Bumped`), and the sum over all series
  (`Total`). Its `Registry` class is the process-wide counter object.
- `Logging` holds the logger. The log is an append-only trail of `(level, log id, message)`
  records.
- `Http` holds the request and response values and a small JSON type.
- `Classifier` derives the status label and log texts that both middlewares use.
- `FastApiMain`, `DjangoMiddleware` and `DjangoViews` model the three places listed above.

Methods that change state state their whole new state: the counter map, the log trail, the item
table and the returned response. Each one ties that state to a pure function: `Bumped`, `Classify`
or `Settle`. Lemmas then prove what those functions promise. Examples: one increment raises the
counter total by exactly one; the label `"422"` comes from code 422 and from no other code; an
exception's text reaches the log but never the response body.

Behaviour of the code worth knowing:

- The middlewares never use a `"not_found"` bucket. A 404 response is counted under `"404"`. Only
  the views label a missing item `not_found`.
- "One count per request" does not hold for the Django hooks. `process_request` counts
  `"in_progress"` and nothing ever takes it back, so a request that also reaches
  `process_response` raises the counter total by two (`DjangoMiddleware.InProgressNeverRetracted`).
- Both middlewares treat code 422 as a special case, but the label they write by hand is the same
  string `str(422)` produces. So the special case changes only the log level and message, never
  the series (`Classifier.ResponseStatus`).
- The item list's query is lazy. `Item.objects.all()` and the serializer do not touch the database;
  the query runs when `serializer.data` is read (views.py:23). By then the handler has already
  bumped `("item_list", "GET", "success")` (views.py:20-22). A database error at that point is
  caught, bumps `"error"` as well and answers 500. So one failed request counts as both a success
  and an error, and the counter total rises by two (`DjangoViews.ListQueryFaultCountsTwice`).

## Model

| member | source | states |
|---|---|---|
| Decimal.FromNat | fastapi_service/main.py:43 | the decimal rendering of a non-negative code is non-empty, all digits, and starts with '0' exactly when the code is 0 |
| Decimal.FromInt | django_service/app/middleware.py:33 | str(code) starts with '-' exactly for negative codes and is all digits otherwise |
| Decimal.ParseFromNat | fastapi_service/main.py:43 | parsing the rendering of n gives back n |
| Decimal.ParseFromInt | fastapi_service/main.py:43 | parsing str(i), with its optional minus sign, gives back i |
| Decimal.FromIntInjective | fastapi_service/main.py:40-44 | two codes get the same label if and only if they are equal |
| Decimal.Is422Iff | fastapi_service/main.py:29-44 | str(code) is "422" if and only if the code is 422 |
| Decimal.FromIntNotWord | django_service/app/middleware.py:12-14 | a rendered code never equals a word label such as "in_progress" |
| Metrics.Bumped | fastapi_service/main.py:33-35 | one increment raises series l by one, leaves every other series unchanged, and creates l if absent |
| Metrics.TotalRemove | django_service/app/metrics.py:4-6 | the sum over all series is any one series plus the sum over the rest |
| Metrics.TotalBumped | fastapi_service/main.py:27-62 | one increment raises the sum over all series by exactly one |
| Metrics.Registry.constructor | django_service/app/metrics.py:4-6 | a counter is declared with its name and label names and has no series yet |
| Metrics.Registry.Inc | django_service/app/middleware.py:12-14 | `.labels(...).inc()` replaces the series map by `Bumped` of the old one, and the total rises by one |
| Logging.Logger.Info | fastapi_service/main.py:26 | `app_logger.info` appends exactly one info record with the bound log id |
| Logging.Logger.Error | fastapi_service/main.py:30-32 | `app_logger.error` appends exactly one error record with the bound log id |
| Classifier.ResponseStatus | django_service/app/middleware.py:19-34 | the label of a normal response is always str(code), and it is "422" exactly for code 422 |
| Classifier.FailedMessageInjective | django_service/app/middleware.py:40-42 | the failure log record determines the exception text: different texts give different records |
| FastApiMain.NewRequestCounter | fastapi_service/main.py:15-19 | `http_requests_total` is declared with labels operation, method and status and no series |
| FastApiMain.Classify | fastapi_service/main.py:27-62 | label "422" exactly for a validation fault or a 422 response; error level exactly for a fault or a 422 response; a normal response is returned unchanged and labelled str(code); a validation fault answers 422 with `{"success": false, "detail": errors}`; any other fault answers 500 with `{"success": false}`; the closing message is "Unprocessable Entity: …" for a 422 response, "Request to … successful" for any other response, and names the fault text for a validation fault and for any other fault |
| FastApiMain.FaultTextLoggedNotReturned | fastapi_service/main.py:55-62 | two failures that differ only in their exception text get the same response and different log records |
| FastApiMain.LogMiddleware | fastapi_service/main.py:22-64 | an entry info record and then one closing record, both under the request's own log id; exactly the series (path, method, label) grows by one; the counter total rises by one; the response is the one `Classify` chooses |
| FastApiMain.ReadRoot | fastapi_service/main.py:72-75 | appends one info record and returns `{"Hello": "World"}` |
| DjangoMiddleware.NewRequestCounter | django_service/app/metrics.py:4-6 | `requests_total` is declared with labels endpoint, method and status and no series |
| DjangoMiddleware.InProgressNeverRetracted | django_service/app/middleware.py:8-35 | after process_request and then process_response, the "in_progress" series and the response's series are distinct, each has grown by one, and the total has grown by two |
| DjangoMiddleware.RequestLoggingMiddleware.ProcessRequest | django_service/app/middleware.py:8-14 | logs the entry at info level, bumps exactly (path, method, "in_progress") by one, and returns no response |
| DjangoMiddleware.RequestLoggingMiddleware.ProcessResponse | django_service/app/middleware.py:16-35 | bumps exactly (path, method, str(code)); logs at error level for 422 and at info level otherwise; returns the response it was given |
| DjangoMiddleware.RequestLoggingMiddleware.ProcessException | django_service/app/middleware.py:37-46 | logs the exception text at error level, bumps exactly (path, method, "500"), and returns no response |
| DjangoViews.Settle | django_service/app/views.py:13-134 | every exit's code is one of 200/201/204/400/404/500 and its status is success, error or not_found; not_found exactly with 404; success exactly with 200/201/204; 500 exactly on an unexpected exception; 404 exactly for a missing key of a keyed handler; 400 exactly for invalid data that got past the lookup; 201 exactly for a valid create; 204 exactly for a delete of an existing key; 200 exactly for every other fault-free exit |
| DjangoViews.ListQueryFaultCountsTwice | django_service/app/views.py:20-28 | a failing list query bumps the distinct series "success" and "error" by one each, raising the counter total by two |
| DjangoViews.MissingKeyIgnoresData | django_service/app/views.py:86-104 | for a keyed handler, a missing key gives not_found/404 whatever the request data |
| DjangoViews.ItemTable.Insert | django_service/app/views.py:38 | saving a new item stores it under a key never used before and changes nothing else |
| DjangoViews.ItemTable.Update | django_service/app/views.py:89 | saving an existing item replaces exactly that item's fields |
| DjangoViews.ItemTable.Remove | django_service/app/views.py:118 | deleting removes exactly that key |
| DjangoViews.ItemList.Get | django_service/app/views.py:13-29 | bumps ("item_list", "GET", "success") and answers 200 with all items; when the lazy query raises at views.py:23, bumps "success" and then "error", raising the total by two, and answers 500 with no body |
| DjangoViews.ItemList.Post | django_service/app/views.py:31-53 | valid data: the item is stored under a fresh key, "success", 201. Invalid data: store unchanged, "error", 400 with the field errors (not 422). An exception: store unchanged, "error", 500 |
| DjangoViews.ItemDetail.Get | django_service/app/views.py:57-79 | an existing key gives "success", 200 and that item; a missing key gives "not_found" and 404; an exception gives "error" and 500 |
| DjangoViews.ItemDetail.Put | django_service/app/views.py:81-110 | the key is looked up before validation; invalid data leaves the item unchanged, counts "error" and answers 400; valid data replaces exactly that item and answers 200 |
| DjangoViews.ItemDetail.Delete | django_service/app/views.py:112-134 | an existing key is removed exactly, with "success" and 204; a missing key leaves the store unchanged, with "not_found" and 404 |
| DjangoViews.RootView.Get | django_service/app/views.py:142-145 | returns 200 `{"Hello": "World"}`, logs one record outside any log id, and cannot touch the counter |

## Left out

- Counter atomicity under concurrent increments, and the text exposition of the counters
  (`generate_latest`, the two `/metrics` handlers). The counter is a sequential map. Exposition is
  rendering done by the metrics library.
- The logger's configuration and sink: file creation, rotation and the enqueued writer. Timestamps
  and the record format are also left out. The log is an appended sequence of records.
  `contextualize` is modelled by passing the bound log id to each call. A record logged outside any
  block carries `None`.
- `uuid4`: each log id is a parameter of the hook or handler that draws it. Nothing forces two hooks
  to receive different ids.
- `async`/`await` of `call_next`. The middleware is one sequential call, and the downstream outcome
  is a parameter. Log records written by the downstream handler itself are not part of the trail
  modelled here.
- `BaseException`s that `except Exception` does not catch, such as a cancelled task. Then
  `finally: return response` reads an unbound local. Only `Exception` outcomes are modelled.
- Exceptions raised inside the handlers' own `except` blocks, which Python's `finally`/`return`
  semantics would decide.
- The Django request pipeline that calls the hooks. Under it, an exception goes through
  `process_exception` and then becomes a 500 response that `process_response` counts too.
- The Django ORM, the item model, serializer validation rules and pydantic schemas. The serializer's
  decision is a `Verdict` parameter. An item is its serialized JSON. The list body is the table
  keyed by primary key, because the queryset order is not modelled.
- DjangoViews.ItemList.Post: an unexpected exception is modelled as raised before validation and
  saving, so it leaves the table unchanged. For the detail views, `fault` is raised at the first
  database access (`Item.objects.get`), before any counter bump. For the item list, it is raised when
  `serializer.data` runs the lazy query, after the `"success"` bump.
- `fastapi_service/routers/items.py` and `users.py`: they return fixed data, and their `try` bodies
  cannot raise. The URL tables are routing data interpreted by the frameworks.
