# Bulkhead gateway and its forwarding services, in Dafny

This project models the request-handling core of a small set of Django
services built around the bulkhead pattern:

- **bulkhead**: a gateway that sends GET traffic to a read database and POST
  traffic to a write database. Each path is gated by an enabled flag kept in a
  `ServiceStatus` table. A control endpoint flips a flag, and a status
  endpoint reports both flags.
- **escribir** (the write service): forwards report writes to its database
  and logs every forwarded operation in a `WriteOperation` table. It offers
  bulk create and bulk update built from single forwards, plus statistics and
  health answers computed from the log.
- **lectura** (the read service): forwards GET requests only, with its own
  `ReadOperation` log. It shapes the query string of the filter view and of
  the by-author, by-category and by-status views.
- **database**: the endpoints a database server exposes. `SERVER_TYPE`
  decides whether writes, reads or both are allowed. A write validates its
  JSON body and inserts a row. A read looks up one row by id or hands over to
  pagination.

How the model is built:

- **Upstream HTTP.** Every call goes through an abstract `Network`, a
  function from the call number and the outbound request to a reply. A reply
  is a status with content (none, a JSON document, or bytes that do not
  decode) or a transport failure.
- **State.** Each service is a class. It records the requests it has sent,
  so "no upstream call" means `sent` is unchanged. Where the source keeps a
  log or a table, the class holds it too.
- **Pure decisions** are functions: the 503/400/500 branches, the
  toggle-name check, the `SERVER_TYPE` guards, write validation and the id
  lookup.
- **Loops** are methods with loop invariants: the bulk create and update
  loops, and the loop over the filter fields. Each method is proved against a
  recursive specification (`CreateRun`, `UpdateRun`) or against properties it
  states outright. Lemmas prove what the source promises about those
  specifications.

Modules:

| module | file | models |
|---|---|---|
| `Http` | `http.dfy` | JSON values, request bodies, the `Network`, outbound requests, responses |
| `PyText` | `pytext.dfy` | Python's `str.upper`, `in` on strings, `str(int)` and `int(str)`, ASCII only |
| `ServiceStatusModel` | `service_status.dfy` | `bulkhead/models.py` |
| `Bulkhead` | `bulkhead.dfy` | `bulkhead/views.py` |
| `Forwarding` | `forwarding.dfy` | what the two `forward_to_database` functions share: the operation log, the relay of a reply, the statistics and health answers |
| `Escribir` | `escribir.dfy` | `escribir/views.py` |
| `Lectura` | `lectura.dfy` | `lectura/views.py` |
| `Database` | `database.dfy` | `database/views.py` |

How the gateway relays upstream answers:

- **Empty upstream body.** The gateway calls `response.json()` unguarded
  (bulkhead/views.py:44, 74), so an empty upstream body is answered 500 with
  `error`/`details` (`Bulkhead.Relay`). escribir and lectura guard with `if
  response.content` and answer `{}`.
- **Transport failure.** A transport failure at the gateway is always
  answered 500 (bulkhead/views.py:46-50, 76-80).

Assumptions about library behaviour:

- **requests 2.27 or later.** A body that does not decode makes
  `response.json()` raise `requests.JSONDecodeError`, which is a
  `RequestException`. So at the gateway it becomes the 500 answer. In escribir
  and lectura it is caught after the first log row was written, so that call
  logs two rows and answers 502.
- **Request bodies that do not decode.** `json.loads` on bytes detects the
  encoding: UTF-8 unless a byte-order mark or the pattern of null bytes marks
  UTF-16 or UTF-32. Bytes that do not decode in the detected encoding raise
  `UnicodeDecodeError`, which is not a `JSONDecodeError`; a UTF-16 or UTF-32
  body that decodes is read like any other. `BulkheadView.post`
  catches neither, so the framework answers 500; `toggle_service` and
  `write_data` answer 500 with the codec's message.
- **JsonResponse of a non-dict.** `JsonResponse` raises for anything but a
  dict, so the gateway answers the framework's own 500 page
  (`Response.ServerError`).

## Model

| member | source | states |
|---|---|---|
| `Http.Loads` | bulkhead/views.py:87 | `json.loads` succeeds exactly on a body holding a JSON document; an empty body or text that is not JSON is a `JSONDecodeError`, bytes that do not decode in the encoding `json.loads` detects (UTF-8 unless a byte-order mark or null bytes mark UTF-16/32) a `UnicodeDecodeError` carrying the codec's message |
| `Http.JsonArgument` | escribir/views.py:21 | requests' `json=` sends no body for None and the value otherwise |
| `PyText.Upper` | bulkhead/views.py:88 | upper-casing keeps the length and maps each ASCII lower-case letter to its capital, 32 code points lower, leaving other characters |
| `PyText.UpperIdempotent` | bulkhead/views.py:88 | upper-casing an upper-cased name changes nothing |
| `PyText.IntToDecimal` | escribir/views.py:116 | `str(i)` is non-empty and starts with a digit exactly when `i >= 0` |
| `PyText.ParseInt` | database/views.py:68 | `int(s)` yields a value exactly for a non-empty run of digits with an optional sign, and the digits' value for unsigned digits |
| `PyText.ParseIntOfDecimal` | database/views.py:68 | `int(str(i)) == i` for every integer |
| `ServiceStatusModel.NewServiceStatus` | bulkhead/models.py:6-7 | a row created with only its name is enabled |
| `ServiceStatusModel.StrReflectsFlag` | bulkhead/models.py:10-11 | `str(row)` is `"<name>: Enabled"` exactly when the flag is set and `"<name>: Disabled"` exactly when it is not |
| `ServiceStatusModel.StrInjective` | bulkhead/models.py:10-11 | two rows with the same string form are the same row |
| `ServiceStatusModel.Rows` | bulkhead/models.py:4-7 | the rows of the table are exactly the name/flag pairs of the map |
| `ServiceStatusModel.AtMostOneRowPerName` | bulkhead/models.py:6 | no two rows share a service name |
| `Bulkhead.AfterLookup` | bulkhead/views.py:16-24 | a lookup adds the name if missing, enabled, and leaves every existing row alone |
| `Bulkhead.AfterToggle` | bulkhead/views.py:93-100 | a toggle negates the named flag, a missing row counting as enabled, and changes no other row |
| `Bulkhead.ToggleTwiceRestores` | bulkhead/views.py:93-100 | toggling twice restores the flag and leaves the table a lookup would have left |
| `Bulkhead.LookupPreservesFlags` | bulkhead/views.py:16-24 | a lookup changes no flag that any later lookup reports |
| `Bulkhead.Unavailable` | bulkhead/views.py:33-36 | the disabled answer is 503 with `status: disabled` |
| `Bulkhead.GetDecision` | bulkhead/views.py:32-42 | GET is rejected exactly when its flag is off, with the 503; otherwise the query goes unchanged to the read database |
| `Bulkhead.PostDecision` | bulkhead/views.py:55-72 | POST with its flag off is rejected before the body is read; text that is not JSON answers 400; bytes that do not decode in the detected encoding escape as the framework's 500; exactly an empty or decodable body is forwarded, an empty one as `{}` |
| `Bulkhead.Relay` | bulkhead/views.py:44-50 | a transport failure is a 500 with `error` and `details`; an object reply passes through with its status; only a non-object reply escapes as the framework's 500 |
| `Bulkhead.TransportFailureIsStructured` | bulkhead/views.py:76-80 | a transport failure never escapes: it is a 500 naming the error and its details |
| `Bulkhead.ToggleTarget` | bulkhead/views.py:86-91 | only a name that upper-cases to GET or POST is accepted; a missing or other name answers 400, a body that is not JSON 400, bytes that do not decode in the detected encoding 500 with the codec's message, a non-object body or a non-string name 500 |
| `Bulkhead.ToggleResponse` | bulkhead/views.py:102-106 | the toggle answer names the service and its new state |
| `Bulkhead.StatusResponse` | bulkhead/views.py:119-122 | the status answer reports each flag as enabled or disabled |
| `Bulkhead.Gateway.constructor` | bulkhead/views.py:13-14 | a gateway starts with an empty table and nothing sent |
| `Bulkhead.Gateway.GetServiceStatus` | bulkhead/views.py:16-24 | returns the stored flag, or creates the row enabled and returns true |
| `Bulkhead.Gateway.Perform` | bulkhead/views.py:38-50 | a rejection sends nothing; a forward sends exactly its request and relays the reply |
| `Bulkhead.Gateway.Get` | bulkhead/views.py:29-50 | looks up GET, then answers 503 with nothing sent, or forwards once and relays |
| `Bulkhead.Gateway.Post` | bulkhead/views.py:52-80 | looks up POST, then answers 503 or 400 with nothing sent, or forwards once and relays |
| `Bulkhead.Gateway.ToggleService` | bulkhead/views.py:84-111 | a rejected name leaves the table unchanged; an accepted one is toggled and the answer reports its new state |
| `Bulkhead.Gateway.CurrentStatus` | bulkhead/views.py:113-124 | looks up GET then POST and reports both flags |
| `Bulkhead.DisabledPostScenario` | bulkhead/views.py:55-59 | after toggling "post" on a fresh gateway, a POST answers 503 and nothing is sent |
| `Bulkhead.ForwardedGetScenario` | bulkhead/views.py:38-44 | with GET enabled, the query is sent unchanged and an object reply comes back with its status |
| `Bulkhead.ReenabledPostScenario` | bulkhead/views.py:93-100 | toggling POST twice re-enables it: the next POST is sent |
| `Forwarding.Relayed` | escribir/views.py:37-45 | empty content becomes `{}` with the upstream status; decoded content passes through; a transport failure or undecodable content becomes 502 with an `error` field |
| `Forwarding.Logged` | escribir/views.py:32-44 | a forward writes one row, or two when the content does not decode, all with the forward's operation type; the first row is a success exactly when a response arrived with a status below 400, so a transport failure logs a failure, and the second row of an undecodable reply is a failure |
| `Forwarding.Exchanged` | escribir/views.py:18-37 | one forward appends exactly its request to what was sent and one or two rows to the log, answers with a body, and its last row is a success exactly when the status answered is below 400 |
| `Forwarding.LastLoggedMatchesStatus` | escribir/views.py:32-45 | the last row written is a success exactly when the status returned is below 400 |
| `Forwarding.CountWhere` | escribir/views.py:139-140 | a count of rows never exceeds the log length |
| `Forwarding.CountsPartition` | escribir/views.py:138-140 | successful and failed rows add up to the total |
| `Forwarding.SuccessRate` | escribir/views.py:146 | the rate is 0 for an empty log and otherwise a percentage between 0 and 100 |
| `Forwarding.StatsResponse` | escribir/views.py:136-147 | the statistics report the total, successful and failed counts, the last two adding up to the first, and a rate of 0 for an empty log |
| `Forwarding.HealthResponse` | escribir/views.py:159-164 | the service is healthy; its database connection is healthy exactly when the probe returned 200 |
| `Escribir.WriteRequest` | escribir/views.py:15-29 | the URL is the database URL, "/api" and the path; GET carries the query, POST/PUT/PATCH the body, DELETE neither; any other method sends nothing |
| `Escribir.WriteService.constructor` | escribir/views.py:15 | a write service starts with the database URL, an empty log and nothing sent |
| `Escribir.CreateStep` | escribir/views.py:78-86 | one pass of the create loop sends exactly the item's POST |
| `Escribir.CreateRun` | escribir/views.py:74-93 | the create loop sends one request per item and never stops early |
| `Escribir.CreateSendsEveryItem` | escribir/views.py:77-78 | item i is POSTed as the i-th request |
| `Escribir.CreateAccountsForEveryItem` | escribir/views.py:77-93 | created plus errors equals the number of items |
| `Escribir.CreateErrorsAreIndexed` | escribir/views.py:79-86 | every error entry carries the index and data of an item whose forward returned 400 or more, with the body returned, in input order |
| `Escribir.CreateReportsEveryFailure` | escribir/views.py:79-86 | every item whose forward returned 400 or more has an error entry |
| `Escribir.ItemErrorJson` | escribir/views.py:82-86 | an error entry is a dict of `index`, `error` and `data`, with `id` exactly when the item had one (escribir/views.py:121-126) |
| `Escribir.BulkResponse` | escribir/views.py:88-93 | the answer holds the count of successes, the count of errors, the successes in order and one error dict per entry, in order; the same shape answers bulk update at escribir/views.py:128-133 |
| `Escribir.UpdateStep` | escribir/views.py:106-126 | once the loop has raised nothing changes; a step raises exactly when its item does; only an item with an id sends, its PATCH; every step that does not raise accounts for its item once |
| `Escribir.UpdateRun` | escribir/views.py:106-126 | the update loop sends at most one request per item |
| `Escribir.UpdatePlan` | escribir/views.py:106-116 | the planned requests, at most one per item, end in a raise exactly when some item raises |
| `Escribir.PyStr` | escribir/views.py:116 | `str(report_id)` is the string itself for a string, reads back as the number for an integer, and is `None` for null |
| `Escribir.ActionFor` | escribir/views.py:107-115 | an item is forwarded exactly when it is an object with an `id`, as the object minus `id`; an object without `id` is an error entry; the `in` test or `pop` raising is told apart |
| `Escribir.UpdateFollowsPlan` | escribir/views.py:106-116 | what a bulk update sends, and whether it raises, depends on the items alone |
| `Escribir.PlannedPatchesOmitId` | escribir/views.py:115-116 | every request of a bulk update is a PATCH whose body has no `id` |
| `Escribir.UpdateAccountsForEveryItem` | escribir/views.py:106-133 | updated plus errors equals the number of items exactly when no item raised |
| `Escribir.UpdateErrorsAreIndexed` | escribir/views.py:107-126 | every error entry is, in input order, an item without an id reported with the item, or an item whose PATCH of that id, with the item minus its id, returned 400 or more, reported with the body returned |
| `Escribir.UpdateReportsEveryFailure` | escribir/views.py:118-126 | in a bulk update that runs to the end, every item whose PATCH returned 400 or more has an error entry with its id |
| `Escribir.UpdateCrashesExactlyWhenAnItemRaises` | escribir/views.py:106-116 | a bulk update raises exactly when some item makes the id test or `pop` raise, whatever the upstream replies |
| `Escribir.UpdateReportsEveryMissingId` | escribir/views.py:107-113 | in a bulk update that runs to the end, every item without an id has an error entry |
| `Escribir.UpdateStopsAtCrash` | escribir/views.py:106-116 | once an item raises, later items send and log nothing |
| `Escribir.WriteService.ForwardToDatabase` | escribir/views.py:12-45 | an unknown method answers (None, 405) with nothing sent or logged; otherwise one request is sent, its rows logged and the reply relayed |
| `Escribir.WriteService.CreateReport` | escribir/views.py:48-51 | one POST of the body to `/reports/`, relayed |
| `Escribir.WriteService.UpdateReport` | escribir/views.py:54-58 | PUT is forwarded as PUT and every other method as PATCH, to `/reports/<id>/` |
| `Escribir.WriteService.DeleteReport` | escribir/views.py:61-64 | one DELETE without a body, relayed |
| `Escribir.WriteService.BulkCreateReports` | escribir/views.py:67-93 | a non-list answers 400 with nothing sent; a list is sent and logged item by item as the create loop says, and answered with its counts and lists |
| `Escribir.WriteService.BulkUpdateReports` | escribir/views.py:96-133 | a non-list answers 400 with nothing sent; a list is sent and logged as the update loop says; an item that raises ends in the framework's 500 |
| `Escribir.WriteService.GetWriteStats` | escribir/views.py:136-147 | the statistics of the log, with a rate of 0 when it is empty; the log is left alone |
| `Escribir.WriteService.HealthCheck` | escribir/views.py:150-164 | probes `/health/` through the forwarder; the count reported includes the probe's own rows |
| `Lectura.ReadRequest` | lectura/views.py:14-20 | only GET is sent, to the database URL, "/api" and the path, with the query |
| `Lectura.ReadService.constructor` | lectura/views.py:14 | a read service starts with the database URL, an empty log and nothing sent |
| `Lectura.BuildFilterParams` | lectura/views.py:67-87 | the six basic fields are copied exactly when present; `created_after`/`created_before` become `created_at__gte`/`created_at__lte`; page fields pass; no other key appears |
| `Lectura.WithPathValue` | lectura/views.py:95-96 | the path value overrides the key and every other query parameter is kept |
| `Lectura.ReadService.ForwardToDatabase` | lectura/views.py:11-36 | any method but GET answers (None, 405) with nothing sent or logged; GET sends one request, logs and relays |
| `Lectura.ReadService.ListReports` | lectura/views.py:39-43 | the query goes unchanged to `/reports/` |
| `Lectura.ReadService.GetReport` | lectura/views.py:46-49 | one GET of `/reports/<id>/` without a query |
| `Lectura.ReadService.SearchReports` | lectura/views.py:52-56 | the query goes unchanged to `/search/` |
| `Lectura.ReadService.GetReportStats` | lectura/views.py:59-62 | one GET of `/stats/` without a query |
| `Lectura.ReadService.FilterReports` | lectura/views.py:65-90 | exactly one GET of `/reports/`, whose query is the filtered one |
| `Lectura.ReadService.ReportsByAuthor` | lectura/views.py:93-98 | the query with `author` set to the path value |
| `Lectura.ReadService.ReportsByCategory` | lectura/views.py:101-106 | the query with `category` set to the path value |
| `Lectura.ReadService.ReportsByStatus` | lectura/views.py:109-114 | the query with `status` set to the path value |
| `Lectura.ReadService.GetReadStats` | lectura/views.py:117-128 | the statistics of the log, with a rate of 0 when it is empty; the log is left alone |
| `Lectura.ReadService.HealthCheck` | lectura/views.py:131-145 | probes `/health/`; healthy connection exactly when the probe returned 200 |
| `Database.GuardTable` | database/views.py:17-21 | "both" allows writes and reads, "write" and "read" one side each, any other value neither |
| `Database.Forbidden` | database/views.py:53-57 | a disabled side answers 403 naming the server type |
| `Database.GetOrEmpty` | database/views.py:25-26 | a missing title or content reads as the empty string |
| `Database.WriteCheck` | database/views.py:15-48 | a row is inserted exactly when writes are allowed, the body is a JSON object, the title is truthy and the content is not null; otherwise 403 for the guard, 400 for text that is not JSON, 500 with the codec's message for bytes that do not decode in the detected encoding, 500 for a non-object, 400 for a missing title, and 500 with the NOT NULL constraint message for a null content |
| `Database.Created` | database/views.py:37-43 | the 201 answer echoes the new id, title and content |
| `Database.RowJson` | database/views.py:69-75 | a row is served with its id, title and content |
| `Database.Param` | database/views.py:61-63 | a missing query parameter takes its default |
| `Database.ReadData` | database/views.py:51-109 | 403 unless reads are allowed; pagination exactly when no id is given, page defaulting to 1 and size to 10; 200 with the row exactly when the id parses and names a row; 404 exactly when it parses and names none; 500 when it does not parse |
| `Database.RowFoundById` | database/views.py:66-75 | a row is found by its id written in decimal |
| `Database.MissingRowNotFound` | database/views.py:76-77 | an id in decimal that names no row answers 404 |
| `Database.HealthCheck` | database/views.py:111-116 | always 200, healthy, naming the server type |
| `Database.DatabaseServer.constructor` | database/models.py:5-11 | an empty write table whose next id is 1 |
| `Database.DatabaseServer.WriteData` | database/views.py:15-48 | a refused write leaves the table alone; an accepted one inserts under a fresh id, which then advances, and echoes the row with 201 |
| `Database.DatabaseServer.Read` | database/views.py:51-109 | a 200 answer comes only from a server that allows reads, for an id that parses and names a row of its read table; pagination exactly when reads are allowed and no id is given |
| `Database.ReadOnlyServerRefusesWrites` | database/views.py:17-21 | a read-only server answers 403 and inserts nothing |
| `Database.SuccessiveWritesGetIncreasingIds` | database/views.py:32-43 | two accepted writes on a fresh server get ids 1 and 2 |

## Left out

- HTTP dispatch by the framework is not modelled: `require_http_methods`, DRF's `api_view` method lists, and the 405 or HEAD handling of `View`. Neither is CSRF, nor URL routing (`*/urls.py`).
- DRF's own parsing of escribir's request body is not modelled: the `data: Json` the escribir views take is `request.data` after DRF's `JSONParser` has read it, and a body that is not JSON is answered 400 by DRF before the view runs.
- Outbound HTTP is the abstract `Network`. Headers, the 30-second timeout and the exact text of a transport error are its inputs, not modelled.
- Timestamps (`created_at`, `updated_at`, `timestamp`) are not modelled. Neither are their keys in the database answers, nor `logger.error`.
- Django's Paginator is not modelled. A read without an id ends in the `Paginate` outcome carrying the raw `page` and `page_size`.
- Concurrency is not modelled: every request runs alone. This excludes the lost-update race between two toggles.
- Store failures other than the NOT NULL constraint on `content` are not modelled. The sqlite 64-bit range of ids is not modelled either, so an id beyond it is looked up like any other.
- Floating point is not modelled: `success_rate` is an exact real, so rounding is left out. A JSON number in a request body is an exact value too. At the gateway, `json.loads` also accepts `NaN`, `Infinity` and out-of-range numbers such as `1e400` (read as `inf`); requests then refuses to serialise such a body (`InvalidJSONError`, a `RequestException`) before anything is sent, and the gateway answers 500 with `details`. escribir's only parser is DRF's strict `JSONParser`, which answers 400 for `NaN` and `Infinity` before the view runs; only an out-of-range number such as `1e400` reaches requests there, which raises `InvalidJSONError`, so escribir answers 502 with a failed log row. The model has no such values, so it cannot show a forward that never leaves.
- The `Database.ReadData` messages quote the id as `'<id>'`. Python's `repr` would escape quotes, backslashes and unprintable characters; the model does not.
- `PyText.ParseInt` reads an optional sign and ASCII digits only. Python's `int` also accepts surrounding whitespace, underscores between digits and non-ASCII digits, so such ids are answered 500 by the model instead of being looked up.
- `PyText.Upper` maps ASCII letters only. Python also maps other characters, some to ASCII letters (`'ſ'.upper() == 'S'`), so a name such as "poſt" is accepted by the source but rejected by the model.
- Escribir.PyStr renders floats, lists and objects used as report ids by placeholders, not by Python's `str`. Only the path of such a PATCH is affected.
- Bulkhead.Gateway.GetServiceStatus requires names of at most 50 characters, the column's declared length. sqlite does not enforce that length, and the views only ever look up "GET" and "POST".
- `request.GET.dict()` keeps the last value of a repeated query key. The model takes the query as that resulting map.
- `lectura/models.py` is not part of this model. The `ReadOperation` log is taken to have the same shape as `WriteOperation` (`escribir/models.py:6-9`).
- `database/serializers.py`, `populate_db.py` and the settings are not modelled. Only the defaults of `ESCRIBIR_DB_URL`, `LECTURA_DB_URL`, `WRITE_DB_IP`, `READ_DB_IP` and `SERVER_TYPE` appear, as constants.
- Escribir.WriteService.GetWriteStats states the success rate only for an empty log. Its value for a non-empty log is the one `Forwarding.SuccessRate` bounds between 0 and 100.
- Lectura.ReadService.GetReadStats states the success rate only for an empty log, as above.
