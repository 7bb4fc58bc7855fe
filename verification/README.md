# Prediction and feedback recording of the MLOps monitor API

This project models the part of the MLOps monitoring API that records predictions and their
ground-truth feedback. It covers three things:

- `POST /api/v1/predictions` (`record_prediction`) builds a prediction id from the model
  version and the clock. It writes the prediction as `feedback_data/predictions/{id}.json` and
  queues a data-drift check on the prediction's features.
- `POST /api/v1/feedback` (`record_feedback`) checks that the referenced prediction file
  exists and loads it. It writes the feedback as `feedback_data/actual_outcomes/{id}.json` and
  queues a model-drift check, then a metrics calculation.
- `GET /api/v1/drift/data` (`get_data_drift`) serves the newest data-drift report.
  `POST /api/v1/alerts/config` (`set_alert_config`) echoes an alert rule back.

`dashboards/alerts_dashboard.py` is a verbatim copy of `api/app.py`. The same members model
both files, and lines 104-169 correspond one for one.

As written, neither POST handler ever succeeds. `json.dump` cannot serialise the `datetime`
timestamp of the request, so every call that gets that far answers 500 and leaves a truncated
file (see "## Findings"). The model holds both versions:

- The as-written handlers (`RecordPredictionAsWritten`, `RecordFeedbackAsWritten`) do exactly this.
- The corrected handlers (`RecordPrediction`, `RecordFeedback`) write the timestamp as
  `isoformat()` text and otherwise follow the code, including what the code does not guarantee.

The corrected handlers keep these properties of the code:

- Two predictions for one model version within one second get the same id. The second silently
  replaces the first.
- A repeated feedback replaces the earlier one.
- Nothing is de-duplicated: every successful call appends its tasks.

Nothing in the code rejects a duplicate prediction id or a repeated feedback. Tasks are not
dispatched at most once, failed writes are not retried, and nothing reconciles the stores, so
the model has none of this either. The one invariant the handlers keep is referential integrity:
every stored feedback belongs to a stored prediction (`MonitorApi.Consistent`). Feedback is
written only after the prediction file was found, and no handler removes a prediction.

Modules:

- `Clock`: Python `datetime` values with microseconds. Also the compact `%Y%m%d%H%M%S` stamp
  and `isoformat()`, each with a reader that inverts it.
- `Records`: the request bodies and the dicts the handlers build from them (`prediction.dict()`
  plus `"id"`, and `feedback.dict()`). It has `json.dump` as the handlers call it
  (`DumpAsWritten`) and the serialisation the handlers need (`Dump`).
- `App`: the prediction id and the class `MonitorApi`. Its fields are the two record
  directories (maps from id to file) and the sequence of background tasks. Its methods are the
  two handlers.
- `Endpoints`: `get_data_drift` and `set_alert_config` as pure functions.
- `Json`, `Http`, `Wrappers`: JSON values and files, HTTP errors, and `Option` / `Result`.

Inputs that the source takes from its environment are parameters here:

- The clock reading is `now`.
- An exception from `os.makedirs` or `open` is `fault`, the exception's text. It is raised
  before anything is written.
- The reports directory is `None` when it is missing. Otherwise it is its listing, with each
  entry's name, modification time and file.

## Model

| member | source | states |
|---|---|---|
| `App.PredictionId` | api/app.py:109-111 | the id is as long as the model version plus 15, with a dash right after the version text followed by 14 decimal digits |
| `App.PredictionIdParts` | api/app.py:109-111 | the id starts with the model version itself, and the text after the dash reads back as the clock reading truncated to the second |
| `App.PredictionIdCollision` | dashboards/alerts_dashboard.py:109-111 | two ids are equal exactly when the model versions are equal and the clock readings fall in the same second; microseconds never tell predictions apart |
| `Clock.Strftime` | api/app.py:110 | `%Y%m%d%H%M%S` gives 14 decimal digits for four-digit years |
| `Clock.StrftimeRoundTrip` | api/app.py:110 | the stamp reads back as the clock reading truncated to the second |
| `Clock.StrftimeSameSecond` | api/app.py:110 | two readings give the same stamp if and only if they fall in the same second |
| `Clock.Digits` | api/app.py:110 | zero-padded printing gives exactly `width` decimal digits |
| `Clock.DigitsRoundTrip` | api/app.py:110 | a zero-padded number reads back as the number when it fits the width |
| `Clock.ParseStamp` | api/app.py:110 | not a model of code in the service: the inverse of the stamp printed here, used to state what the stamp keeps; it yields only valid four-digit-year instants with no microseconds |
| `Clock.IsoFormat` | api/app.py:52-54 | the text form of a record's `timestamp` field has 19 characters, or 26 with microseconds |
| `Clock.ParseIsoFormat` | api/app.py:61-63 | not a model of code in the service: the inverse of `isoformat()` for the `timestamp` field, used to state what the stored text keeps; it yields only valid datetimes |
| `Clock.IsoFormatRoundTrip` | api/app.py:52-54 | a timestamp written as `isoformat()` text reads back as the same datetime |
| `Records.PredictionDict` | api/app.py:114-115 | the dict holds the five request fields plus `"id"` |
| `Records.FeedbackDict` | api/app.py:153 | the dict holds the four feedback fields |
| `Records.DumpAsWritten` | api/app.py:122-123 | `json.dump` with the default encoder fails if and only if a value is a `datetime`, with the `TypeError` text; otherwise it writes an object with the same keys |
| `Records.PredictionDumpAsWrittenFails` | api/app.py:114-123 | as written, serialising any prediction record raises "Object of type datetime is not JSON serializable" |
| `Records.FeedbackDumpAsWrittenFails` | api/app.py:153-156 | as written, serialising any feedback record raises the same `TypeError` |
| `Records.Dump` | api/app.py:123 | the corrected serialisation always succeeds and keeps every key |
| `Records.DumpAgreesWithDefaultEncoder` | dashboards/alerts_dashboard.py:123 | where the default encoder succeeds, it writes exactly what the corrected serialisation writes |
| `Records.EncodePrediction` | api/app.py:114-115 | the stored prediction record has the request's keys plus `"id"`, and `"id"` holds the id returned to the caller |
| `Records.EncodeFeedback` | api/app.py:153-156 | the stored feedback record has the four feedback keys and names the prediction it refers to |
| `Records.EncodedPredictionMembers` | api/app.py:114-115 | each member of the stored prediction record is the submitted field, the timestamp as `isoformat()` text, and `"id"` is the id |
| `Records.PredictionRoundTrip` | api/app.py:114-123 | the stored prediction record reads back as exactly the submitted fields and the id |
| `Records.FeedbackRoundTrip` | api/app.py:153-156 | the stored feedback record reads back as exactly the submitted feedback |
| `Json.Load` | api/app.py:146-147 | loading succeeds exactly on a complete file and yields its content |
| `App.MonitorApi.RecordPrediction` | api/app.py:104-133 | the corrected handler (as written, every call without a fault answers 500 instead, see `RecordPredictionAsWritten`): on success, returns the id and status "recorded", overwrites whatever record had that id, leaves feedback alone and appends exactly one data-drift task on the features; on an exception, a 500 with its text and no change; every stored feedback still belongs to a stored prediction |
| `App.MonitorApi.RecordFeedback` | api/app.py:136-169 | the corrected handler (as written, the success path answers 500 instead, see `RecordFeedbackAsWritten`): unknown id: the 404 "Prediction ID not found" unchanged, no write, no task; unreadable prediction file or exception: a 500 and no change; otherwise the feedback replaces any earlier one under that id, the prediction records are unchanged, and model drift then metrics are appended, both on the loaded prediction record and `feedback.dict()`; every stored feedback still belongs to a stored prediction |
| `App.MonitorApi.RecordPredictionAsWritten` | dashboards/alerts_dashboard.py:104-133 | as written, every call without an I/O fault answers 500 with the `TypeError` text, leaves a truncated file under the id and queues nothing; every stored feedback still belongs to a stored prediction |
| `App.MonitorApi.RecordFeedbackAsWritten` | dashboards/alerts_dashboard.py:136-169 | as written, the 404 and load-failure paths are the same as in `RecordFeedback`; past them the feedback file is left truncated, the answer is 500 and no task is queued; every stored feedback still belongs to a stored prediction |
| `App.MonitorApi.RecordTwoPredictionsInOneSecond` | dashboards/alerts_dashboard.py:109-126 | with the corrected handler, same version and same second: both calls return that version's id for that second, only the second record survives, stored feedback is untouched, and two data-drift tasks are queued (as written, both calls answer 500 and one truncated file is left under the id) |
| `App.MonitorApi.RecordFeedbackTwice` | dashboards/alerts_dashboard.py:141-160 | with the corrected handler, two feedbacks for one existing prediction both succeed (as written, both answer 500), the second replaces the first, the prediction is untouched, and four tasks are queued in call order |
| `Endpoints.LatestIndex` | api/endpoints.py:79-82 | the chosen report has the greatest mtime, and every report listed before it is strictly older |
| `Endpoints.FirstLatestUnique` | api/endpoints.py:80-82 | exactly one index satisfies "newest, and first among the newest", so the choice is determined |
| `Endpoints.GetDataDrift` | api/endpoints.py:63-90 | missing or empty directory: `{"data_drift": []}`; otherwise the content of the first report with the greatest mtime, or a 500 when that file does not parse |
| `Endpoints.SetAlertConfig` | api/endpoints.py:147-161 | for every rule, whatever its condition or severity text, the answer is status "success" and a config that reads back as the submitted rule |

## Left out

- FastAPI wiring is not modelled: the app, CORS, router registration, the global exception
  handler, startup and shutdown hooks, `/health`, `/version`, configuration loading and logging.
  Request validation by pydantic (a 422 for a malformed body) is transport as well.
- `src/api/app.py` has decorators with no handler bodies under them, so there is nothing there
  to model.
- The mock endpoints `get_metrics`, `get_model_drift`, `get_alerts` and `get_system_status`
  return constants and are not modelled.
- The background tasks are not run. `scripts.data_drift`, `scripts.model_drift` and
  `scripts.performance` are not part of this model. Only the enqueued calls are modelled:
  which function, which arguments, and in what order.
- Filesystem and JSON text are abstract. A directory is a map from id to file, and a file is
  complete or truncated. Paths built from ids are not modelled: an id containing `/` or `..`
  names a file elsewhere, and the `open` failure this can cause is covered only by the `fault`
  parameter.
- Exceptions: `fault` stands for an exception raised before anything is written. The only
  partial write modelled is the `datetime` serialisation failure below.
- Key order in dicts and JSON objects is not modelled, since objects are maps. Floats are
  `real` with no arithmetic.
- Concurrency is not modelled. Each handler call is one atomic step, so interleavings of
  concurrent requests that touch the same files are left out.
- `App.PredictionId`: requires a year from 1000 to 9999, because the C library decides how
  `%Y` pads smaller years.
- `Clock.ParseStamp`: is the inverse of the stamp used to state what the stamp retains, not
  Python's `strptime`, which also accepts single-digit fields.
- `Json.Load`: the 500 detail for a file that does not parse is a fixed stand-in. The real
  `JSONDecodeError` text names a line and a column.
- `Endpoints.GetDataDrift`: does not model a report that disappears between `os.listdir` and
  `getmtime` or `open`, which ends in a 500 in the source. A subdirectory of the reports directory
  is not modelled either: `getmtime` accepts it, so it matters only when it is the newest entry,
  and then `open` fails with a 500.
- Time zones: pydantic also accepts time-zone-aware request timestamps (api/app.py:52-54,
  61-63). `Clock.DateTime` is naive, so such timestamps and the offset `isoformat()` would add
  to them are not modelled.

## Findings

| source | as written | input that shows it | evidently intended | confidence | as-written member | corrected member |
|---|---|---|---|---|---|---|
| api/app.py:114-123 (same lines in dashboards/alerts_dashboard.py) | `prediction.dict()` keeps `timestamp` as a `datetime` object. `json.dump` with the default encoder raises `TypeError` on it, after `open(..., "w")` has already created the file | any valid prediction, e.g. model version "v1", prediction 0.8, features {"x": 1}, timestamp defaulted: the answer is 500 "Object of type datetime is not JSON serializable", a truncated file is left under the id, and no data-drift task is queued | the record is stored as JSON (timestamp as text), the id is returned and one data-drift task is queued; `Records.PredictionRoundTrip` proves the stored record reads back as the request plus the id | high, not executed | `App.MonitorApi.RecordPredictionAsWritten` | `App.MonitorApi.RecordPrediction` |
| api/app.py:153-156 (same lines in dashboards/alerts_dashboard.py) | `feedback.dict()` keeps `timestamp` as a `datetime`, so `json.dump` of the feedback raises in the same way | feedback for an id whose prediction file is complete: the answer is 500 with the same text, the feedback file is left truncated, and neither task is queued | the feedback is stored, then model drift and metrics are queued; `Records.FeedbackRoundTrip` proves the stored feedback reads back unchanged | high, not executed | `App.MonitorApi.RecordFeedbackAsWritten` | `App.MonitorApi.RecordFeedback` |
