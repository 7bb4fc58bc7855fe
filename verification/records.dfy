/**
 * The request bodies of the two POST handlers, the Python dicts the handlers build from them
 * (`prediction.dict()` plus `"id"`, `feedback.dict()`), and how `json.dump` turns such a dict
 * into a stored JSON document.
 */
module Records {
  import opened Wrappers
  import opened Json
  import Clock

  /** The `Prediction` request body (api/app.py, class Prediction). */
  datatype Prediction = Prediction(
    modelVersion: string,
    prediction: real,
    features: map<string, Json>,
    timestamp: Clock.DateTime,
    metadata: map<string, Json>)

  /** The `Feedback` request body (api/app.py, class Feedback). */
  datatype Feedback = Feedback(
    predictionId: string,
    actualValue: real,
    timestamp: Clock.DateTime,
    metadata: map<string, Json>)

  /** A value of a dict returned by a pydantic `.dict()`: JSON data, or a `datetime` object. */
  datatype PyValue = PyJson(json: Json) | PyDateTime(time: Clock.DateTime)

  type PyDict = map<string, PyValue>

  /** The keys of `prediction.dict()`, one per field of the request body. */
  const PredictionKeys: set<string> :=
    {"model_version", "prediction", "features", "timestamp", "metadata"}

  const FeedbackKeys: set<string> := {"prediction_id", "actual_value", "timestamp", "metadata"}

  /** `prediction.dict()` with `"id"` added: pydantic leaves the `timestamp` a `datetime`. */
  function PredictionDict(p: Prediction, id: string): (d: PyDict)
    ensures d.Keys == PredictionKeys + {"id"}
  {
    map[
      "model_version" := PyJson(JString(p.modelVersion)),
      "prediction" := PyJson(JNumber(p.prediction)),
      "features" := PyJson(JObject(p.features)),
      "timestamp" := PyDateTime(p.timestamp),
      "metadata" := PyJson(JObject(p.metadata)),
      "id" := PyJson(JString(id))]
  }

  /** `feedback.dict()`. */
  function FeedbackDict(f: Feedback): (d: PyDict)
    ensures d.Keys == FeedbackKeys
  {
    map[
      "prediction_id" := PyJson(JString(f.predictionId)),
      "actual_value" := PyJson(JNumber(f.actualValue)),
      "timestamp" := PyDateTime(f.timestamp),
      "metadata" := PyJson(JObject(f.metadata))]
  }

  /** The `TypeError` text `json.dump` raises on a `datetime` value. */
  const NotSerializable: string := "Object of type datetime is not JSON serializable"

  predicate HoldsDateTime(d: PyDict) {
    exists k :: k in d && d[k].PyDateTime?
  }

  /**
   * `json.dump(d, f)` as the handlers call it, with the default encoder: it fails on the first
   * `datetime` it meets, and otherwise writes the dict as a JSON object.
   */
  function DumpAsWritten(d: PyDict): (r: Result<Json, string>)
    ensures r.Failure? <==> HoldsDateTime(d)
    ensures r.Failure? ==> r.error == NotSerializable
    ensures r.Success? ==> r.value.JObject? && r.value.fields.Keys == d.Keys
  {
    if HoldsDateTime(d) then Failure(NotSerializable)
    else Success(JObject(map k | k in d :: d[k].json))
  }

  /** One dict value as JSON, with a `datetime` written as its `isoformat()` text. */
  function ToJson(v: PyValue): Json {
    match v
    case PyJson(j) => j
    case PyDateTime(t) => JString(Clock.IsoFormat(t))
  }

  /** The serialisation the handlers need: every value, `datetime`s included, becomes JSON. */
  function Dump(d: PyDict): (r: Json)
    ensures r.JObject? && r.fields.Keys == d.Keys
  {
    JObject(map k | k in d :: ToJson(d[k]))
  }

  /** Where the default encoder succeeds, it writes what `Dump` writes. */
  lemma DumpAgreesWithDefaultEncoder(d: PyDict)
    ensures DumpAsWritten(d).Success? ==> DumpAsWritten(d).value == Dump(d)
  {
  }

  /** The prediction record as stored: `prediction.dict()` with its `"id"`, serialised. */
  function EncodePrediction(p: Prediction, id: string): (doc: Json)
    ensures doc.JObject? && doc.fields.Keys == PredictionKeys + {"id"}
    ensures doc.fields["id"] == JString(id)
  {
    Dump(PredictionDict(p, id))
  }

  /** The feedback record as stored. */
  function EncodeFeedback(f: Feedback): (doc: Json)
    ensures doc.JObject? && doc.fields.Keys == FeedbackKeys
    ensures doc.fields["prediction_id"] == JString(f.predictionId)
  {
    Dump(FeedbackDict(f))
  }

  /** A JSON object's member as a string, if it is one. */
  function StringField(o: map<string, Json>, key: string): Option<string> {
    if key in o && o[key].JString? then Some(o[key].s) else None
  }

  function NumberField(o: map<string, Json>, key: string): Option<real> {
    if key in o && o[key].JNumber? then Some(o[key].n) else None
  }

  function ObjectField(o: map<string, Json>, key: string): Option<map<string, Json>> {
    if key in o && o[key].JObject? then Some(o[key].fields) else None
  }

  function TimeField(o: map<string, Json>, key: string): Option<Clock.DateTime> {
    var s := StringField(o, key);
    if s.None? then None else Clock.ParseIsoFormat(s.value)
  }

  /** Reads a stored prediction record back into the request fields and the id. */
  function DecodePrediction(doc: Json): Option<(Prediction, string)> {
    if !doc.JObject? then None else
    var o := doc.fields;
    var v, x, fs := StringField(o, "model_version"), NumberField(o, "prediction"), ObjectField(o, "features");
    var t, m, id := TimeField(o, "timestamp"), ObjectField(o, "metadata"), StringField(o, "id");
    if v.None? || x.None? || fs.None? || t.None? || m.None? || id.None? then None
    else Some((Prediction(v.value, x.value, fs.value, t.value, m.value), id.value))
  }

  /** Reads a stored feedback record back into the request fields. */
  function DecodeFeedback(doc: Json): Option<Feedback> {
    if !doc.JObject? then None else
    var o := doc.fields;
    var pid, y := StringField(o, "prediction_id"), NumberField(o, "actual_value");
    var t, m := TimeField(o, "timestamp"), ObjectField(o, "metadata");
    if pid.None? || y.None? || t.None? || m.None? then None
    else Some(Feedback(pid.value, y.value, t.value, m.value))
  }

  /** Each member of the stored prediction record, as `Dump` writes it. */
  lemma EncodedPredictionMembers(p: Prediction, id: string)
    ensures var o := EncodePrediction(p, id).fields;
      && o["model_version"] == JString(p.modelVersion)
      && o["prediction"] == JNumber(p.prediction)
      && o["features"] == JObject(p.features)
      && o["timestamp"] == JString(Clock.IsoFormat(p.timestamp))
      && o["metadata"] == JObject(p.metadata)
      && o["id"] == JString(id)
  {
  }

  /**
   * The stored prediction record is the submitted fields plus the id, and nothing is lost:
   * reading it back gives the request and the id again.
   */
  lemma PredictionRoundTrip(p: Prediction, id: string)
    requires Clock.Valid(p.timestamp)
    ensures DecodePrediction(EncodePrediction(p, id)) == Some((p, id))
  {
    var o := EncodePrediction(p, id).fields;
    EncodedPredictionMembers(p, id);
    Clock.IsoFormatRoundTrip(p.timestamp);
    assert TimeField(o, "timestamp") == Some(p.timestamp);
  }

  /** The stored feedback record reads back as the submitted feedback. */
  lemma FeedbackRoundTrip(f: Feedback)
    requires Clock.Valid(f.timestamp)
    ensures DecodeFeedback(EncodeFeedback(f)) == Some(f)
  {
    var d := FeedbackDict(f);
    var o := EncodeFeedback(f).fields;
    assert o["actual_value"] == ToJson(d["actual_value"]) == JNumber(f.actualValue);
    assert o["timestamp"] == ToJson(d["timestamp"]) == JString(Clock.IsoFormat(f.timestamp));
    assert o["metadata"] == ToJson(d["metadata"]) == JObject(f.metadata);
    Clock.IsoFormatRoundTrip(f.timestamp);
  }

  /** As written, serialising any prediction record raises, because of its `timestamp`. */
  lemma PredictionDumpAsWrittenFails(p: Prediction, id: string)
    ensures DumpAsWritten(PredictionDict(p, id)) == Failure(NotSerializable)
  {
  }

  /** As written, serialising any feedback record raises, because of its `timestamp`. */
  lemma FeedbackDumpAsWrittenFails(f: Feedback)
    ensures DumpAsWritten(FeedbackDict(f)) == Failure(NotSerializable)
  {
  }
}
