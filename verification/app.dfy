/**
 * The two recording handlers of the monitoring API: `POST /api/v1/predictions` and
 * `POST /api/v1/feedback` (api/app.py, repeated verbatim in dashboards/alerts_dashboard.py).
 */
module App {
  import opened Wrappers
  import opened Json
  import opened Http
  import Clock
  import opened Records

  /** The prediction id: the model version, a dash, and the clock reading as a compact stamp. */
  function PredictionId(modelVersion: string, now: Clock.DateTime): (id: string)
    requires Clock.HasFourDigitYear(now)
    ensures |id| == |modelVersion| + 15
    ensures id[|modelVersion|] == '-' && Clock.AllDigits(id[|modelVersion| + 1..])
  {
    modelVersion + "-" + Clock.Strftime(now)
  }

  /**
   * Ids collide exactly when the model version is the same and the clock reads the same second:
   * nothing else tells two predictions apart, and nothing else makes them collide.
   */
  lemma PredictionIdCollision(v1: string, t1: Clock.DateTime, v2: string, t2: Clock.DateTime)
    requires Clock.HasFourDigitYear(t1) && Clock.HasFourDigitYear(t2)
    ensures PredictionId(v1, t1) == PredictionId(v2, t2) <==> v1 == v2 && Clock.SameSecond(t1, t2)
  {
    var id1, id2 := PredictionId(v1, t1), PredictionId(v2, t2);
    Clock.StrftimeSameSecond(t1, t2);
    if id1 == id2 {
      assert |v1| == |v2|;
      assert v1 == id1[..|v1|] == id2[..|v2|] == v2;
      assert Clock.Strftime(t1) == id1[|v1| + 1..] == id2[|v2| + 1..] == Clock.Strftime(t2);
    }
  }

  /**
   * The id is the model version itself, then a dash, then a stamp that reads back as the clock
   * reading truncated to the second.
   */
  lemma PredictionIdParts(modelVersion: string, now: Clock.DateTime)
    requires Clock.HasFourDigitYear(now)
    ensures var id := PredictionId(modelVersion, now);
      && id[..|modelVersion|] == modelVersion
      && Clock.ParseStamp(id[|modelVersion| + 1..]) == Some(now.(microsecond := 0))
  {
    var id := PredictionId(modelVersion, now);
    assert id[..|modelVersion|] == modelVersion;
    assert id[|modelVersion| + 1..] == Clock.Strftime(now);
    Clock.StrftimeRoundTrip(now);
  }

  /**
   * What the handlers schedule on `background_tasks`, with the arguments they pass: the feedback
   * tasks get the loaded prediction record and `feedback.dict()`, `datetime` and all.
   */
  datatype Task =
    | CheckDataDrift(features: map<string, Json>)
    | CheckModelDrift(prediction: Json, feedback: PyDict)
    | CalculateMetrics(prediction: Json, feedback: PyDict)

  /** The 404 `record_feedback` raises for an unknown id and re-raises unchanged. */
  const PredictionNotFound: HttpError := HttpError(404, "Prediction ID not found")

  /** `{"prediction_id": id, "status": "recorded"}`. */
  function RecordedBody(id: string): Json {
    JObject(map["prediction_id" := JString(id), "status" := JString("recorded")])
  }

  /** `{"status": "feedback recorded"}`. */
  const FeedbackRecordedBody: Json := JObject(map["status" := JString("feedback recorded")])

  /**
   * The service state the two handlers touch. The clock reading is passed to each call, and
   * `fault`, when present, is the text of an exception that `os.makedirs` or `open(..., "w")`
   * raises before anything is written.
   */
  class MonitorApi {
    /** `feedback_data/predictions/{id}.json`, by id. */
    var predictions: map<string, JsonFile>
    /** `feedback_data/actual_outcomes/{id}.json`, by prediction id. */
    var outcomes: map<string, JsonFile>
    /** Every task added to `background_tasks`, in the order the handlers added them. */
    var tasks: seq<Task>

    /**
     * Referential integrity: every stored feedback belongs to a stored prediction. Feedback is
     * written only after the prediction file was found, and no handler removes a prediction.
     */
    predicate Consistent()
      reads this
    {
      outcomes.Keys <= predictions.Keys
    }

    constructor ()
      ensures predictions == map[] && outcomes == map[] && tasks == []
      ensures Consistent()
    {
      predictions, outcomes, tasks := map[], map[], [];
    }

    /**
     * `record_prediction`, with the record serialised so that its `timestamp` is written as
     * text. The file is written with plain overwrite: an earlier record under the same id is
     * replaced. Exactly one data-drift task is queued, on the submitted features.
     */
    method RecordPrediction(p: Prediction, now: Clock.DateTime, fault: Option<string>)
      returns (r: Result<Json, HttpError>)
      requires Clock.HasFourDigitYear(now)
      modifies this
      ensures old(Consistent()) ==> Consistent()
      ensures fault.Some? ==>
        && r == Failure(HttpError(500, fault.value))
        && predictions == old(predictions) && outcomes == old(outcomes) && tasks == old(tasks)
      ensures fault.None? ==>
        var id := PredictionId(p.modelVersion, now);
        && r == Success(RecordedBody(id))
        && predictions == old(predictions)[id := Complete(EncodePrediction(p, id))]
        && outcomes == old(outcomes)
        && tasks == old(tasks) + [CheckDataDrift(p.features)]
    {
      var id := PredictionId(p.modelVersion, now);
      if fault.Some? {
        return Failure(HttpError(500, fault.value));
      }
      var data := EncodePrediction(p, id);
      predictions := predictions[id := Complete(data)];
      tasks := tasks + [CheckDataDrift(p.features)];
      r := Success(RecordedBody(id));
    }

    /**
     * `record_feedback`, with the record serialised so that its `timestamp` is written as text.
     * An unknown id is a 404 that changes nothing; a prediction file that does not parse is a
     * 500. Otherwise the feedback replaces any earlier feedback for that id, the prediction
     * record is only read, and model drift then metrics are queued on the loaded prediction
     * record and `feedback.dict()`.
     */
    method RecordFeedback(f: Feedback, fault: Option<string>) returns (r: Result<Json, HttpError>)
      modifies this
      ensures old(Consistent()) ==> Consistent()
      ensures predictions == old(predictions)
      ensures f.predictionId !in predictions ==>
        r == Failure(PredictionNotFound) && outcomes == old(outcomes) && tasks == old(tasks)
      ensures f.predictionId in predictions && predictions[f.predictionId].Truncated? ==>
        r == Failure(HttpError(500, DecodeError)) && outcomes == old(outcomes) && tasks == old(tasks)
      ensures f.predictionId in predictions && predictions[f.predictionId].Complete? && fault.Some? ==>
        r == Failure(HttpError(500, fault.value)) && outcomes == old(outcomes) && tasks == old(tasks)
      ensures f.predictionId in predictions && predictions[f.predictionId].Complete? && fault.None? ==>
        var prediction, feedback := predictions[f.predictionId].content, FeedbackDict(f);
        && r == Success(FeedbackRecordedBody)
        && outcomes == old(outcomes)[f.predictionId := Complete(EncodeFeedback(f))]
        && tasks == old(tasks) + [CheckModelDrift(prediction, feedback), CalculateMetrics(prediction, feedback)]
    {
      if f.predictionId !in predictions {
        return Failure(PredictionNotFound);
      }
      var loaded := Load(predictions[f.predictionId]);
      if loaded.Failure? {
        return Failure(HttpError(500, loaded.error));
      }
      if fault.Some? {
        return Failure(HttpError(500, fault.value));
      }
      var prediction := loaded.value;
      var feedback := FeedbackDict(f);
      outcomes := outcomes[f.predictionId := Complete(Dump(feedback))];
      tasks := tasks + [CheckModelDrift(prediction, feedback), CalculateMetrics(prediction, feedback)];
      r := Success(FeedbackRecordedBody);
    }

    /**
     * `record_prediction` exactly as written: `json.dump` of `prediction.dict()` raises on the
     * `datetime` timestamp after `open(..., "w")` has created the file, so the handler answers
     * 500, leaves a truncated file under the id and queues nothing.
     */
    method RecordPredictionAsWritten(p: Prediction, now: Clock.DateTime, fault: Option<string>)
      returns (r: Result<Json, HttpError>)
      requires Clock.HasFourDigitYear(now)
      modifies this
      ensures old(Consistent()) ==> Consistent()
      ensures fault.Some? ==>
        && r == Failure(HttpError(500, fault.value))
        && predictions == old(predictions) && outcomes == old(outcomes) && tasks == old(tasks)
      ensures fault.None? ==>
        && r == Failure(HttpError(500, NotSerializable))
        && predictions == old(predictions)[PredictionId(p.modelVersion, now) := Truncated]
        && outcomes == old(outcomes) && tasks == old(tasks)
    {
      var id := PredictionId(p.modelVersion, now);
      if fault.Some? {
        return Failure(HttpError(500, fault.value));
      }
      PredictionDumpAsWrittenFails(p, id);
      var dumped := DumpAsWritten(PredictionDict(p, id));
      predictions := predictions[id := Truncated];
      r := Failure(HttpError(500, dumped.error));
    }

    /**
     * `record_feedback` exactly as written: past the existence check and the load, `json.dump`
     * of `feedback.dict()` raises on the `datetime` timestamp, so the feedback file is left
     * truncated, the answer is 500 and no task is queued.
     */
    method RecordFeedbackAsWritten(f: Feedback, fault: Option<string>)
      returns (r: Result<Json, HttpError>)
      modifies this
      ensures old(Consistent()) ==> Consistent()
      ensures predictions == old(predictions) && tasks == old(tasks)
      ensures f.predictionId !in predictions ==>
        r == Failure(PredictionNotFound) && outcomes == old(outcomes)
      ensures f.predictionId in predictions && predictions[f.predictionId].Truncated? ==>
        r == Failure(HttpError(500, DecodeError)) && outcomes == old(outcomes)
      ensures f.predictionId in predictions && predictions[f.predictionId].Complete? && fault.Some? ==>
        r == Failure(HttpError(500, fault.value)) && outcomes == old(outcomes)
      ensures f.predictionId in predictions && predictions[f.predictionId].Complete? && fault.None? ==>
        r == Failure(HttpError(500, NotSerializable))
        && outcomes == old(outcomes)[f.predictionId := Truncated]
    {
      if f.predictionId !in predictions {
        return Failure(PredictionNotFound);
      }
      var loaded := Load(predictions[f.predictionId]);
      if loaded.Failure? {
        return Failure(HttpError(500, loaded.error));
      }
      if fault.Some? {
        return Failure(HttpError(500, fault.value));
      }
      FeedbackDumpAsWrittenFails(f);
      var dumped := DumpAsWritten(FeedbackDict(f));
      outcomes := outcomes[f.predictionId := Truncated];
      r := Failure(HttpError(500, dumped.error));
    }

    /**
     * Two predictions for one model version within one wall-clock second: both are answered
     * with the same id, the second record silently replaces the first, and both data-drift
     * tasks are queued (nothing is de-duplicated).
     */
    method RecordTwoPredictionsInOneSecond(p1: Prediction, t1: Clock.DateTime, p2: Prediction, t2: Clock.DateTime)
      returns (r1: Result<Json, HttpError>, r2: Result<Json, HttpError>)
      requires Clock.HasFourDigitYear(t1) && Clock.HasFourDigitYear(t2)
      requires p1.modelVersion == p2.modelVersion && Clock.SameSecond(t1, t2)
      modifies this
      ensures var id := PredictionId(p1.modelVersion, t1);
        && r1 == Success(RecordedBody(id)) && r2 == r1
        && predictions == old(predictions)[id := Complete(EncodePrediction(p2, id))]
      ensures outcomes == old(outcomes)
      ensures tasks == old(tasks) + [CheckDataDrift(p1.features), CheckDataDrift(p2.features)]
    {
      var id := PredictionId(p1.modelVersion, t1);
      PredictionIdCollision(p1.modelVersion, t1, p2.modelVersion, t2);
      ghost var e1, e2 := Complete(EncodePrediction(p1, id)), Complete(EncodePrediction(p2, id));
      ghost var before := predictions;
      r1 := RecordPrediction(p1, t1, None);
      assert predictions == before[id := e1];
      r2 := RecordPrediction(p2, t2, None);
      assert predictions == before[id := e1][id := e2];
    }

    /**
     * The same prediction id given feedback twice: both calls succeed, the second feedback
     * replaces the first, and four tasks are queued, two per call.
     */
    method RecordFeedbackTwice(f1: Feedback, f2: Feedback)
      returns (r1: Result<Json, HttpError>, r2: Result<Json, HttpError>)
      requires f1.predictionId == f2.predictionId
      requires f1.predictionId in predictions && predictions[f1.predictionId].Complete?
      modifies this
      ensures r1.Success? && r2.Success?
      ensures predictions == old(predictions)
      ensures outcomes == old(outcomes)[f1.predictionId := Complete(EncodeFeedback(f2))]
      ensures var pr := predictions[f1.predictionId].content;
        var fb1, fb2 := FeedbackDict(f1), FeedbackDict(f2);
        tasks == old(tasks) + [CheckModelDrift(pr, fb1), CalculateMetrics(pr, fb1),
                               CheckModelDrift(pr, fb2), CalculateMetrics(pr, fb2)]
    {
      var id, pr := f1.predictionId, predictions[f1.predictionId].content;
      ghost var g1, g2 := Complete(EncodeFeedback(f1)), Complete(EncodeFeedback(f2));
      ghost var stored := outcomes;
      r1 := RecordFeedback(f1, None);
      assert predictions[id] == Complete(pr);
      assert outcomes == stored[id := g1];
      r2 := RecordFeedback(f2, None);
      assert outcomes == stored[id := g1][id := g2];
    }
  }
}
