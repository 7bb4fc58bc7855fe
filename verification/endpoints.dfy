/**
 * The two endpoints of the `/api/v1` router that compute anything: `GET /drift/data`, which
 * serves the most recently modified data-drift report, and `POST /alerts/config`, which echoes
 * an alert rule back (api/endpoints.py).
 */
module Endpoints {
  import opened Wrappers
  import opened Json
  import opened Http

  /** One entry of `os.listdir("feedback_data/drift_reports")`, with its `getmtime` and file. */
  datatype ReportEntry = ReportEntry(name: string, mtime: real, file: JsonFile)

  /**
   * `k` is where `max(reports, key=getmtime)` stops: no listed report is newer, and every
   * report listed before it is strictly older (Python's `max` keeps the first maximal item).
   */
  predicate IsFirstLatest(reports: seq<ReportEntry>, k: int) {
    && 0 <= k < |reports|
    && (forall j :: 0 <= j < |reports| ==> reports[j].mtime <= reports[k].mtime)
    && (forall j :: 0 <= j < k ==> reports[j].mtime < reports[k].mtime)
  }

  /**
   * `max(reports, key=...)`: a left-to-right scan that replaces the best item only when the
   * next one has a strictly greater key.
   */
  function LatestIndex(reports: seq<ReportEntry>): (k: nat)
    requires |reports| > 0
    ensures IsFirstLatest(reports, k)
  {
    if |reports| == 1 then 0
    else
      var best := LatestIndex(reports[..|reports| - 1]);
      if reports[|reports| - 1].mtime > reports[best].mtime then |reports| - 1 else best
  }

  /** At most one index is the first latest report, so the choice is the one `max` makes. */
  lemma FirstLatestUnique(reports: seq<ReportEntry>, k: int)
    requires |reports| > 0
    ensures IsFirstLatest(reports, k) <==> k == LatestIndex(reports)
  {
  }

  /** `{"data_drift": data}`. */
  function DriftBody(data: Json): Json {
    JObject(map["data_drift" := data])
  }

  /** The answer when there is no report: `{"data_drift": []}`. */
  const NoDrift: Json := DriftBody(JArray([]))

  /**
   * `get_data_drift`. `reports` is `None` when the reports directory does not exist, and
   * otherwise its listing in `os.listdir` order. It only reads: the listing is not changed.
   */
  function GetDataDrift(reports: Option<seq<ReportEntry>>): (r: Result<Json, HttpError>)
    ensures reports.None? ==> r == Success(NoDrift)
    ensures reports == Some([]) ==> r == Success(NoDrift)
    ensures reports.Some? && reports.value != [] ==>
      exists k :: IsFirstLatest(reports.value, k) &&
        match reports.value[k].file
        case Complete(data) => r == Success(DriftBody(data))
        case Truncated => r == Failure(HttpError(500, DecodeError))
  {
    match reports
    case None => Success(NoDrift)
    case Some(listing) =>
      if listing == [] then Success(NoDrift)
      else
        var k := LatestIndex(listing);
        var loaded := Load(listing[k].file);
        if loaded.Failure? then Failure(HttpError(500, loaded.error))
        else Success(DriftBody(loaded.value))
  }

  /** The `AlertConfig` request body. `condition` and `severity` are free text. */
  datatype AlertConfig = AlertConfig(metricName: string, threshold: real, condition: string, severity: string)

  /** `config.dict()`. */
  function ConfigDict(c: AlertConfig): Json {
    JObject(map[
      "metric_name" := JString(c.metricName),
      "threshold" := JNumber(c.threshold),
      "condition" := JString(c.condition),
      "severity" := JString(c.severity)])
  }

  /** Reads an alert rule back from its dict form. */
  function DecodeAlertConfig(j: Json): Option<AlertConfig> {
    if j.JObject? && "metric_name" in j.fields && j.fields["metric_name"].JString?
       && "threshold" in j.fields && j.fields["threshold"].JNumber?
       && "condition" in j.fields && j.fields["condition"].JString?
       && "severity" in j.fields && j.fields["severity"].JString?
    then Some(AlertConfig(j.fields["metric_name"].s, j.fields["threshold"].n,
                          j.fields["condition"].s, j.fields["severity"].s))
    else None
  }

  /**
   * `set_alert_config`: stores nothing, accepts every condition and severity text, answers
   * `"success"` and hands the submitted rule back unchanged.
   */
  function SetAlertConfig(c: AlertConfig): (r: Json)
    ensures r.JObject? && r.fields.Keys == {"status", "message", "config"}
    ensures r.fields["status"] == JString("success")
    ensures DecodeAlertConfig(r.fields["config"]) == Some(c)
  {
    JObject(map[
      "status" := JString("success"),
      "message" := JString("告警 " + c.metricName + " 配置成功"),
      "config" := ConfigDict(c)])
  }
}
