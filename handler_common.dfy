/** What the Lambda handlers share: their settings, the response they
    return, how they read the patient id and the target date from the event,
    and how an exception escaping the handler becomes a response. */
module HandlerCommon {
  import opened Wrappers
  import opened Text
  import opened Dates
  import opened PyValue
  import opened S3Utils

  /** The settings the handlers read: ULTRAHUMAN_PATIENT_ID (optional) and
      the three bucket names. */
  datatype Settings = Settings(ultrahumanPatientId: Option<string>, buckets: BucketSettings)

  /** A handler's answer. `JsonBody(v)` is `json.dumps(v)`; `ErrorBody(e)` is
      `json.dumps({"status": "error", "error": str(e)})`. */
  datatype Body = JsonBody(doc: Value) | ErrorBody(error: Exception)

  datatype Response = Response(statusCode: int, body: Body)

  const PatientIdRequired := "patient_id must be provided in event or environment variables"

  /** `event.get("patient_id") or settings.ULTRAHUMAN_PATIENT_ID`, and the
      ValueError raised when that is falsy. */
  function PatientIdOf(event: seq<Entry>, settings: Settings): (r: Result<Value, Exception>)
    ensures r.Success? ==> Truthy(r.value)
    ensures r.Failure? <==>
      !Truthy(Get(event, "patient_id")) && (settings.ultrahumanPatientId.None? || settings.ultrahumanPatientId.value == "")
    ensures r.Failure? ==> r.error == ValueError(PatientIdRequired)
    ensures Truthy(Get(event, "patient_id")) ==> r == Success(Get(event, "patient_id"))
  {
    var configured := match settings.ultrahumanPatientId
                      case None => Null
                      case Some(s) => Str(s);
    var patientId := Or(Get(event, "patient_id"), configured);
    if !Truthy(patientId) then Failure(ValueError(PatientIdRequired)) else Success(patientId)
  }

  /** The error `datetime.strptime` raises for text that is not a date. */
  function StrptimeError(s: string): Exception {
    ValueError("time data '" + s + "' does not match format '%Y-%m-%d'")
  }

  /** The target date: the event's "date" parsed as YYYY-MM-DD when it is
      truthy, otherwise `fallback` (today, or yesterday, as the handler
      chooses). Text that is not a date raises ValueError; a truthy value
      that is not text raises TypeError. */
  function TargetDate(event: seq<Entry>, fallback: Date): (r: Result<Date, Exception>)
    ensures !Truthy(Get(event, "date")) ==> r == Success(fallback)
    ensures r.Failure? ==> Truthy(Get(event, "date"))
    ensures r.Success? && Truthy(Get(event, "date")) ==>
      Get(event, "date") == Str(IsoFormat(r.value))
  {
    var dateValue := Get(event, "date");
    if !Truthy(dateValue) then Success(fallback)
    else match dateValue
      case Str(s) =>
        (match ParseIso(s)
         case Some(d) => (IsoFormatOfParse(s); Success(d))
         case None => Failure(StrptimeError(s)))
      case _ => Failure(TypeError)
  }

  /** A padded date that parses is the text of the date it parses to. */
  lemma IsoFormatOfParse(s: string)
    requires ParseIso(s).Some?
    ensures IsoFormat(ParseIso(s).value) == s
  {
    var d := ParseIso(s).value;
    var t := IsoFormat(d);
    ParseFormat(d);
    Digits4Value(d.year);
    Digits2Value(d.month);
    Digits2Value(d.day);
    assert t[..4] == Digits4(d.year) && t[5..7] == Digits2(d.month) && t[8..] == Digits2(d.day);
    NumberDigits(s[..4], t[..4]);
    NumberDigits(s[5..7], t[5..7]);
    NumberDigits(s[8..], t[8..]);
    forall i | 0 <= i < 10 ensures s[i] == t[i] {
      if i < 4 { assert s[i] == s[..4][i] && t[i] == t[..4][i]; }
      else if 4 < i < 7 { assert s[i] == s[5..7][i - 5] && t[i] == t[5..7][i - 5]; }
      else if 7 < i { assert s[i] == s[8..][i - 8] && t[i] == t[8..][i - 8]; }
    }
  }

  /** Two digit strings of the same length and value are the same text. */
  lemma {:induction false} NumberDigits(a: string, b: string)
    requires |a| == |b|
    requires forall i :: 0 <= i < |a| ==> IsDigit(a[i]) && IsDigit(b[i])
    requires Number(a) == Number(b)
    ensures a == b
    decreases |a|
  {
    if a != [] {
      var n := |a| - 1;
      NumberDigits(a[..n], b[..n]);
      assert a == a[..n] + [a[n]] && b == b[..n] + [b[n]];
    }
  }

  /** An exception that escapes the handler's body: `except ValueError`
      answers 400, `except Exception` answers 500. */
  function ErrorResponse(e: Exception): (r: Response)
    ensures r.statusCode == 400 <==> e.IsValueError()
    ensures r.statusCode == 400 || r.statusCode == 500
    ensures r.body == ErrorBody(e)
  {
    Response(if e.IsValueError() then 400 else 500, ErrorBody(e))
  }

  /** The 404 answer when no input document exists for the day. */
  function NotFoundResponse(patientId: Value, date: Date, message: string): (r: Response)
    ensures r.statusCode == 404
  {
    Response(404, JsonBody(Dict([
      Entry("status", Str("not_found")),
      Entry("patient_id", patientId),
      Entry("date", Str(IsoFormat(date))),
      Entry("message", Str(message))])))
  }

  /** The S3 key of a patient's day; the patient id is rendered with `str`. */
  function DayKey(patientId: Value, date: Date, render: Value -> string): string {
    GetS3KeyForDate(PyStr(patientId, render), date)
  }

  /** `explanation_preview`: the explanation itself up to 200 characters,
      otherwise its first 200 characters followed by "...". */
  function Preview(explanation: string): (preview: string)
    ensures |preview| <= 203
    ensures |explanation| <= 200 ==> preview == explanation
    ensures |explanation| > 200 ==>
      && |preview| == 203
      && preview[..200] == explanation[..200]
      && preview[200..] == "..."
  {
    if |explanation| > 200 then explanation[..200] + "..." else explanation
  }

  /** What the explanation handlers find under the day's key in the
      processed bucket. */
  datatype Processed =
    | NoProcessedData(patientId: Value, date: Date)
    | ProcessedDay(patientId: Value, date: Date, doc: Value)

  /** The patient id, the target date (`fallback` when the event has none)
      and the processed document of that day. A document that is JSON null
      counts as missing, as `is None` does not tell the two apart. */
  function LoadProcessed(event: seq<Entry>, settings: Settings, store: Store, fallback: Date,
                         render: Value -> string): (r: Result<Processed, Exception>)
    ensures PatientIdOf(event, settings).Failure? ==> r == Failure(ValueError(PatientIdRequired))
    ensures r.Success? ==>
      && PatientIdOf(event, settings) == Success(r.value.patientId)
      && TargetDate(event, fallback) == Success(r.value.date)
    ensures r.Success? ==>
      var found := DownloadJsonFromS3(store, DayKey(r.value.patientId, r.value.date, render), "processed", settings.buckets);
      && found.Success?
      && (r.value.NoProcessedData? <==> found.value.None? || found.value.value.Null?)
      && (r.value.ProcessedDay? ==> found.value == Some(r.value.doc))
  {
    match PatientIdOf(event, settings)
    case Failure(e) => Failure(e)
    case Success(patientId) =>
      match TargetDate(event, fallback)
      case Failure(e) => Failure(e)
      case Success(date) =>
        match DownloadJsonFromS3(store, DayKey(patientId, date, render), "processed", settings.buckets)
        case Failure(e) => Failure(e)
        case Success(doc) =>
          if doc.None? || doc.value.Null? then Success(NoProcessedData(patientId, date))
          else Success(ProcessedDay(patientId, date, doc.value))
  }

  /** The `metrics_summary` both explanation handlers store. */
  function MetricsSummary(data: seq<Entry>): Value {
    Dict([
      Entry("hrv", Get(data, "hrv")),
      Entry("resting_hr", Get(data, "resting_hr")),
      Entry("sleep_score", Get(data, "sleep_score")),
      Entry("steps", Get(data, "steps")),
      Entry("is_anomalous", Get(data, "is_anomalous", Bool(false))),
      Entry("anomaly_severity", Get(data, "anomaly_severity", Int(0)))])
  }
}
