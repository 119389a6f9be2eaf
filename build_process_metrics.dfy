/** The earlier process-metrics handler: it reads flat metric fields (each
    with an alias key) from the day's raw document, runs anomaly detection
    on a frame of that one day, stores the enriched day and answers with its
    anomaly status. */
module BuildProcessMetrics {
  import opened Wrappers
  import opened Dates
  import opened PyValue
  import opened S3Utils
  import opened HandlerCommon
  import opened AnomalyDetection

  /** The record `extract_metrics_from_raw` builds. */
  datatype AliasMetrics = AliasMetrics(
    date: string,
    hrv: Value,
    restingHr: Value,
    sleepScore: Value,
    steps: Value,
    recoveryIndex: Value,
    movementIndex: Value,
    rawData: Value)

  /** Each of hrv, resting_hr, sleep_score and steps is its primary key's
      value when that is truthy, else its alias key's value (so a 0 falls
      through to the alias); recovery_index and movement_index have no
      alias. A raw document that is not a dict has no `.get`. */
  function ExtractMetricsFromRaw(raw: Value, target: Date): (r: Result<AliasMetrics, Exception>)
    ensures r.Failure? <==> !raw.Dict?
    ensures r.Failure? ==> r.error == AttributeError
    ensures r.Success? ==>
      var d := raw.entries;
      var m := r.value;
      && m.date == IsoFormat(target) && ParseIso(m.date) == Some(target)
      && m.rawData == raw
      && (Truthy(m.hrv) <==> Truthy(Get(d, "hrv")) || Truthy(Get(d, "heart_rate_variability")))
      && (Truthy(m.restingHr) <==> Truthy(Get(d, "resting_hr")) || Truthy(Get(d, "resting_heart_rate")))
      && (Truthy(m.sleepScore) <==> Truthy(Get(d, "sleep_score")) || Truthy(Get(d, "sleep_quality")))
      && (Truthy(m.steps) <==> Truthy(Get(d, "steps")) || Truthy(Get(d, "step_count")))
      && (Truthy(Get(d, "hrv")) ==> m.hrv == Get(d, "hrv"))
      && (!Truthy(Get(d, "hrv")) ==> m.hrv == Get(d, "heart_rate_variability"))
      && (Truthy(Get(d, "resting_hr")) ==> m.restingHr == Get(d, "resting_hr"))
      && (!Truthy(Get(d, "resting_hr")) ==> m.restingHr == Get(d, "resting_heart_rate"))
      && (Truthy(Get(d, "sleep_score")) ==> m.sleepScore == Get(d, "sleep_score"))
      && (!Truthy(Get(d, "sleep_score")) ==> m.sleepScore == Get(d, "sleep_quality"))
      && (Truthy(Get(d, "steps")) ==> m.steps == Get(d, "steps"))
      && (!Truthy(Get(d, "steps")) ==> m.steps == Get(d, "step_count"))
      && m.recoveryIndex == Get(d, "recovery_index")
      && m.movementIndex == Get(d, "movement_index")
  {
    match raw
    case Dict(d) =>
      ParseFormat(target);
      Success(AliasMetrics(
        IsoFormat(target),
        Or(Get(d, "hrv"), Get(d, "heart_rate_variability")),
        Or(Get(d, "resting_hr"), Get(d, "resting_heart_rate")),
        Or(Get(d, "sleep_score"), Get(d, "sleep_quality")),
        Or(Get(d, "steps"), Get(d, "step_count")),
        Get(d, "recovery_index"),
        Get(d, "movement_index"),
        raw))
    case _ => Failure(AttributeError)
  }

  /** A zero reading under the primary key is replaced by the alias. */
  lemma ZeroFallsThroughToAlias(d: seq<Entry>, target: Date)
    requires Get(d, "hrv") == Int(0)
    ensures ExtractMetricsFromRaw(Dict(d), target).Success?
    ensures ExtractMetricsFromRaw(Dict(d), target).value.hrv == Get(d, "heart_rate_variability")
  {
  }

  /** A cell of the one-row frame as the detection sees it: missing for
      None and NaN, a number for an int, a float or a bool; a text, list or
      dict cell makes the rolling median or the comparison raise. */
  function Cell(v: Value): (r: Result<Option<real>, Exception>)
    ensures r.Failure? <==> v.Str? || v.List? || v.Dict?
    ensures r.Failure? ==> r.error == TypeError
    ensures r == Success(None) <==> v.Null? || v.NaN?
    ensures v.Int? ==> r == Success(Some(v.i as real))
    ensures v.Float? ==> r == Success(Some(v.x))
  {
    match v
    case Null => Success(None)
    case NaN => Success(None)
    case Bool(b) => Success(Some(if b then 1.0 else 0.0))
    case Int(i) => Success(Some(i as real))
    case Float(x) => Success(Some(x))
    case _ => Failure(TypeError)
  }

  predicate CellOk(v: Value) {
    Cell(v).Success?
  }

  /** The one row of `pd.DataFrame([metrics])`; its date column reads back
      as the target date. */
  function DayRowOf(m: AliasMetrics, target: Date): (r: Result<DayRow, Exception>)
    ensures r.Success? <==>
      CellOk(m.hrv) && CellOk(m.restingHr) && CellOk(m.sleepScore)
      && CellOk(m.steps) && CellOk(m.recoveryIndex) && CellOk(m.movementIndex)
    ensures r.Failure? ==> r.error == TypeError
    ensures r.Success? ==>
      && r.value.date == target
      && Cell(m.hrv) == Success(r.value.hrv)
      && Cell(m.restingHr) == Success(r.value.restingHr)
      && Cell(m.sleepScore) == Success(r.value.sleepScore)
      && Cell(m.steps) == Success(r.value.steps)
      && Cell(m.recoveryIndex) == Success(r.value.recoveryIndex)
      && Cell(m.movementIndex) == Success(r.value.movementIndex)
  {
    if CellOk(m.hrv) && CellOk(m.restingHr) && CellOk(m.sleepScore)
       && CellOk(m.steps) && CellOk(m.recoveryIndex) && CellOk(m.movementIndex)
    then
      Success(DayRow(target, Cell(m.hrv).value, Cell(m.restingHr).value, Cell(m.sleepScore).value,
                     Cell(m.steps).value, Cell(m.recoveryIndex).value, Cell(m.movementIndex).value))
    else Failure(TypeError)
  }

  /** The frame has every metric column, since the record has every key. */
  const AllColumns: set<Column> := {
    DateColumn, MetricColumn(Hrv), MetricColumn(RestingHr), MetricColumn(SleepScore),
    MetricColumn(Steps), MetricColumn(RecoveryIndex), MetricColumn(MovementIndex)}

  /** What the handler has read before detection: either no raw document
      for the day, or the day's record and its row. */
  datatype Loaded =
    | NoRawData(patientId: Value, date: Date)
    | RawDay(patientId: Value, date: Date, metrics: AliasMetrics, day: DayRow)

  /** The handler up to detection: the patient id, the target date
      (`today` when the event has none), the raw document, the record and
      its row; the first exception raised, if any. A document that is JSON
      `null` counts as missing. */
  function LoadDay(event: seq<Entry>, settings: Settings, store: Store, today: Date,
                   render: Value -> string): (r: Result<Loaded, Exception>)
    ensures PatientIdOf(event, settings).Failure? ==> r == Failure(ValueError(PatientIdRequired))
    ensures r.Success? ==>
      && PatientIdOf(event, settings) == Success(r.value.patientId)
      && TargetDate(event, today) == Success(r.value.date)
    ensures r.Success? && r.value.RawDay? ==>
      && ExtractMetricsFromRaw(r.value.metrics.rawData, r.value.date) == Success(r.value.metrics)
      && DayRowOf(r.value.metrics, r.value.date) == Success(r.value.day)
      && r.value.day.date == r.value.date
  {
    match PatientIdOf(event, settings)
    case Failure(e) => Failure(e)
    case Success(patientId) =>
      match TargetDate(event, today)
      case Failure(e) => Failure(e)
      case Success(date) =>
        match DownloadJsonFromS3(store, DayKey(patientId, date, render), "raw", settings.buckets)
        case Failure(e) => Failure(e)
        case Success(doc) =>
          if doc.None? || doc.value.Null? then Success(NoRawData(patientId, date))
          else
            match ExtractMetricsFromRaw(doc.value, date)
            case Failure(e) => Failure(e)
            case Success(metrics) =>
              match DayRowOf(metrics, date)
              case Failure(e) => Failure(e)
              case Success(day) => Success(RawDay(patientId, date, metrics, day))
  }

  function Real(b: Option<real>): Value {
    if b.Some? then Float(b.value) else NaN
  }

  function FlagValue(row: EnrichedRow, f: Flag): Value {
    Bool(f in row.flags && row.flags[f])
  }

  /** `enriched_df.iloc[0].to_dict()` with its `_metadata`: the record's
      cells, the baselines, the flags, `is_anomalous` and
      `anomaly_severity`. `now` is the processing time. */
  function ProcessedDocument(m: AliasMetrics, row: EnrichedRow, patientId: Value, date: Date,
                             now: string): Value
  {
    Dict([
      Entry("date", Str(IsoFormat(row.day.date))),
      Entry("hrv", m.hrv),
      Entry("resting_hr", m.restingHr),
      Entry("sleep_score", m.sleepScore),
      Entry("steps", m.steps),
      Entry("recovery_index", m.recoveryIndex),
      Entry("movement_index", m.movementIndex),
      Entry("raw_data", m.rawData),
      Entry("hrv_baseline", Real(BaselineIn(row.baselines, Hrv))),
      Entry("rhr_baseline", Real(BaselineIn(row.baselines, RestingHr))),
      Entry("low_hrv_flag", FlagValue(row, LowHrv)),
      Entry("high_rhr_flag", FlagValue(row, HighRhr)),
      Entry("low_sleep_flag", FlagValue(row, LowSleep)),
      Entry("recovery_baseline", Real(BaselineIn(row.baselines, RecoveryIndex))),
      Entry("low_recovery_flag", FlagValue(row, LowRecovery)),
      Entry("movement_baseline", Real(BaselineIn(row.baselines, MovementIndex))),
      Entry("low_movement_flag", FlagValue(row, LowMovement)),
      Entry("steps_baseline", Real(BaselineIn(row.baselines, Steps))),
      Entry("low_steps_flag", FlagValue(row, LowSteps)),
      Entry("is_anomalous", Bool(row.isAnomalous)),
      Entry("anomaly_severity", Int(row.severity)),
      Entry("_metadata", Dict([
        Entry("patient_id", patientId),
        Entry("date", Str(IsoFormat(date))),
        Entry("processed_at", Str(now)),
        Entry("source", Str("lambda_process_metrics"))]))])
  }

  /** The 200 answer. */
  function SuccessResponse(patientId: Value, date: Date, key: string, bucket: string,
                           row: EnrichedRow): (r: Response)
    ensures r.statusCode == 200
  {
    Response(200, JsonBody(Dict([
      Entry("status", Str("success")),
      Entry("patient_id", patientId),
      Entry("date", Str(IsoFormat(date))),
      Entry("s3_key", Str(key)),
      Entry("s3_bucket", Str(bucket)),
      Entry("is_anomalous", Bool(row.isAnomalous)),
      Entry("anomaly_severity", Int(row.severity))])))
  }

  /** The handler. `today` and `now` stand for the clock, `render` for
      `str` of a patient id that is not text, `putError` for the storage
      service's answer to the upload. Detection runs on the single day, so
      its row is the enriched day at position 0. */
  method Handler(event: seq<Entry>, settings: Settings, store: Store, today: Date, now: string,
                 render: Value -> string, putError: Option<string>)
    returns (response: Response, newStore: Store)
    ensures PatientIdOf(event, settings).Failure? ==>
      response == Response(400, ErrorBody(ValueError(PatientIdRequired))) && newStore == store
    ensures response.statusCode in {200, 400, 404, 500}
    ensures response.statusCode != 200 ==> newStore == store
    ensures LoadDay(event, settings, store, today, render).Failure? ==>
      response == ErrorResponse(LoadDay(event, settings, store, today, render).error)
    ensures LoadDay(event, settings, store, today, render).Success? ==>
      match LoadDay(event, settings, store, today, render).value
      case NoRawData(patientId, date) =>
        response == NotFoundResponse(patientId, date, "Raw data not found in S3")
      case RawDay(patientId, date, metrics, day) =>
        var row := EnrichAt([day], 0, AllColumns);
        var key := DayKey(patientId, date, render);
        var doc := ProcessedDocument(metrics, row, patientId, date, now);
        match UploadJsonToS3(store, doc, key, "processed", settings.buckets, putError)
        case Failure(e) => response == ErrorResponse(e)
        case Success(stored) =>
          && newStore == stored
          && response == SuccessResponse(patientId, date, key, settings.buckets.processedDataBucketName, row)
  {
    newStore := store;
    var loaded := LoadDay(event, settings, store, today, render);
    if loaded.Failure? {
      response := ErrorResponse(loaded.error);
      return;
    }
    match loaded.value
    case NoRawData(patientId, date) =>
      response := NotFoundResponse(patientId, date, "Raw data not found in S3");
    case RawDay(patientId, date, metrics, day) =>
      var row := DetectOneDay(day);
      var key := DayKey(patientId, date, render);
      var doc := ProcessedDocument(metrics, row, patientId, date, now);
      var upload := UploadJsonToS3(store, doc, key, "processed", settings.buckets, putError);
      if upload.Failure? {
        response := ErrorResponse(upload.error);
      } else {
        newStore := upload.value;
        response := SuccessResponse(patientId, date, key, settings.buckets.processedDataBucketName, row);
      }
  }

  /** `detect_anomalies(pd.DataFrame([metrics]))`: the frame has every
      column, so detection succeeds, and its only row is the day enriched
      at position 0. */
  method DetectOneDay(day: DayRow) returns (row: EnrichedRow)
    ensures row == EnrichAt([day], 0, AllColumns)
  {
    AllColumnsPresent();
    var enriched := DetectAnomalies(Frame(AllColumns, [day]));
    if enriched.Failure? {
      assert false;
    }
    row := enriched.value.rows[0];
    OnlyDay(Days(enriched.value.rows), day);
  }

  lemma AllColumnsPresent()
    ensures MissingColumns(AllColumns) == []
  {
    assert forall c :: c in RequiredColumns ==> c in AllColumns;
  }

  /** A reordering of one day is that day. */
  lemma OnlyDay(days: seq<DayRow>, day: DayRow)
    requires multiset(days) == multiset([day])
    ensures days == [day]
  {
    assert |days| == |multiset(days)| == 1;
    assert days[0] in multiset(days);
  }

  /** On the single day the handler processes, a non-negative hrv, resting
      heart rate or step count cannot set its relative flag. */
  lemma SingleDayRelativeFlagsOff(day: DayRow, row: EnrichedRow)
    requires row == EnrichAt([day], 0, AllColumns)
    requires day.hrv.Some? ==> day.hrv.value >= 0.0
    requires day.restingHr.Some? ==> day.restingHr.value >= 0.0
    requires day.steps.Some? ==> day.steps.value >= 0.0
    ensures LowHrv in row.flags && !row.flags[LowHrv]
    ensures HighRhr in row.flags && !row.flags[HighRhr]
    ensures LowSteps in row.flags && !row.flags[LowSteps]
  {
    var baselines := BaselinesAt([day], 0, AllColumns);
    var fc := FlagColumnsFor(AllColumns);
    assert LowHrv in fc && HighRhr in fc && LowSteps in fc by {
      AllFlagColumns();
      assert fc[0] in fc && fc[1] in fc && fc[5] in fc;
    }
    assert row.flags == map f | f in fc :: FlagHolds(f, day, baselines);
    SingleDayNoLowHrv(day, AllColumns);
    SingleDayNoHighRhr(day, AllColumns);
    SingleDayNoLowSteps(day, AllColumns);
  }

  /** So only the absolute thresholds (sleep below 60, recovery below 50,
      movement below 40) count towards the day's severity, which is at most
      3, and the day is anomalous exactly when one of them is crossed. */
  lemma SingleDaySeverity(day: DayRow, row: EnrichedRow)
    requires row == EnrichAt([day], 0, AllColumns)
    requires day.hrv.Some? ==> day.hrv.value >= 0.0
    requires day.restingHr.Some? ==> day.restingHr.value >= 0.0
    requires day.steps.Some? ==> day.steps.value >= 0.0
    ensures row.severity ==
      (if Below(day.sleepScore, Some(60.0)) then 1 else 0)
      + (if Below(day.recoveryIndex, Some(50.0)) then 1 else 0)
      + (if Below(day.movementIndex, Some(40.0)) then 1 else 0)
    ensures row.severity <= 3
    ensures row.isAnomalous <==>
      Below(day.sleepScore, Some(60.0)) || Below(day.recoveryIndex, Some(50.0))
      || Below(day.movementIndex, Some(40.0))
  {
    var baselines := BaselinesAt([day], 0, AllColumns);
    var fc := FlagColumnsFor(AllColumns);
    var bs := FlagRow(fc, day, baselines);
    SingleDayFlagRow(day);
    AbsoluteFlagsCount(bs);
  }

  /** The flag values of the single day, in flag-column order. */
  lemma SingleDayFlagRow(day: DayRow)
    requires day.hrv.Some? ==> day.hrv.value >= 0.0
    requires day.restingHr.Some? ==> day.restingHr.value >= 0.0
    requires day.steps.Some? ==> day.steps.value >= 0.0
    ensures var bs := FlagRow(FlagColumnsFor(AllColumns), day, BaselinesAt([day], 0, AllColumns));
      && |bs| == 6 && !bs[0] && !bs[1] && !bs[5]
      && bs[2] == Below(day.sleepScore, Some(60.0))
      && bs[3] == Below(day.recoveryIndex, Some(50.0))
      && bs[4] == Below(day.movementIndex, Some(40.0))
  {
    AllFlagColumns();
    SingleDayNoLowHrv(day, AllColumns);
    SingleDayNoHighRhr(day, AllColumns);
    SingleDayNoLowSteps(day, AllColumns);
  }

  /** Six flags of which the first two and the last are off: the count and
      the "any" of the other three. */
  lemma AbsoluteFlagsCount(bs: seq<bool>)
    requires |bs| == 6 && !bs[0] && !bs[1] && !bs[5]
    ensures CountTrue(bs) == (if bs[2] then 1 else 0) + (if bs[3] then 1 else 0) + (if bs[4] then 1 else 0)
    ensures AnyTrue(bs) <==> bs[2] || bs[3] || bs[4]
  {
    CountSix(bs);
    AnyIffCountPositive(bs);
  }

  /** With every column present, all six flags are computed. */
  lemma AllFlagColumns()
    ensures var fc := FlagColumnsFor(AllColumns);
      && |fc| == 6 && fc[0] == LowHrv && fc[1] == HighRhr && fc[2] == LowSleep
      && fc[3] == LowRecovery && fc[4] == LowMovement && fc[5] == LowSteps
  {
    assert MetricColumn(RecoveryIndex) in AllColumns;
    assert MetricColumn(MovementIndex) in AllColumns;
    assert MetricColumn(Steps) in AllColumns;
    var core: seq<Flag> := [LowHrv, HighRhr, LowSleep];
    assert core + [LowRecovery] + [LowMovement] + [LowSteps]
        == [LowHrv, HighRhr, LowSleep, LowRecovery, LowMovement, LowSteps];
  }

  /** The count of six flags, spelled out. */
  lemma CountSix(bs: seq<bool>)
    requires |bs| == 6
    ensures CountTrue(bs) == (if bs[0] then 1 else 0) + (if bs[1] then 1 else 0) + (if bs[2] then 1 else 0)
      + (if bs[3] then 1 else 0) + (if bs[4] then 1 else 0) + (if bs[5] then 1 else 0)
  {
    var s1, s2, s3, s4, s5 := bs[..1], bs[..2], bs[..3], bs[..4], bs[..5];
    assert s1[..0] == [] && s2[..1] == s1 && s3[..2] == s2 && s4[..3] == s3 && s5[..4] == s4 && bs[..5] == s5;
    assert CountTrue(s1) == (if bs[0] then 1 else 0);
    assert CountTrue(s2) == CountTrue(s1) + (if bs[1] then 1 else 0);
    assert CountTrue(s3) == CountTrue(s2) + (if bs[2] then 1 else 0);
    assert CountTrue(s4) == CountTrue(s3) + (if bs[3] then 1 else 0);
    assert CountTrue(s5) == CountTrue(s4) + (if bs[4] then 1 else 0);
  }
}
