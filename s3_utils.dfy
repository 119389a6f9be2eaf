/** Object keys, bucket selection and JSON download/upload over a storage
    service. The storage service itself is a value: a map from
    (bucket, key) to what is stored there. */
module S3Utils {
  import opened Wrappers
  import opened PyValue
  import opened Dates

  /** The configured bucket names (RAW_DATA_BUCKET_NAME,
      PROCESSED_DATA_BUCKET_NAME, EXPLANATIONS_BUCKET_NAME). */
  datatype BucketSettings = BucketSettings(
    rawDataBucketName: string,
    processedDataBucketName: string,
    explanationsBucketName: string)

  const BucketTypes: set<string> := {"raw", "processed", "explanations"}

  /** The tail of the error for an empty bucket name; the head is the bucket
      type in upper case (so "EXPLANATIONS_DATA_BUCKET_NAME", although the
      setting is called EXPLANATIONS_BUCKET_NAME). */
  const NameNotSet := "_DATA_BUCKET_NAME must be set in environment variables"

  /** What a get of (bucket, key) finds: a JSON document, bytes that are not
      JSON, or an access error reported by the service. */
  datatype StoredObject = Json(doc: Value) | NotJson | Inaccessible(code: string)

  type Store = map<(string, string), StoredObject>

  /** `patient_id/YYYY-MM-DD<suffix>`, with ".json" as the default suffix:
      the patient id, a slash, the ten-character date that reads back as
      `date`, then the suffix. */
  function GetS3KeyForDate(patientId: string, date: Date, suffix: string := ".json"): (key: string)
    ensures |key| == |patientId| + 11 + |suffix|
    ensures key[..|patientId|] == patientId && key[|patientId|] == '/'
    ensures ParseIso(key[|patientId| + 1..|patientId| + 11]) == Some(date)
    ensures key[|patientId| + 11..] == suffix
  {
    var key := patientId + "/" + IsoFormat(date) + suffix;
    assert key[|patientId| + 1..|patientId| + 11] == IsoFormat(date);
    ParseFormat(date);
    key
  }

  /** The bucket for a bucket type: ValueError for an unknown type and for a
      type whose configured name is empty, so a name returned is never
      empty. */
  function GetBucketName(bucketType: string, settings: BucketSettings): (r: Result<string, Exception>)
    ensures bucketType !in BucketTypes ==>
              r == Failure(ValueError("Invalid bucket type: " + bucketType
                                      + ". Must be one of: raw, processed, explanations"))
    ensures bucketType == "raw" ==>
              r == if settings.rawDataBucketName == ""
                   then Failure(ValueError("RAW" + NameNotSet))
                   else Success(settings.rawDataBucketName)
    ensures bucketType == "processed" ==>
              r == if settings.processedDataBucketName == ""
                   then Failure(ValueError("PROCESSED" + NameNotSet))
                   else Success(settings.processedDataBucketName)
    ensures bucketType == "explanations" ==>
              r == if settings.explanationsBucketName == ""
                   then Failure(ValueError("EXPLANATIONS" + NameNotSet))
                   else Success(settings.explanationsBucketName)
    ensures r.Success? ==> r.value != ""
    ensures r.Failure? ==> r.error.ValueError?
  {
    UpperBucketTypes();
    var bucketMap := map[
      "raw" := settings.rawDataBucketName,
      "processed" := settings.processedDataBucketName,
      "explanations" := settings.explanationsBucketName];
    if bucketType !in bucketMap then
      Failure(ValueError("Invalid bucket type: " + bucketType
                         + ". Must be one of: raw, processed, explanations"))
    else if bucketMap[bucketType] == "" then
      Failure(ValueError(Text.Upper(bucketType) + NameNotSet))
    else
      Success(bucketMap[bucketType])
  }

  lemma UpperBucketTypes()
    ensures Text.Upper("raw") == "RAW"
    ensures Text.Upper("processed") == "PROCESSED"
    ensures Text.Upper("explanations") == "EXPLANATIONS"
  {
    forall i | 0 <= i < 3 ensures Text.Upper("raw")[i] == "RAW"[i] {}
    forall i | 0 <= i < 9 ensures Text.Upper("processed")[i] == "PROCESSED"[i] {}
    forall i | 0 <= i < 12 ensures Text.Upper("explanations")[i] == "EXPLANATIONS"[i] {}
  }

  /** Fetch and parse a JSON document. A missing key and any access error
      give None; only the bucket lookup and a body that is not JSON raise,
      and both raise a ValueError. */
  function DownloadJsonFromS3(store: Store, key: string, bucketType: string, settings: BucketSettings)
    : (r: Result<Option<Value>, Exception>)
    ensures GetBucketName(bucketType, settings).Failure? ==>
              r == Failure(GetBucketName(bucketType, settings).error)
    ensures GetBucketName(bucketType, settings).Success? ==>
              var bucket := GetBucketName(bucketType, settings).value;
              && ((bucket, key) !in store ==> r == Success(None))
              && ((bucket, key) in store && store[(bucket, key)].Inaccessible? ==> r == Success(None))
              && ((bucket, key) in store && store[(bucket, key)].Json? ==> r == Success(Some(store[(bucket, key)].doc)))
              && ((bucket, key) in store && store[(bucket, key)].NotJson? ==> r == Failure(JsonDecodeError))
    ensures r.Failure? ==> r.error.IsValueError()
  {
    match GetBucketName(bucketType, settings)
    case Failure(e) => Failure(e)
    case Success(bucket) =>
      if (bucket, key) !in store then Success(None)  // ClientError NoSuchKey
      else
        match store[(bucket, key)]
        case Json(doc) => Success(Some(doc))
        case NotJson => Failure(JsonDecodeError)
        case Inaccessible(_) => Success(None)       // any other ClientError
  }

  /** Store `data` under `key`. `putError` is the error code the service
      answers with, if any; it is re-raised as a ClientError. */
  function UploadJsonToS3(store: Store, data: Value, key: string, bucketType: string,
                          settings: BucketSettings, putError: Option<string>)
    : (r: Result<Store, Exception>)
    ensures r.Success? <==> GetBucketName(bucketType, settings).Success? && putError.None?
    ensures GetBucketName(bucketType, settings).Success? && putError.Some? ==>
              r == Failure(ClientError(putError.value))
    ensures r.Success? ==>
              && DownloadJsonFromS3(r.value, key, bucketType, settings) == Success(Some(data))
              && forall loc :: loc in store && loc != (GetBucketName(bucketType, settings).value, key) ==>
                   loc in r.value && r.value[loc] == store[loc]
  {
    match GetBucketName(bucketType, settings)
    case Failure(e) => Failure(e)
    case Success(bucket) =>
      if putError.Some? then Failure(ClientError(putError.value))
      else Success(store[(bucket, key) := Json(data)])
  }
}
