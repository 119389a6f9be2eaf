# Wearable metrics pipeline: a verified model of its Lambda handlers

The pipeline fetches a patient's daily metrics from a wearable's API and stores them raw. A processing Lambda then turns the raw document into one day record and flags anomalies against trailing 7-day baselines. An explanation Lambda then has a language model explain that record in plain words and stores the explanation. Every stage keeps its documents in S3, one object per patient and day. This project models the deterministic logic under that plumbing:

- **Anomaly detection** (`detect_anomalies`, identical in both versions of the processing handler):
  - the check for required columns, with an error naming every missing one;
  - the sort by date;
  - 7-row rolling-median baselines with `min_periods=1`;
  - the six threshold flags;
  - `anomaly_severity` and `is_anomalous`.
  
  The earlier copy is lines 21-90 of its handler. The table cites the current one.

  Metrics are `Option<real>`: a missing cell is `None`, and the rational thresholds are exact. `detect_anomalies` is a method that builds the baseline columns and the flag-column list step by step. It is proved against a specification function that gives each row's enriched value.
- **Raw-payload extraction** in the current processing handler:
  - the numeric filter `_extract_numeric_values`, with its truthiness quirk;
  - the loop over `metric_data`, with means, a sum and the `sleep_rhr` fallback;
  - the recursive NaN cleaner `clean_nan_values` over a tree of values with an explicit NaN tag;
  - the choice of the current day's row.
- **The earlier processing handler**: its alias-key extractor, and its single-day run of anomaly detection, in which, for non-negative hrv, resting heart rate and steps, only the absolute-threshold flags can fire.
- **The explanation side**:
  - the user prompt, with active flags in a fixed order and two prompt shapes;
  - the case-insensitive throttling classifier;
  - the fallback response;
  - the interpretation of the proxy Lambda's answer;
  - the guarantee that an explanation that is not the fallback carries the medical disclaimer;
  - the 200-character preview and `llm_status`;
  - the earlier handler's direct call to a chat model.
  
  `build_user_prompt` is the same code in both explanation handlers (lines 44-108 of the earlier one), and so is the preview (its line 242). Each is modelled once, and the table cites the current handler.
- **S3 naming**: `get_s3_key_for_date` and `_get_bucket_name`, and the None-on-error contract of `download_json_from_s3`. The storage service is a map from (bucket, key) to what is stored there.

Python values are the datatype `PyValue.Value`:
- None, bools, ints, floats (exact reals plus a NaN tag), strings, lists, and dictionaries as ordered entry lists.
- Python's truthiness, `dict.get` with a default, `or`, and the exceptions the code raises are written out.
- A handler is a method that takes the event and the store and returns the response and the new store. Exceptions become the 400 and 500 answers, as in the handlers' `except` clauses.

Files:
- `wrappers.dfy`: Option and Result.
- `text.dfy`: lower and upper case, substring search, `join`, `strip`, and `str(int)`.
- `py_value.dfy`: Python values.
- `dates.dfy`: dates, and their `YYYY-MM-DD` form with its parse.
- `s3_utils.dfy`: keys, buckets, download and upload.
- `rolling_median.dfy`: medians and rolling windows.
- `anomaly_detection.dfy`: `detect_anomalies`.
- `process_metrics.dfy`: the current processing handler.
- `build_process_metrics.dfy`: the earlier processing handler.
- `handler_common.dfy`: what the handlers share.
- `user_prompt.dfy`: `build_user_prompt`.
- `generate_explanation.dfy`: the current explanation handler.
- `build_generate_explanation.dfy`: the earlier explanation handler.

## Model

| member | source | states |
|---|---|---|
| S3Utils.GetS3KeyForDate | build/lambda_generate_explanation/common/s3_utils.py:161-173 | the key is the patient id, "/", a 10-character date text that parses back to exactly the given date, then the suffix (".json" by default); its length is their sum |
| Dates.ParseFormat | build/lambda_generate_explanation/common/s3_utils.py:172 | parsing the `%Y-%m-%d` text of any date gives that date back (four-digit years, zero-padded month and day) |
| Dates.IsoFormatInjective | build/lambda_generate_explanation/common/s3_utils.py:172 | two dates with the same `%Y-%m-%d` text are the same date |
| Dates.IsoFormat | build/lambda_generate_explanation/common/s3_utils.py:172 | the date text is 10 characters with dashes at positions 4 and 7 |
| HandlerCommon.IsoFormatOfParse | build/lambda_generate_explanation/handler.py:169-171 | a text that `strptime("%Y-%m-%d")` accepts is what `str()` of the parsed date prints, so the handlers' target date and the date in their answers agree |
| S3Utils.GetBucketName | build/lambda_generate_explanation/common/s3_utils.py:22-51 | "raw", "processed" and "explanations" select their configured bucket names; any other type raises ValueError naming it; an empty configured name raises ValueError naming the upper-cased type; a success is never empty; every failure is a ValueError |
| S3Utils.UpperBucketTypes | build/lambda_generate_explanation/common/s3_utils.py:48 | `bucket_type.upper()` of the three types is RAW, PROCESSED and EXPLANATIONS |
| S3Utils.DownloadJsonFromS3 | build/lambda_generate_explanation/common/s3_utils.py:98-122 | a bad bucket type raises the bucket error; a missing key and any other storage error give None; a stored JSON document is returned; text that is not JSON raises JSONDecodeError; no other failure exists |
| S3Utils.UploadJsonToS3 | build/lambda_generate_explanation/common/s3_utils.py:54-95 | the upload succeeds iff the bucket resolves and the put does not fail; a failed put re-raises the ClientError; after success, downloading the key gives the document back, and every other stored object is unchanged |
| RollingMedian.SortReals | lambda_process_metrics/handler.py:95 | sorting yields a sorted permutation of the window's values |
| RollingMedian.Median | lambda_process_metrics/handler.py:95 | the median is missing exactly for an empty window |
| RollingMedian.MedianWithinBounds | lambda_process_metrics/handler.py:95 | the median of a non-empty window lies between its least and greatest value |
| RollingMedian.SortedPermutationsEqual | lambda_process_metrics/handler.py:95 | two sorted sequences holding the same values are equal, so the median does not depend on how the window was sorted |
| RollingMedian.MedianOfPermutation | lambda_process_metrics/handler.py:95 | windows holding the same values have the same median |
| RollingMedian.WindowValues | lambda_process_metrics/handler.py:94-96 | a window holds at most 7 present values |
| RollingMedian.CurrentValueInWindow | lambda_process_metrics/handler.py:94-96 | with `min_periods=1` a present value is in its own window, so its baseline exists |
| RollingMedian.SingleRowBaseline | build/lambda_process_metrics/handler.py:45-50 | over a one-row column the baseline is the row's own value |
| RollingMedian.CollectWindow | lambda_process_metrics/handler.py:94-96 | the loop collects exactly the present values among the row and the six before it, in order |
| RollingMedian.RollingMedianColumn | lambda_process_metrics/handler.py:94-99 | the baseline column has the column's length, and each entry is the median of its window |
| AnomalyDetection.MissingColumns | lambda_process_metrics/handler.py:82-83 | a required column is reported missing iff the frame lacks it |
| AnomalyDetection.MissingMessageNamesEvery | lambda_process_metrics/handler.py:84-85 | the ValueError message quotes every missing column, not just the first |
| AnomalyDetection.SortByDate | lambda_process_metrics/handler.py:91 | the rows come out sorted by date and as a permutation of the input |
| AnomalyDetection.SortedByDateOrdered | lambda_process_metrics/handler.py:91 | in the sorted rows every earlier row is on or before every later row |
| AnomalyDetection.DetectAnomalies | lambda_process_metrics/handler.py:70-139 | raises ValueError with the missing-columns message iff a required column is absent; otherwise the rows are the input sorted by date (a permutation), the flag columns are those the present columns allow, and every row is enriched as the specification of its position says |
| AnomalyDetection.AddBaselinesAndFlagColumns | lambda_process_metrics/handler.py:94-133 | the baseline columns are exactly those of hrv, resting_hr and the optional columns present, each a rolling median; the flag list is appended in the source's order |
| AnomalyDetection.EnrichDays | lambda_process_metrics/handler.py:102-137 | each output row keeps its day and carries the flags, severity and anomaly status its position specifies |
| AnomalyDetection.FlagColumnsShape | lambda_process_metrics/handler.py:109-133 | the flag list starts with low_hrv, high_rhr, low_sleep; low_recovery, low_movement and low_steps are present iff their columns are; the list has 3 to 6 entries |
| AnomalyDetection.BaselineIsWindowMedian | lambda_process_metrics/handler.py:94-99 | the baseline at sorted position i is the median of the present values at positions max(0, i-6)..i |
| AnomalyDetection.LowHrvRule | lambda_process_metrics/handler.py:102 | with hrv present, low_hrv holds iff hrv < 0.7 times the hrv baseline |
| AnomalyDetection.HighRhrRule | lambda_process_metrics/handler.py:103-105 | with resting_hr present, high_rhr holds iff resting_hr > 1.15 times the baseline |
| AnomalyDetection.LowStepsRule | lambda_process_metrics/handler.py:126-132 | with steps present, low_steps holds iff steps < 0.6 times the steps baseline |
| AnomalyDetection.MissingValueNeverFlags | lambda_process_metrics/handler.py:102-132 | a missing value never sets its flag (NaN comparisons are false) |
| AnomalyDetection.FlagRow | lambda_process_metrics/handler.py:136-137 | the row's flag vector holds, column by column, exactly the flags that hold |
| AnomalyDetection.AnyIffCountPositive | lambda_process_metrics/handler.py:136-137 | `any` over the flags is true iff their integer sum is positive |
| AnomalyDetection.SeverityAndAnomalous | lambda_process_metrics/handler.py:108-137 | severity is at most the number of flag columns, which is at most 6; is_anomalous iff severity > 0; each flag holds iff its rule does |
| AnomalyDetection.SingleDayNoLowHrv | build/lambda_process_metrics/handler.py:45-53 | on a one-day frame, a non-negative hrv never sets low_hrv |
| AnomalyDetection.SingleDayNoHighRhr | build/lambda_process_metrics/handler.py:48-56 | on a one-day frame, a non-negative resting_hr never sets high_rhr |
| AnomalyDetection.SingleDayNoLowSteps | build/lambda_process_metrics/handler.py:77-82 | on a one-day frame, non-negative steps never set low_steps |
| AnomalyDetection.SingleDayBaseline | build/lambda_process_metrics/handler.py:45-50 | on a one-day frame every baseline is the day's own value |
| ProcessMetrics.NumericOf | lambda_process_metrics/handler.py:152-159 | each item contributes at most one value, and it is a float |
| ProcessMetrics.NumericValues | lambda_process_metrics/handler.py:142-160 | the output is never longer than the input and holds only floats |
| ProcessMetrics.ExtractNumericValues | lambda_process_metrics/handler.py:151-160 | the appending loop yields exactly the filtered values, in input order |
| ProcessMetrics.NumericValuesAppend | lambda_process_metrics/handler.py:152 | the filter works item by item: filtering a concatenation concatenates the filtered parts, so input order is kept |
| ProcessMetrics.NumbersPassThrough | lambda_process_metrics/handler.py:153-154 | a list of plain numbers passes through whole, each as its float |
| ProcessMetrics.ZeroReadingQuirk | lambda_process_metrics/handler.py:157 | `{"value": 0}` contributes nothing, because 0 is falsy, while `{"data": 0}` contributes 0.0 |
| ProcessMetrics.SumOf | lambda_process_metrics/handler.py:242 | the sum is a float, and NaN iff a value is NaN |
| ProcessMetrics.MeanOf | lambda_process_metrics/handler.py:215 | the mean is a float, and NaN iff a value is NaN |
| ProcessMetrics.MeanWithinBounds | lambda_process_metrics/handler.py:215 | the mean of values within [lo, hi] is within [lo, hi] |
| ProcessMetrics.ObjectNumbers | lambda_process_metrics/handler.py:211-213 | the numbers taken from an object's `values` are floats |
| ProcessMetrics.ApplyItem | lambda_process_metrics/handler.py:205-256 | an item never changes the date; its effect on every other field is stated by the four ApplyItem lemmas that follow |
| ProcessMetrics.ApplyItemHrv | lambda_process_metrics/handler.py:209-215 | an hrv item with numeric values sets hrv to their mean; any other item leaves hrv as it was |
| ProcessMetrics.ApplyItemRates | lambda_process_metrics/handler.py:217-234 | a night_rhr item with numbers sets resting_hr to their mean; a sleep_rhr item with numbers sets sleep_rhr; a sleep_rhr item copies sleep_rhr into resting_hr only while resting_hr is None |
| ProcessMetrics.ApplyItemSteps | lambda_process_metrics/handler.py:236-242 | a steps item with numeric values sets steps to their sum; any other item leaves steps as it was |
| ProcessMetrics.ApplyItemScores | lambda_process_metrics/handler.py:244-256 | a Sleep item whose sleep_score is a dict sets sleep_score to its "score"; a movement_index or recovery_index item sets that field to its object's "value"; every other item leaves the three fields as they were |
| ProcessMetrics.ExtractMetrics | lambda_process_metrics/handler.py:191-260 | on success the date is the target date's text and the whole payload is kept under raw_data |
| ProcessMetrics.ExtractMetricsFromRaw | lambda_process_metrics/handler.py:163-260 | the loop over metric_data gives what applying the items in order gives, including the exception a malformed item raises |
| ProcessMetrics.ApplyMetricItem | lambda_process_metrics/handler.py:205-256 | one loop iteration overwrites the fields its item's type names, as the specification of one item says |
| ProcessMetrics.FailureSticks | lambda_process_metrics/handler.py:205 | once an item raises, the extraction raises that exception |
| ProcessMetrics.HrvIsLastMean | lambda_process_metrics/handler.py:209-215 | hrv is the mean of the last hrv item with numeric values, and None when there is none |
| ProcessMetrics.StepsIsLastSum | lambda_process_metrics/handler.py:236-242 | steps is the sum of the last steps item with numeric values, and None when there is none |
| ProcessMetrics.SleepScoreIsLast | lambda_process_metrics/handler.py:244-248 | sleep_score is the "score" of the last Sleep item whose sleep_score is a dict (None when that dict has no score), and None when there is no such item |
| ProcessMetrics.IndicesAreLastValues | lambda_process_metrics/handler.py:250-256 | movement_index and recovery_index are each the "value" of the last item of their type (None when it has none), and None when there is no such item |
| ProcessMetrics.RestingHrFallback | lambda_process_metrics/handler.py:217-234 | resting_hr is the mean of the last night_rhr item with numeric values, whatever the item order; only when there is none is it the first sleep_rhr mean; sleep_rhr is the last sleep_rhr mean |
| ProcessMetrics.LastFirstAgree | lambda_process_metrics/handler.py:225-234 | some item of a type sets a mean iff the first such item does |
| ProcessMetrics.CleanValue | lambda_process_metrics/handler.py:11-57 | NaN becomes None; a cleaned list has the input's length and each element cleaned; a cleaned dict has exactly the input's keys in order, each value cleaned; anything but NaN, lists and dicts is unchanged |
| ProcessMetrics.CleanEntries | lambda_process_metrics/handler.py:20-57 | each entry keeps its key, and its value is cleaned recursively |
| ProcessMetrics.CleanNanValues | lambda_process_metrics/handler.py:11-57 | the loop over the items fills the cleaned dict with each value cleaned recursively |
| ProcessMetrics.CleanListItems | lambda_process_metrics/handler.py:24-30 | the list comprehension cleans each element as the value of a one-entry dict, giving the cleaned list |
| ProcessMetrics.CleanLeavesNoNaN | lambda_process_metrics/handler.py:36-43 | no NaN survives cleaning, at any depth |
| ProcessMetrics.CleanKeepsNaNFree | lambda_process_metrics/handler.py:40-45 | a tree without NaN is left unchanged, so non-NaN floats are kept |
| ProcessMetrics.CleanIdempotent | lambda_process_metrics/handler.py:11-57 | cleaning twice is cleaning once |
| ProcessMetrics.FirstDateMatch | lambda_process_metrics/handler.py:373-375 | the match found is the first row whose printed date is the target's |
| ProcessMetrics.SelectCurrentRowByDate | lambda_process_metrics/handler.py:373-380 | the current row is the first row dated on the target date, or the last row when no row is |
| BuildProcessMetrics.ExtractMetricsFromRaw | build/lambda_process_metrics/handler.py:93-116 | date is the target date's text; each of hrv, resting_hr, sleep_score and steps is the primary key's value when truthy, else the alias key's; the field is truthy iff either is; recovery and movement have no alias; the payload is kept whole; a non-dict payload raises AttributeError |
| BuildProcessMetrics.ZeroFallsThroughToAlias | build/lambda_process_metrics/handler.py:107 | an hrv of 0 falls through to heart_rate_variability |
| BuildProcessMetrics.Cell | build/lambda_process_metrics/handler.py:171 | a frame cell is missing for None and NaN, the number for ints and floats, and a TypeError for text and containers |
| BuildProcessMetrics.DayRowOf | build/lambda_process_metrics/handler.py:171-174 | the one-day row carries the target date and each metric's cell; it exists iff every cell is numeric or missing |
| BuildProcessMetrics.LoadDay | build/lambda_process_metrics/handler.py:135-166 | a missing patient id gives the ValueError; on success the patient id and target date are the event's, and the day row is the extraction of the stored raw document |
| BuildProcessMetrics.DetectOneDay | build/lambda_process_metrics/handler.py:171-177 | detection on the one-row frame gives the single day enriched over all columns |
| BuildProcessMetrics.SingleDayRelativeFlagsOff | build/lambda_process_metrics/handler.py:168-177 | for non-negative values, low_hrv, high_rhr and low_steps are present and false for the single day |
| BuildProcessMetrics.SingleDaySeverity | build/lambda_process_metrics/handler.py:53-88 | the single day's severity counts only sleep < 60, recovery < 50 and movement < 40, so it is at most 3, and is_anomalous iff one of those holds |
| BuildProcessMetrics.SingleDayFlagRow | build/lambda_process_metrics/handler.py:53-82 | the single day's six flags are false, false, sleep < 60, recovery < 50, movement < 40, false |
| BuildProcessMetrics.AllFlagColumns | build/lambda_process_metrics/handler.py:60-82 | with every column present, the flag list is the six flags in the source's order |
| BuildProcessMetrics.Handler | build/lambda_process_metrics/handler.py:119-234 | a missing patient id answers 400 and stores nothing; a missing raw document answers 404; otherwise the enriched day is uploaded under the day's key, and the answer is 200 with its anomaly status, or the error's 400/500; nothing is stored unless the answer is 200 |
| HandlerCommon.PatientIdOf | build/lambda_generate_explanation/handler.py:165-167 | the patient id is the event's when truthy, else the configured one; it fails with the ValueError iff neither is set; a success is truthy |
| HandlerCommon.TargetDate | build/lambda_generate_explanation/handler.py:169-173 | no truthy date in the event gives the fallback day; a parsed date prints as the event's text |
| HandlerCommon.ErrorResponse | build/lambda_generate_explanation/handler.py:246-263 | a ValueError (JSONDecodeError included) answers 400, any other exception 500, with the error |
| HandlerCommon.NotFoundResponse | build/lambda_generate_explanation/handler.py:181-193 | a missing input document answers 404 |
| HandlerCommon.Preview | lambda_generate_explanation/handler.py:354-358 | the preview is the explanation itself up to 200 characters, else its first 200 characters and "..."; it is never longer than 203 |
| HandlerCommon.LoadProcessed | lambda_generate_explanation/handler.py:261-297 | the patient id and target date are the event's; the processed document of that day is read from the processed bucket; it is missing iff the download gives None (a stored JSON null included) |
| UserPrompt.ActiveSetMember | lambda_generate_explanation/handler.py:97-109 | a flag is active iff `processed_data.get(flag, False)` is truthy |
| UserPrompt.SetFlagsMember | lambda_generate_explanation/handler.py:97-109 | a flag is listed iff it is active |
| UserPrompt.SetFlagsOrdered | lambda_generate_explanation/handler.py:97-109 | listed flags keep the fixed order Low HRV, High Resting HR, Low Sleep Score, Low Recovery Index, Low Movement Index, Low Steps |
| UserPrompt.TestedNamesListed | lambda_generate_explanation/handler.py:97-109 | after the first k tests the list holds the names of the active flags among the first k, in order |
| UserPrompt.ActiveFlags | lambda_generate_explanation/handler.py:96-109 | the six appending tests list exactly the active flags' names, in the fixed order |
| UserPrompt.BuildUserPrompt | lambda_generate_explanation/handler.py:81-145 | the prompt is the prompt lines, built from the day's fields and its active flags, joined by newlines |
| UserPrompt.NoFlagsText | lambda_generate_explanation/handler.py:111 | with no active flag the flags text is "No specific flags" |
| UserPrompt.NormalPromptShape | lambda_generate_explanation/handler.py:115-124 | a non-anomalous day gives 9 lines, none an "Anomaly Flags:" or "Severity:" line |
| UserPrompt.AnomalousPromptShape | lambda_generate_explanation/handler.py:126-145 | an anomalous day gives the 16 listed parts: the metric lines, then "Anomaly Flags: " with the flags text, then "Severity: " with the severity |
| UserPrompt.ActiveFlagInPrompt | lambda_generate_explanation/handler.py:97-135 | on an anomalous day every active flag's name occurs in the prompt |
| UserPrompt.MissingKeyDefaults | lambda_generate_explanation/handler.py:90-94 | missing keys default to "Unknown date", "N/A" for each metric, 0 for severity and False for is_anomalous |
| GenerateExplanation.AnyKeywordIn | lambda_generate_explanation/handler.py:148-150 | true iff one of the keywords is a substring of the lowered text |
| GenerateExplanation.ThrottlingIgnoresCase | lambda_generate_explanation/handler.py:149 | upper-casing the message does not change the classification |
| GenerateExplanation.KeywordIsThrottling | lambda_generate_explanation/handler.py:27-33 | any text containing one of the five keywords counts as throttling |
| GenerateExplanation.FallbackResponse | lambda_generate_explanation/handler.py:153-162 | the fallback gives the fixed message with exactly model, usage and error in its metadata, the error being the reason |
| GenerateExplanation.PhraseIsLowerCase | lambda_generate_explanation/handler.py:224-225 | the searched phrase is its own lower case, so searching the lowered text is a case-insensitive search |
| GenerateExplanation.FinishExplanation | lambda_generate_explanation/handler.py:216-233 | the stripped answer is kept when it already has the phrase; otherwise the disclaimer is appended after a blank line; an empty answer becomes the apology and the disclaimer |
| GenerateExplanation.EndsWithDisclaimer | lambda_generate_explanation/handler.py:217-221 | any text ending with the disclaimer contains the phrase, case-insensitively |
| GenerateExplanation.FinishedCarriesDisclaimer | lambda_generate_explanation/handler.py:216-233 | a finished explanation is never empty, always contains the phrase case-insensitively, and starts with the stripped answer |
| GenerateExplanation.ResponseBody | lambda_generate_explanation/handler.py:196-204 | a dict body is used as is; a text body is parsed, and a parse error raises RuntimeError with the parser's text; anything that is not a dict then raises RuntimeError |
| GenerateExplanation.FromBody | lambda_generate_explanation/handler.py:206-242 | on a well-formed body the only failure is the AttributeError of a non-text explanation |
| GenerateExplanation.BodyFallback | lambda_generate_explanation/handler.py:206-214 | the fallback is taken when success is False or the error text is throttling, with the error text or "Bedrock lambda reported failure." as reason; otherwise the metadata has no error |
| GenerateExplanation.Interpret | lambda_generate_explanation/handler.py:174-242 | an invoke exception falls back with its text; an unreadable payload raises RuntimeError; a payload that is not a dict raises AttributeError; a `statusCode` that is not 200 (missing counts as 500; a text "200" is not 200) falls back with "Non-200 status code: " and the code; a 200 answer is decided by its body, as ResponseBody and FromBody state; every failure is a RuntimeError or an AttributeError |
| GenerateExplanation.MissingStatusFallsBack | lambda_generate_explanation/handler.py:192-194 | a proxy answer without statusCode counts as 500 and falls back with "Non-200 status code: 500" |
| GenerateExplanation.FiveHundredText | lambda_generate_explanation/handler.py:194 | the status code 500 prints as "500" |
| GenerateExplanation.BodyNeverMissing | lambda_generate_explanation/handler.py:234-235 | the "did not include an explanation" error cannot come from a well-formed body |
| GenerateExplanation.NeverMissingExplanation | lambda_generate_explanation/handler.py:234-235 | the "did not include an explanation" error is never raised, whatever the proxy answers |
| GenerateExplanation.AnswerCarriesDisclaimer | lambda_generate_explanation/handler.py:216-242 | every successful explanation that is not the fallback message contains the phrase, case-insensitively |
| GenerateExplanation.GenerateExplanation | lambda_generate_explanation/handler.py:165-242 | an unset BEDROCK_LAMBDA_NAME raises RuntimeError before any prompt is built or sent; a non-dict document raises AttributeError before the invoke; otherwise the proxy receives the system prompt, a blank line and the user prompt, and its answer is interpreted |
| GenerateExplanation.LlmStatus | lambda_generate_explanation/handler.py:301 | "fallback" iff the metadata's error is truthy, else "ok" |
| GenerateExplanation.FallbackStatus | lambda_generate_explanation/handler.py:181-214 | every fallback of a returned proxy answer reports "fallback"; an invoke exception with an empty text falls back but reports "ok" |
| GenerateExplanation.Handler | lambda_generate_explanation/handler.py:245-384 | the target date defaults to yesterday; a missing patient id answers 400; a missing document answers 404; a missing BEDROCK_LAMBDA_NAME answers 500, and so does a processed document that is not a dict (AttributeError from the prompt); otherwise the explanation and its metadata are stored under the day's key in the explanations bucket, and the answer is 200 with llm_status and the preview, or the error's 400/500; nothing is stored unless the answer is 200 |
| BuildGenerateExplanation.ContentToExplanation | build/lambda_generate_explanation/handler.py:136-137 | no content or empty content gives "Unable to generate explanation."; otherwise the stripped content |
| BuildGenerateExplanation.ExplanationShape | build/lambda_generate_explanation/handler.py:136-137 | the explanation is empty iff the content is non-empty whitespace; a non-empty explanation neither starts nor ends with whitespace |
| BuildGenerateExplanation.ExplanationIdempotent | build/lambda_generate_explanation/handler.py:137 | making an explanation from an explanation gives it back |
| BuildGenerateExplanation.StrippedIsFixed | build/lambda_generate_explanation/handler.py:137 | `strip()` leaves a text without surrounding whitespace unchanged |
| BuildGenerateExplanation.Answered | build/lambda_generate_explanation/handler.py:125-144 | a failed call raises RuntimeError("Failed to generate LLM explanation: ..." and the configuration hint); an answer becomes the explanation |
| BuildGenerateExplanation.GenerateExplanation | build/lambda_generate_explanation/handler.py:111-144 | a non-dict document raises AttributeError before any call, since the prompt is built outside the try; otherwise the model receives the user prompt; every failure is that AttributeError or a RuntimeError |
| BuildGenerateExplanation.Handler | build/lambda_generate_explanation/handler.py:147-263 | the target date defaults to today; a missing patient id answers 400; a missing document answers 404 "Processed data not found in S3"; otherwise the explanation is stored under the day's key in the explanations bucket with the deployment as model, and the answer is 200 with the preview, or the error's 400/500; nothing is stored unless the answer is 200 |
| Text.Strip | lambda_generate_explanation/handler.py:216 | `strip()` returns a slice of the text with only whitespace removed at either end; the result neither starts nor ends with whitespace; it is empty iff the text is all whitespace |
| Text.RStrip | lambda_generate_explanation/handler.py:227 | `rstrip()` removes exactly the trailing whitespace |
| Text.JoinContainsPart | lambda_generate_explanation/handler.py:145 | every part of a join occurs in the joined text |
| PyValue.LookupFinds | lambda_generate_explanation/handler.py:90 | `dict.get` finds a value iff the key is present, and the value is the one stored under the key |

## Left out

- Storage and service calls are not executed. The S3 client is replaced by a map from (bucket, key) to a stored object, and the put's outcome is a parameter. The proxy Lambda's invoke and the chat completion are function parameters, and so are `json.loads` of the proxy's body and `str()` of floats and containers. The invoke's `Payload.read()` and its parse are one parameter outcome.
- The clocks are parameters: `date.today()`, yesterday, and the generation time.
- `strptime` is modelled for the zero-padded `YYYY-MM-DD` form only. It also accepts unpadded months and days, and those dates are not modelled. Every rejected text raises the same ValueError message ("does not match format"), while Python says "day is out of range for month" for a well-formed date that does not exist and "unconverted data remains" for trailing text; the 400 answer is the same.
- S3Utils.GetS3KeyForDate: the year is always written with four digits. `strftime("%Y")` may leave years below 1000 unpadded, depending on the platform, so the key for such a year is not promised.
- Floats are exact reals with a NaN tag. Rounding is not modelled, so the means and sums are exact.
- pandas specifics are not modelled: dtype coercion, None-versus-NaN in object columns, numpy scalar conversion in `clean_nan_values` (the `pd.Series` and `np.ndarray` branches and numpy ints), and the `pd.isna` fallback on other objects.
- `sort_values` is not stable in pandas. The model sorts by insertion, which keeps equal dates in input order.
- `load_recent_history` and `list_s3_objects` are not part of this model; both are loops over storage calls. The current processing handler is modelled only through its pieces: extraction, detection, row selection and cleaning.
- The system prompts are a parameter. Logging and the upload's object metadata are left out, since they are side effects only.
- Case mapping is ASCII only. For the ASCII keywords and the disclaimer phrase it agrees with Python's `lower()`.
- Dictionaries are entry lists, and `get` takes the first matching key. Parsed JSON has no duplicate keys.
- The fetch Lambda, the wearable API client, the configuration classes and the packaging scripts are not part of this model.
- GenerateExplanation.FallbackStatus: the fallback on an invoke exception whose text is empty reports `llm_status` "ok". The model keeps this behaviour as the source has it; it is not corrected.
