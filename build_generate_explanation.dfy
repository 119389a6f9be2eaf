/** The packaged explanation handler that calls a hosted chat model
    directly: turning the model's answer into the explanation, reporting a
    failed call, and the handler that stores the result. The prompt is the
    one of UserPrompt. */
module BuildGenerateExplanation {
  import opened Wrappers
  import opened Text
  import opened Dates
  import opened PyValue
  import opened S3Utils
  import opened HandlerCommon
  import opened UserPrompt

  /** The explanation when the model answers with no content. Written in
      two pieces so that its last character is cheap to read off. */
  const Unavailable := "Unable to generate explanation" + "."

  /** The explanation made of the model's answer: the answer stripped of
      surrounding whitespace, or a fixed text when there is no answer or it
      is empty. */
  function ContentToExplanation(content: Option<string>): (explanation: string)
    ensures content.None? || content.value == [] ==> explanation == Unavailable
    ensures content.Some? && content.value != [] ==> explanation == Strip(content.value)
  {
    if content.Some? && content.value != [] then Strip(content.value) else Unavailable
  }

  /** A text that neither starts nor ends with whitespace is its own strip. */
  lemma StrippedIsFixed(s: string)
    requires s != [] ==> !IsSpace(s[0]) && !IsSpace(s[|s| - 1])
    ensures Strip(s) == s
  {
    if s != [] {
      assert LeadingSpaces(s) == 0;
      assert TrailingSpaces(s) == 0;
      assert s[0..] == s;
    }
  }

  /** The explanation is empty exactly when the answer is nothing but
      whitespace, and an explanation never starts or ends with whitespace. */
  lemma ExplanationShape(content: Option<string>)
    ensures ContentToExplanation(content) == [] <==>
      content.Some? && content.value != [] && forall k :: 0 <= k < |content.value| ==> IsSpace(content.value[k])
    ensures var e := ContentToExplanation(content);
      e != [] ==> !IsSpace(e[0]) && !IsSpace(e[|e| - 1])
  {
    assert Unavailable[0] == 'U';
    assert Unavailable[|Unavailable| - 1] == '.';
  }

  /** Making an explanation of an explanation changes nothing. */
  lemma ExplanationIdempotent(content: Option<string>)
    ensures var e := ContentToExplanation(content);
      e != [] ==> ContentToExplanation(Some(e)) == e
  {
    ExplanationShape(content);
    StrippedIsFixed(ContentToExplanation(content));
  }

  /** The text of the error raised when the call to the model fails with
      the exception text `e`. */
  function GenerationFailed(e: string): string {
    "Failed to generate LLM explanation: " + e + ". Check your Azure OpenAI configuration and API credentials."
  }

  /** The result once the model was called: the explanation made of its
      answer, or the error raised when the call failed. */
  function Answered(reply: Result<Option<string>, string>): (r: Result<string, Exception>)
    ensures reply.Failure? ==> r == Failure(RuntimeError(GenerationFailed(reply.error)))
    ensures reply.Success? ==> r == Success(ContentToExplanation(reply.value))
  {
    match reply
    case Failure(e) => Failure(RuntimeError(GenerationFailed(e)))
    case Success(content) => Success(ContentToExplanation(content))
  }

  /** `generate_explanation`. `complete` is the chat completion, given the
      system prompt and the user prompt: the content of the first choice, or
      the text of the exception the call raised (an empty choice list
      included). The prompt is built before the call, so a document that is
      not a dictionary raises before anything is sent. */
  method GenerateExplanation(doc: Value, systemPrompt: string,
                             complete: (string, string) -> Result<Option<string>, string>,
                             render: Value -> string)
    returns (r: Result<string, Exception>, sent: Option<string>)
    ensures !doc.Dict? ==> r == Failure(AttributeError) && sent.None?
    ensures doc.Dict? ==>
      var prompt := Join("\n", PromptLines(FieldsOf(doc.entries, render), Names(SetFlags(ActiveSet(doc.entries), FlagOrder))));
      sent == Some(prompt) && r == Answered(complete(systemPrompt, prompt))
    ensures r.Failure? ==> r.error == AttributeError || r.error.RuntimeError?
  {
    sent := None;
    if !doc.Dict? {
      r := Failure(AttributeError);
      return;
    }
    var userPrompt := BuildUserPrompt(doc.entries, render);
    sent := Some(userPrompt);
    r := Answered(complete(systemPrompt, userPrompt));
  }

  /** The document stored in the explanations bucket; `deployment` is the
      model deployment's name and `now` the generation time. */
  function ExplanationResult(patientId: Value, date: Date, data: seq<Entry>, explanation: string,
                             deployment: string, now: string): Value {
    Dict([
      Entry("patient_id", patientId),
      Entry("date", Str(IsoFormat(date))),
      Entry("explanation", Str(explanation)),
      Entry("metrics_summary", MetricsSummary(data)),
      Entry("_metadata", Dict([
        Entry("generated_at", Str(now)),
        Entry("source", Str("lambda_generate_explanation")),
        Entry("model", Str(deployment))]))])
  }

  /** The 200 answer after the explanation was stored. */
  function SuccessResponse(patientId: Value, date: Date, key: string, bucket: string,
                           explanation: string): (r: Response)
    ensures r.statusCode == 200
  {
    Response(200, JsonBody(Dict([
      Entry("status", Str("success")),
      Entry("patient_id", patientId),
      Entry("date", Str(IsoFormat(date))),
      Entry("s3_key", Str(key)),
      Entry("s3_bucket", Str(bucket)),
      Entry("explanation_preview", Str(Preview(explanation)))])))
  }

  /** The handler. `today` and `now` stand for the clock, `deployment` for
      the configured model deployment, `putError` for the storage service's
      answer to the upload. */
  method Handler(event: seq<Entry>, settings: Settings, store: Store, today: Date, now: string,
                 deployment: string, systemPrompt: string,
                 complete: (string, string) -> Result<Option<string>, string>,
                 render: Value -> string, putError: Option<string>)
    returns (response: Response, newStore: Store)
    ensures PatientIdOf(event, settings).Failure? ==>
      response == Response(400, ErrorBody(ValueError(PatientIdRequired))) && newStore == store
    ensures response.statusCode in {200, 400, 404, 500}
    ensures response.statusCode != 200 ==> newStore == store
    ensures LoadProcessed(event, settings, store, today, render).Failure? ==>
      response == ErrorResponse(LoadProcessed(event, settings, store, today, render).error)
    ensures LoadProcessed(event, settings, store, today, render).Success? ==>
      var loaded := LoadProcessed(event, settings, store, today, render).value;
      && (loaded.NoProcessedData? ==>
            response == NotFoundResponse(loaded.patientId, loaded.date, "Processed data not found in S3"))
      && (loaded.ProcessedDay? && !loaded.doc.Dict? ==> response == ErrorResponse(AttributeError))
      && (loaded.ProcessedDay? && loaded.doc.Dict? ==>
            var prompt := Join("\n", PromptLines(FieldsOf(loaded.doc.entries, render), Names(SetFlags(ActiveSet(loaded.doc.entries), FlagOrder))));
            var key := DayKey(loaded.patientId, loaded.date, render);
            match Answered(complete(systemPrompt, prompt))
            case Failure(e) => response == ErrorResponse(e)
            case Success(explanation) =>
              var doc := ExplanationResult(loaded.patientId, loaded.date, loaded.doc.entries, explanation, deployment, now);
              match UploadJsonToS3(store, doc, key, "explanations", settings.buckets, putError)
              case Failure(e) => response == ErrorResponse(e)
              case Success(stored) =>
                && newStore == stored
                && response == SuccessResponse(loaded.patientId, loaded.date, key, settings.buckets.explanationsBucketName, explanation))
  {
    newStore := store;
    var loaded := LoadProcessed(event, settings, store, today, render);
    if loaded.Failure? {
      response := ErrorResponse(loaded.error);
      return;
    }
    match loaded.value
    case NoProcessedData(patientId, date) =>
      response := NotFoundResponse(patientId, date, "Processed data not found in S3");
    case ProcessedDay(patientId, date, doc) =>
      var generated, _ := GenerateExplanation(doc, systemPrompt, complete, render);
      if generated.Failure? {
        response := ErrorResponse(generated.error);
        return;
      }
      var explanation := generated.value;
      var key := DayKey(patientId, date, render);
      var result := ExplanationResult(patientId, date, doc.entries, explanation, deployment, now);
      var upload := UploadJsonToS3(store, result, key, "explanations", settings.buckets, putError);
      if upload.Failure? {
        response := ErrorResponse(upload.error);
      } else {
        newStore := upload.value;
        response := SuccessResponse(patientId, date, key, settings.buckets.explanationsBucketName, explanation);
      }
  }
}
