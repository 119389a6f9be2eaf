/** The explanation handler that asks a proxy Lambda in front of a hosted
    language model: recognising a throttled model, falling back to a fixed
    message, interpreting the proxy's answer, making sure the explanation
    carries the medical disclaimer, and the handler around it. */
module GenerateExplanation {
  import opened Wrappers
  import opened Text
  import opened Dates
  import opened PyValue
  import opened S3Utils
  import opened HandlerCommon
  import opened UserPrompt

  /** The lower-case fragments that mark an error text as throttling. */
  const ThrottleKeywords: seq<string> :=
    ["throttlingexception", "too many requests", "timeout", "timed out", "rate exceeded"]

  /** `any(keyword in lowered for keyword in keywords)`. */
  function AnyKeywordIn(lowered: string, keywords: seq<string>): (r: bool)
    ensures r <==> exists k :: 0 <= k < |keywords| && Contains(lowered, keywords[k])
  {
    if keywords == [] then false
    else Contains(lowered, keywords[0]) || AnyKeywordIn(lowered, keywords[1..])
  }

  /** An error text is throttling when its lower-case form contains one of
      the keywords. */
  predicate MatchesThrottlingError(message: string) {
    AnyKeywordIn(Lower(message), ThrottleKeywords)
  }

  /** Lowering after raising the case is lowering. */
  lemma LowerOfUpper(s: string)
    ensures Lower(Upper(s)) == Lower(s)
  {
    forall i | 0 <= i < |s| ensures Lower(Upper(s))[i] == Lower(s)[i] {
      assert Upper(s)[i] == UpperChar(s[i]);
    }
  }

  /** The match ignores case: an error text and its upper-case form are
      classified alike. */
  lemma ThrottlingIgnoresCase(message: string)
    ensures MatchesThrottlingError(Upper(message)) == MatchesThrottlingError(message)
  {
    LowerOfUpper(message);
  }

  /** Text that carries a keyword verbatim is throttling, whatever
      surrounds it. */
  lemma KeywordIsThrottling(before: string, k: nat, after: string)
    requires k < |ThrottleKeywords|
    ensures MatchesThrottlingError(before + ThrottleKeywords[k] + after)
  {
    var keyword := ThrottleKeywords[k];
    assert NoUpper(keyword) by {
      assert NoUpper(ThrottleKeywords[0]) && NoUpper(ThrottleKeywords[1]) && NoUpper(ThrottleKeywords[2]);
      assert NoUpper(ThrottleKeywords[3]) && NoUpper(ThrottleKeywords[4]);
    }
    LowerOfNoUpper(keyword);
    LowerAppend(before + keyword, after);
    LowerAppend(before, keyword);
    ContainsItself(keyword);
    ContainsInSuffix(Lower(before), keyword, keyword);
    ContainsInPrefix(Lower(before) + keyword, Lower(after), keyword);
  }

  const FallbackMessage :=
    "We couldn’t generate an AI explanation right now due to model limits. "
    + "Your raw metrics have still been processed and saved."

  const FallbackModel := "bedrock-claude-3-5-sonnet"

  const FallbackUsage: Value := Dict([Entry("input_tokens", Int(0)), Entry("output_tokens", Int(0))])

  /** An explanation and the metadata of its generation. */
  datatype Generated = Generated(explanation: string, metadata: seq<Entry>)

  /** The fixed message, with the model, zero usage and the reason. */
  function FallbackResponse(reason: Value): (g: Generated)
    ensures g.explanation == FallbackMessage
    ensures Keys(g.metadata) == ["model", "usage", "error"]
    ensures Get(g.metadata, "error") == reason
    ensures Get(g.metadata, "model") == Str(FallbackModel) && Get(g.metadata, "usage") == FallbackUsage
  {
    var metadata := [Entry("model", Str(FallbackModel)), Entry("usage", FallbackUsage), Entry("error", reason)];
    assert "usage"[0] != "error"[0] && "model"[0] != "error"[0] && "model"[0] != "usage"[0];
    assert metadata[1..][1..] == [Entry("error", reason)];
    assert Lookup(metadata[1..][1..], "error") == Some(reason);
    assert Lookup(metadata[1..], "error") == Some(reason);
    assert Lookup(metadata[1..], "usage") == Some(FallbackUsage);
    assert Keys(metadata[1..]) == ["usage"] + Keys(metadata[1..][1..]);
    Generated(FallbackMessage, metadata)
  }

  /** The phrase whose presence, in any case, shows the explanation carries
      the disclaimer. */
  const DisclaimerPhrase := "not a substitute" + " for professional" + " medical advice"

  /** The phrase is in lower case, so lowering an explanation cannot hide
      it. */
  lemma PhraseIsLowerCase()
    ensures Lower(DisclaimerPhrase) == DisclaimerPhrase
  {
    assert NoUpper("not a substitute") && NoUpper(" for professional") && NoUpper(" medical advice");
    NoUpperAppend("not a substitute", " for professional");
    NoUpperAppend("not a substitute" + " for professional", " medical advice");
    LowerOfNoUpper(DisclaimerPhrase);
  }

  const Disclaimer :=
    "This explanation is for general information only and is "
    + DisclaimerPhrase
    + ", diagnosis, or treatment. Always talk to your doctor or healthcare team about any questions or concerns."

  /** What an empty answer is replaced with, before the disclaimer. */
  const Apology :=
    "I’m not able to interpret your health metrics right now. "
    + "Please check back later, and reach out to your doctor or healthcare team "
    + "if you have any concerns about your health.\n\n"

  /** The stripped answer, given the disclaimer when it lacks the phrase;
      the apology and the disclaimer when the answer is empty. */
  function FinishExplanation(answer: string): (explanation: string)
    ensures Strip(answer) != [] && Contains(Lower(Strip(answer)), DisclaimerPhrase) ==>
      explanation == Strip(answer)
    ensures Strip(answer) != [] && !Contains(Lower(Strip(answer)), DisclaimerPhrase) ==>
      explanation == Strip(answer) + "\n\n" + Disclaimer
    ensures Strip(answer) == [] ==> explanation == Apology + Disclaimer
  {
    var stripped := Strip(answer);
    if stripped != [] then
      if !Contains(Lower(stripped), DisclaimerPhrase) then
        RStripOfStripped(answer);
        RStrip(stripped) + "\n\n" + Disclaimer
      else stripped
    else Apology + Disclaimer
  }

  /** Any text followed by the disclaimer carries the phrase. */
  lemma {:induction false} EndsWithDisclaimer(prefix: string)
    ensures Contains(Lower(prefix + Disclaimer), DisclaimerPhrase)
  {
    var head := "This explanation is for general information only and is ";
    var tail := ", diagnosis, or treatment. Always talk to your doctor or healthcare team about any questions or concerns.";
    assert Disclaimer == head + DisclaimerPhrase + tail;
    PhraseIsLowerCase();
    LowerAppend(head, DisclaimerPhrase);
    LowerAppend(head + DisclaimerPhrase, tail);
    LowerAppend(prefix, Disclaimer);
    ContainsItself(DisclaimerPhrase);
    ContainsInSuffix(Lower(head), DisclaimerPhrase, DisclaimerPhrase);
    ContainsInPrefix(Lower(head) + DisclaimerPhrase, Lower(tail), DisclaimerPhrase);
    ContainsInSuffix(Lower(prefix), Lower(Disclaimer), DisclaimerPhrase);
  }

  /** A finished explanation is never empty and always carries the phrase;
      a non-empty answer stays at its front. */
  lemma FinishedCarriesDisclaimer(answer: string)
    ensures FinishExplanation(answer) != []
    ensures Contains(Lower(FinishExplanation(answer)), DisclaimerPhrase)
    ensures StartsWith(FinishExplanation(answer), Strip(answer))
  {
    var stripped := Strip(answer);
    var explanation := FinishExplanation(answer);
    if stripped == [] {
      EndsWithDisclaimer(Apology);
    } else if !Contains(Lower(stripped), DisclaimerPhrase) {
      EndsWithDisclaimer(stripped + "\n\n");
      assert explanation == stripped + "\n\n" + Disclaimer;
      assert explanation[..|stripped|] == stripped;
    }
  }

  /** What invoking the proxy Lambda gave: an exception with its text, or
      the payload read and parsed as JSON (the text of the exception when
      that failed). */
  datatype InvokeOutcome =
    | InvokeRaised(message: string)
    | InvokeReturned(payload: Result<Value, string>)

  /** `status_code != 200` is false only for an int or a float equal to 200. */
  predicate IsOk(statusCode: Value) {
    statusCode == Int(200) || statusCode == Float(200.0)
  }

  // The messages are written in pieces so that their first characters and
  // lengths are cheap for the verifier to read off.
  const MissingExplanation := "Bedrock lambda response " + "did not include an explanation."

  const InvalidJsonBody := "Invalid" + " JSON body from Bedrock lambda: "

  const InvalidResponse := "Invalid" + " response from Bedrock lambda: "

  const BodyNotObject := "Bedrock lambda response " + "body must be a JSON object."

  /** The answer's body as a dictionary: a text body is parsed with `decode`
      (json.loads) first; what is not a dictionary then raises. */
  function ResponseBody(lambdaResult: seq<Entry>, decode: string -> Result<Value, string>)
    : (r: Result<seq<Entry>, Exception>)
    ensures var body := Get(lambdaResult, "body");
      && (body.Dict? ==> r == Success(body.entries))
      && (!body.Dict? && !body.Str? ==> r == Failure(RuntimeError(BodyNotObject)))
      && (body.Str? && decode(body.s).Failure? ==>
            r == Failure(RuntimeError(InvalidJsonBody + decode(body.s).error)))
      && (body.Str? && decode(body.s).Success? ==>
            r == if decode(body.s).value.Dict? then Success(decode(body.s).value.entries)
                 else Failure(RuntimeError(BodyNotObject)))
  {
    var body := Get(lambdaResult, "body");
    var parsed :=
      if body.Str? then
        match decode(body.s)
        case Failure(err) => Failure(RuntimeError(InvalidJsonBody + err))
        case Success(v) => Success(v)
      else Success(body);
    match parsed
    case Failure(e) => Failure(e)
    case Success(v) =>
      if v.Dict? then Success(v.entries)
      else Failure(RuntimeError(BodyNotObject))
  }

  /** The decision on a well-formed body: the fallback when the body says
      the call failed or its error text is throttling, otherwise the
      finished explanation with the model and usage the body reports. */
  function FromBody(body: seq<Entry>): (r: Result<Generated, Exception>)
    ensures r.Failure? ==> r == Failure(AttributeError)
  {
    var errorText := Get(body, "error", Str(""));
    var success := Get(body, "success", Bool(true));
    if success == Bool(false) || (errorText.Str? && MatchesThrottlingError(errorText.s)) then
      Success(FallbackResponse(Or(errorText, Str("Bedrock lambda reported failure."))))
    else
      var answer := Or(Get(body, "explanation"), Str(""));
      if !answer.Str? then Failure(AttributeError)
      else
        var explanation := FinishExplanation(answer.s);
        if explanation == [] then Failure(RuntimeError(MissingExplanation))
        else
          Success(Generated(explanation, [
            Entry("model", Or(Get(body, "model"), Str(FallbackModel))),
            Entry("usage", Get(body, "usage", FallbackUsage))]))
  }

  /** The result of `generate_explanation` once the proxy was invoked. */
  function Interpret(outcome: InvokeOutcome, decode: string -> Result<Value, string>,
                     render: Value -> string): (r: Result<Generated, Exception>)
    ensures outcome.InvokeRaised? ==> r == Success(FallbackResponse(Str(outcome.message)))
    ensures outcome.InvokeReturned? && outcome.payload.Failure? ==>
      r == Failure(RuntimeError(InvalidResponse + outcome.payload.error))
    ensures outcome.InvokeReturned? && outcome.payload.Success? && !outcome.payload.value.Dict? ==>
      r == Failure(AttributeError)
    ensures outcome.InvokeReturned? && outcome.payload.Success? && outcome.payload.value.Dict? ==>
      var statusCode := Get(outcome.payload.value.entries, "statusCode", Int(500));
      && (!IsOk(statusCode) ==>
            r == Success(FallbackResponse(Str("Non-200 status code: " + PyStr(statusCode, render)))))
      && (IsOk(statusCode) ==>
            r == match ResponseBody(outcome.payload.value.entries, decode)
                 case Failure(e) => Failure(e)
                 case Success(body) => FromBody(body))
    ensures r.Failure? ==> r.error.RuntimeError? || r.error == AttributeError
  {
    match outcome
    case InvokeRaised(message) => Success(FallbackResponse(Str(message)))
    case InvokeReturned(payload) =>
      match payload
      case Failure(err) => Failure(RuntimeError(InvalidResponse + err))
      case Success(lambdaResult) =>
        if !lambdaResult.Dict? then Failure(AttributeError)
        else
          var statusCode := Get(lambdaResult.entries, "statusCode", Int(500));
          if !IsOk(statusCode) then
            Success(FallbackResponse(Str("Non-200 status code: " + PyStr(statusCode, render))))
          else
            match ResponseBody(lambdaResult.entries, decode)
            case Failure(e) => Failure(e)
            case Success(body) => FromBody(body)
  }

  /** A well-formed body never yields the "no explanation" error: the
      finished explanation is never empty. */
  lemma BodyNeverMissing(body: seq<Entry>)
    ensures FromBody(body) != Failure(RuntimeError(MissingExplanation))
  {
    var answer := Or(Get(body, "explanation"), Str(""));
    if answer.Str? {
      FinishedCarriesDisclaimer(answer.s);
    }
  }

  /** The "no explanation" error cannot happen. */
  lemma NeverMissingExplanation(outcome: InvokeOutcome, decode: string -> Result<Value, string>,
                                render: Value -> string)
    ensures Interpret(outcome, decode, render) != Failure(RuntimeError(MissingExplanation))
  {
    assert MissingExplanation[0] == 'B';
    if outcome.InvokeReturned? && outcome.payload.Failure? {
      assert (InvalidResponse + outcome.payload.error)[0] == 'I';
    } else if outcome.InvokeReturned? && outcome.payload.value.Dict? {
      var lambdaResult := outcome.payload.value.entries;
      if IsOk(Get(lambdaResult, "statusCode", Int(500))) {
        var body := ResponseBody(lambdaResult, decode);
        if body.Success? {
          BodyNeverMissing(body.value);
          assert Interpret(outcome, decode, render) == FromBody(body.value);
        } else {
          var b := Get(lambdaResult, "body");
          if b.Str? && decode(b.s).Failure? {
            assert (InvalidJsonBody + decode(b.s).error)[0] == 'I';
          } else {
            assert |BodyNotObject| != |MissingExplanation|;
          }
        }
      }
    }
  }

  /** A proxy answer without a status code counts as status 500 and falls
      back. */
  lemma MissingStatusFallsBack(entries: seq<Entry>, decode: string -> Result<Value, string>,
                               render: Value -> string)
    requires "statusCode" !in Keys(entries)
    ensures Interpret(InvokeReturned(Success(Dict(entries))), decode, render)
         == Success(FallbackResponse(Str("Non-200 status code: " + IntToString(500))))
  {
    LookupFinds(entries, "statusCode");
    assert Get(entries, "statusCode", Int(500)) == Int(500);
  }

  lemma FiveHundredText()
    ensures IntToString(500) == "500"
  {
    assert NatToString(50) == NatToString(5) + ['0'];
    assert NatToString(500) == NatToString(50) + ['0'];
  }

  /** Which well-formed bodies fall back: exactly those whose `success` is
      False or whose error text is throttling; the reason is the error text,
      or a fixed text when that is falsy. */
  lemma BodyFallback(body: seq<Entry>)
    ensures var errorText := Get(body, "error", Str(""));
      (Get(body, "success", Bool(true)) == Bool(false) || (errorText.Str? && MatchesThrottlingError(errorText.s)))
      ==> FromBody(body) == Success(FallbackResponse(Or(errorText, Str("Bedrock lambda reported failure."))))
    ensures var errorText := Get(body, "error", Str(""));
      (Get(body, "success", Bool(true)) != Bool(false) && !(errorText.Str? && MatchesThrottlingError(errorText.s)))
      ==> FromBody(body).Failure? || "error" !in Keys(FromBody(body).value.metadata)
  {
    assert "model"[0] != "error"[0] && "usage"[0] != "error"[0];
  }

  /** Every explanation that is not the fallback carries the disclaimer. */
  lemma AnswerCarriesDisclaimer(outcome: InvokeOutcome, decode: string -> Result<Value, string>,
                                render: Value -> string)
    requires Interpret(outcome, decode, render).Success?
    requires Interpret(outcome, decode, render).value.explanation != FallbackMessage
    ensures Contains(Lower(Interpret(outcome, decode, render).value.explanation), DisclaimerPhrase)
  {
    var body := ResponseBody(outcome.payload.value.entries, decode).value;
    var answer := Or(Get(body, "explanation"), Str(""));
    FinishedCarriesDisclaimer(answer.s);
  }

  /** The message when the proxy Lambda is not configured. */
  const LambdaNameRequired := "BEDROCK_LAMBDA_NAME environment variable must be set."

  /** `generate_explanation`. `lambdaName` is BEDROCK_LAMBDA_NAME,
      `systemPrompt` the fixed instructions, `invoke` the proxy Lambda
      (given the full prompt), `decode` json.loads and `render` str. Without
      a Lambda name nothing is built or sent; otherwise `sent` is the prompt
      the proxy receives. */
  method GenerateExplanation(lambdaName: Option<string>, doc: Value, systemPrompt: string,
                             invoke: string -> InvokeOutcome, decode: string -> Result<Value, string>,
                             render: Value -> string)
    returns (r: Result<Generated, Exception>, sent: Option<string>)
    ensures lambdaName.None? || lambdaName.value == "" ==>
      r == Failure(RuntimeError(LambdaNameRequired)) && sent.None?
    ensures lambdaName.Some? && lambdaName.value != "" && !doc.Dict? ==>
      r == Failure(AttributeError) && sent.None?
    ensures lambdaName.Some? && lambdaName.value != "" && doc.Dict? ==>
      var prompt := systemPrompt + "\n\n" + Join("\n", PromptLines(FieldsOf(doc.entries, render), Names(SetFlags(ActiveSet(doc.entries), FlagOrder))));
      && sent == Some(prompt)
      && r == Interpret(invoke(prompt), decode, render)
  {
    sent := None;
    if lambdaName.None? || lambdaName.value == "" {
      r := Failure(RuntimeError(LambdaNameRequired));
      return;
    }
    if !doc.Dict? {
      r := Failure(AttributeError);
      return;
    }
    var userPrompt := BuildUserPrompt(doc.entries, render);
    var fullPrompt := systemPrompt + "\n\n" + userPrompt;
    sent := Some(fullPrompt);
    r := Interpret(invoke(fullPrompt), decode, render);
  }

  /** `llm_status`: "fallback" when the generation metadata has a truthy
      error. */
  function LlmStatus(metadata: seq<Entry>): (status: string)
    ensures status == "fallback" <==> Truthy(Get(metadata, "error"))
    ensures status == "fallback" || status == "ok"
  {
    if Truthy(Get(metadata, "error")) then "fallback" else "ok"
  }

  /** Every fallback reason but the text of an invoke exception is truthy,
      so those fallbacks report "fallback"; an invoke exception with an
      empty text reports "ok" although the fallback message was used. */
  lemma FallbackStatus(outcome: InvokeOutcome, decode: string -> Result<Value, string>,
                       render: Value -> string)
    requires Interpret(outcome, decode, render).Success?
    ensures var g := Interpret(outcome, decode, render).value;
      outcome.InvokeReturned? && "error" in Keys(g.metadata) ==> LlmStatus(g.metadata) == "fallback"
    ensures outcome == InvokeRaised("") ==>
      && Interpret(outcome, decode, render).value.explanation == FallbackMessage
      && LlmStatus(Interpret(outcome, decode, render).value.metadata) == "ok"
  {
    var g := Interpret(outcome, decode, render).value;
    if outcome.InvokeReturned? && "error" in Keys(g.metadata) {
      var lambdaResult := outcome.payload.value.entries;
      var statusCode := Get(lambdaResult, "statusCode", Int(500));
      if IsOk(statusCode) {
        var body := ResponseBody(lambdaResult, decode).value;
        BodyFallback(body);
      }
    }
  }

  /** The `_metadata` of the stored explanation. */
  function ExplanationMetadata(generation: seq<Entry>, now: string): Value {
    var base := [
      Entry("generated_at", Str(now)),
      Entry("source", Str("bedrock_claude-3-5-sonnet")),
      Entry("model", Get(generation, "model")),
      Entry("usage", Get(generation, "usage"))];
    Dict(if Truthy(Get(generation, "error")) then base + [Entry("error", Get(generation, "error"))] else base)
  }

  /** The document stored in the explanations bucket. */
  function ExplanationResult(patientId: Value, date: Date, data: seq<Entry>, g: Generated, now: string): Value {
    Dict([
      Entry("patient_id", patientId),
      Entry("date", Str(IsoFormat(date))),
      Entry("explanation", Str(g.explanation)),
      Entry("metrics_summary", MetricsSummary(data)),
      Entry("_metadata", ExplanationMetadata(g.metadata, now))])
  }

  function SuccessResponse(patientId: Value, date: Date, key: string, bucket: string, g: Generated)
    : (r: Response)
    ensures r.statusCode == 200
  {
    Response(200, JsonBody(Dict([
      Entry("status", Str("success")),
      Entry("llm_status", Str(LlmStatus(g.metadata))),
      Entry("patient_id", patientId),
      Entry("date", Str(IsoFormat(date))),
      Entry("s3_key", Str(key)),
      Entry("s3_bucket", Str(bucket)),
      Entry("explanation_preview", Str(Preview(g.explanation)))])))
  }

  /** The handler. `yesterday` and `now` stand for the clock; the other
      parameters are those of GenerateExplanation and, for the upload,
      the storage service's error code. */
  method Handler(event: seq<Entry>, settings: Settings, lambdaName: Option<string>, store: Store,
                 yesterday: Date, now: string, systemPrompt: string,
                 invoke: string -> InvokeOutcome, decode: string -> Result<Value, string>,
                 render: Value -> string, putError: Option<string>)
    returns (response: Response, newStore: Store)
    ensures PatientIdOf(event, settings).Failure? ==>
      response == Response(400, ErrorBody(ValueError(PatientIdRequired))) && newStore == store
    ensures response.statusCode in {200, 400, 404, 500}
    ensures response.statusCode != 200 ==> newStore == store
    ensures LoadProcessed(event, settings, store, yesterday, render).Failure? ==>
      response == ErrorResponse(LoadProcessed(event, settings, store, yesterday, render).error)
    ensures LoadProcessed(event, settings, store, yesterday, render).Success? ==>
      var loaded := LoadProcessed(event, settings, store, yesterday, render).value;
      && (loaded.NoProcessedData? ==>
            response == NotFoundResponse(loaded.patientId, loaded.date, "Processed data not found in S3"))
      && (loaded.ProcessedDay? && (lambdaName.None? || lambdaName.value == "") ==>
            response == ErrorResponse(RuntimeError(LambdaNameRequired)))
      && (loaded.ProcessedDay? && lambdaName.Some? && lambdaName.value != "" && !loaded.doc.Dict? ==>
            response == ErrorResponse(AttributeError))
      && (loaded.ProcessedDay? && lambdaName.Some? && lambdaName.value != "" && loaded.doc.Dict? ==>
            var prompt := systemPrompt + "\n\n" + Join("\n", PromptLines(FieldsOf(loaded.doc.entries, render), Names(SetFlags(ActiveSet(loaded.doc.entries), FlagOrder))));
            var generated := Interpret(invoke(prompt), decode, render);
            var key := DayKey(loaded.patientId, loaded.date, render);
            match generated
            case Failure(e) => response == ErrorResponse(e)
            case Success(g) =>
              var doc := ExplanationResult(loaded.patientId, loaded.date, loaded.doc.entries, g, now);
              match UploadJsonToS3(store, doc, key, "explanations", settings.buckets, putError)
              case Failure(e) => response == ErrorResponse(e)
              case Success(stored) =>
                && newStore == stored
                && response == SuccessResponse(loaded.patientId, loaded.date, key, settings.buckets.explanationsBucketName, g))
  {
    newStore := store;
    var loaded := LoadProcessed(event, settings, store, yesterday, render);
    if loaded.Failure? {
      response := ErrorResponse(loaded.error);
      return;
    }
    match loaded.value
    case NoProcessedData(patientId, date) =>
      response := NotFoundResponse(patientId, date, "Processed data not found in S3");
    case ProcessedDay(patientId, date, doc) =>
      var generated, _ := GenerateExplanation(lambdaName, doc, systemPrompt, invoke, decode, render);
      if generated.Failure? {
        response := ErrorResponse(generated.error);
        return;
      }
      var g := generated.value;
      var key := DayKey(patientId, date, render);
      var result := ExplanationResult(patientId, date, doc.entries, g, now);
      var upload := UploadJsonToS3(store, result, key, "explanations", settings.buckets, putError);
      if upload.Failure? {
        response := ErrorResponse(upload.error);
      } else {
        newStore := upload.value;
        response := SuccessResponse(patientId, date, key, settings.buckets.explanationsBucketName, g);
      }
  }
}
