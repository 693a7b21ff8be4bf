/**
 * The AI analysis pipeline (src/services/mealAnalysis.ts): the upload file
 * name, the error mapping of the edge-function call, and the sequence of
 * progress steps reported by the image workflow and the text-only workflow.
 * Storage and the edge function are black boxes whose answers are inputs.
 */
module MealAnalysis {
  import opened Common
  import opened Records

  function DigitChar(d: int): (c: char)
    requires 0 <= d < 10
    ensures '0' <= c <= '9'
  {
    (('0' as int) + d) as char
  }

  predicate IsDigits(s: string) {
    forall k :: 0 <= k < |s| ==> '0' <= s[k] <= '9'
  }

  /** `n.toString()` for a natural number: its decimal digits, no leading zeros. */
  function NatToString(n: nat): (r: string)
    ensures |r| >= 1 && IsDigits(r)
    ensures |r| > 1 ==> r[0] != '0'
  {
    if n < 10 then [DigitChar(n)] else NatToString(n / 10) + [DigitChar(n % 10)]
  }

  /** Reading decimal digits back. */
  function ParseDigits(s: string): nat
    requires IsDigits(s)
  {
    if s == [] then 0 else ParseDigits(s[..|s| - 1]) * 10 + ((s[|s| - 1] as int) - ('0' as int))
  }

  lemma {:induction false} ParseNatToString(n: nat)
    ensures ParseDigits(NatToString(n)) == n
  {
    if n >= 10 {
      var s := NatToString(n);
      assert s[..|s| - 1] == NatToString(n / 10);
      ParseNatToString(n / 10);
    }
  }

  const JpgSuffix := ".jpg"

  /** `${userId}/${timestamp}.jpg`. */
  function UploadFilename(userId: UserId, timestamp: nat): (r: string)
    ensures |r| > |userId| + 1 + |JpgSuffix|
    ensures r[..|userId| + 1] == userId + "/"
    ensures r[|r| - |JpgSuffix|..] == JpgSuffix
    ensures r[|userId| + 1..|r| - |JpgSuffix|] == NatToString(timestamp)
  {
    userId + "/" + NatToString(timestamp) + JpgSuffix
  }

  /** One user's uploads at different milliseconds never share a file name. */
  lemma FilenameDeterminesTimestamp(userId: UserId, t1: nat, t2: nat)
    requires UploadFilename(userId, t1) == UploadFilename(userId, t2)
    ensures t1 == t2
  {
    ParseNatToString(t1);
    ParseNatToString(t2);
  }

  /** `uploadMealImage`'s answer. */
  datatype UploadResult = UploadResult(imageUrl: Option<string>, error: Option<string>)

  datatype Upload = Upload(filename: string, result: UploadResult)

  /**
   * `uploadMealImage`: store the file under the generated name; on success
   * answer the public URL of the stored path, on failure the error message.
   */
  function UploadMealImage(userId: UserId, timestamp: nat, stored: Outcome<string>, publicUrlOf: string -> string)
    : (r: Upload)
    ensures r.filename == UploadFilename(userId, timestamp)
    ensures stored.Success? ==> r.result == UploadResult(Some(publicUrlOf(stored.value)), None)
    ensures stored.Failure? ==> r.result == UploadResult(None, Some(stored.message))
  {
    var name := UploadFilename(userId, timestamp);
    match stored
    case Success(path) => Upload(name, UploadResult(Some(publicUrlOf(path)), None))
    case Failure(msg) => Upload(name, UploadResult(None, Some(msg)))
  }

  /**
   * What `supabase.functions.invoke` answers: the payload (possibly `null`)
   * and, when the call failed, the message of its error object.
   */
  datatype InvokeResult = InvokeResult(data: Option<AnalysisResponse>, error: Option<string>)

  predicate InvokeOk(invoke: InvokeResult) {
    invoke.error.None? && invoke.data.Some?
  }

  datatype AnalysisResult = AnalysisResult(data: Option<AnalysisResponse>, error: Option<string>)

  datatype Analysis = Analysis(request: AnalysisRequest, result: AnalysisResult)

  /**
   * `analyzeMealWithAI`: an answer with neither data nor error becomes an
   * error; every error the caller sees is a non-empty message.
   */
  function AnalyzeMealWithAI(userId: UserId, imageUrl: string, description: Option<string>, invoke: InvokeResult)
    : (r: Analysis)
    ensures r.request == AnalysisRequest(userId, Some(imageUrl), description)
    ensures r.result.data.Some? <==> InvokeOk(invoke)
    ensures InvokeOk(invoke) ==> r.result.data == invoke.data && r.result.error.None?
    ensures !InvokeOk(invoke) ==> r.result.data.None? && Truthy(r.result.error)
    ensures invoke.error.None? && invoke.data.None? ==>
      r.result.error == Some("No data returned from AI analysis")
  {
    var request := AnalysisRequest(userId, Some(imageUrl), description);
    if invoke.error.Some? then
      Analysis(request, AnalysisResult(None, Some(OrElse(invoke.error, "Failed to analyze meal"))))
    else if invoke.data.None? then
      Analysis(request, AnalysisResult(None, Some("No data returned from AI analysis")))
    else
      Analysis(request, AnalysisResult(invoke.data, None))
  }

  /** `logMealWithAI`'s answer, the steps it reported, and the analysis request it issued. */
  datatype LogResult = LogResult(
    data: Option<AnalysisResponse>,
    imageUrl: Option<string>,
    error: Option<string>,
    steps: seq<AnalysisStep>,
    analysisRequest: Option<AnalysisRequest>)

  /** The upload produced a usable URL: no error and a non-empty public URL. */
  predicate UploadOk(stored: Outcome<string>, publicUrlOf: string -> string) {
    stored.Success? && publicUrlOf(stored.value) != ""
  }

  /**
   * `logMealWithAI`: upload, then analyse. A failed upload never reaches
   * the analysis; a failed analysis returns no URL even though the image
   * was stored; `'done'` is always the last step reported.
   */
  function LogMealWithAI(userId: UserId, timestamp: nat, description: Option<string>,
                         stored: Outcome<string>, publicUrlOf: string -> string, invoke: InvokeResult)
    : (r: LogResult)
    ensures |r.steps| >= 2 && r.steps[0] == Uploading && r.steps[|r.steps| - 1] == Done
    ensures r.data.Some? <==> r.error.None?
    ensures r.data.Some? <==> r.imageUrl.Some?
    ensures r.error.Some? ==> Truthy(r.error)
    ensures !UploadOk(stored, publicUrlOf) ==>
      r.analysisRequest.None? && r.steps == [Uploading, Done] && r.data.None? && r.imageUrl.None?
    ensures UploadOk(stored, publicUrlOf) ==>
      r.analysisRequest == Some(AnalysisRequest(userId, Some(publicUrlOf(stored.value)), description))
    ensures UploadOk(stored, publicUrlOf) && InvokeOk(invoke) ==>
      && r.steps == [Uploading, Analyzing, Extracting, Completing, Done]
      && r.data == invoke.data && r.imageUrl == Some(publicUrlOf(stored.value))
    ensures UploadOk(stored, publicUrlOf) && !InvokeOk(invoke) ==>
      r.steps == [Uploading, Analyzing, Done] && r.data.None? && r.imageUrl.None?
  {
    var upload := UploadMealImage(userId, timestamp, stored, publicUrlOf).result;
    if Truthy(upload.error) || !Truthy(upload.imageUrl) then
      LogResult(None, None, Some(OrElse(upload.error, "Failed to upload image")), [Uploading, Done], None)
    else
      var url := upload.imageUrl.value;
      var a := AnalyzeMealWithAI(userId, url, description, invoke);
      if Truthy(a.result.error) || a.result.data.None? then
        LogResult(None, None, Some(OrElse(a.result.error, "Failed to analyze meal")),
                  [Uploading, Analyzing, Done], Some(a.request))
      else
        LogResult(a.result.data, Some(url), None,
                  [Uploading, Analyzing, Extracting, Completing, Done], Some(a.request))
  }

  /** The shortest trimmed description the text-only analysis accepts. */
  const MinDescriptionLength: nat := 10

  datatype TextResult = TextResult(
    data: Option<AnalysisResponse>,
    error: Option<string>,
    steps: seq<AnalysisStep>,
    request: Option<AnalysisRequest>)

  const ShortDescriptionMessage: string := "Description must be at least 10 characters"
  const TextAnalysisFailedMessage: string := "Failed to analyze meal description"
  const NoTextDataMessage: string := "No data returned from text analysis"

  /**
   * `analyzeMealTextOnly`: a trimmed description shorter than 10
   * characters is rejected before the AI is called; otherwise the request
   * carries the trimmed description and no image URL. `'done'` is always
   * the last step reported.
   */
  function AnalyzeMealTextOnly(userId: UserId, description: string, invoke: InvokeResult): (r: TextResult)
    ensures |r.steps| >= 2 && r.steps[0] == Parsing && r.steps[|r.steps| - 1] == Done
    ensures r.data.Some? <==> r.error.None?
    ensures r.error.Some? ==> Truthy(r.error)
    ensures Utf16Length(Trim(description)) < MinDescriptionLength ==>
      && r.request.None? && r.steps == [Parsing, Done] && r.data.None?
      && r.error == Some(ShortDescriptionMessage)
    ensures Utf16Length(Trim(description)) >= MinDescriptionLength ==>
      r.request == Some(AnalysisRequest(userId, None, Some(Trim(description))))
    ensures Utf16Length(Trim(description)) >= MinDescriptionLength && InvokeOk(invoke) ==>
      r.steps == [Parsing, Estimating, Finalizing, Done] && r.data == invoke.data
    ensures Utf16Length(Trim(description)) >= MinDescriptionLength && !InvokeOk(invoke) ==>
      r.steps == [Parsing, Estimating, Done] && r.data.None?
  {
    if description == "" || Utf16Length(Trim(description)) < MinDescriptionLength then
      TextResult(None, Some(ShortDescriptionMessage), [Parsing, Done], None)
    else
      var request := AnalysisRequest(userId, None, Some(Trim(description)));
      if invoke.error.Some? then
        TextResult(None, Some(OrElse(invoke.error, TextAnalysisFailedMessage)),
                   [Parsing, Estimating, Done], Some(request))
      else if invoke.data.None? then
        TextResult(None, Some(NoTextDataMessage), [Parsing, Estimating, Done], Some(request))
      else
        TextResult(invoke.data, None, [Parsing, Estimating, Finalizing, Done], Some(request))
  }
}
