/**
 * The multi-image, multi-vendor edit route (`POST /api/mixer-edit`). It reads
 * up to five uploaded images, a prompt and a model id from the form, checks
 * them in a fixed order, sends the request either to the FAL queue API or to
 * OpenRouter's chat-completion API, and answers with a unified envelope:
 * `{success: true, data}` or `{success: false, error}` with the error's
 * `httpStatus` as the HTTP status.
 *
 * The two vendors are parameters: a function from the request sent to what
 * the vendor gives back (a result or a thrown value). `Post` also reports
 * which request, if any, it dispatched.
 */
module MixerEdit {
  import opened JsText
  import opened Envelope
  import opened ImageTypes
  import opened ChatCompletion

  // ---------------------------------------------------------------------------
  // The form

  /** The route looks at the form fields `image_0` … `image_4`. */
  const MaxSlots: nat := 5

  /** `formData`: the text fields `prompt` and `model` (absent is `null`) and the file fields by name. */
  datatype Form = Form(prompt: Option<string>, model: Option<string>, files: map<string, File>)

  /** `request.formData()` either parses or throws. */
  datatype FormInput = Parsed(form: Form) | ParseFailed(error: Thrown)

  /** `` `image_${i}` `` for a one-digit `i`. */
  function SlotName(i: nat): string
    requires i < 10
  {
    "image_" + [(('0' as int) + i) as char]
  }

  lemma SlotNamesDistinct(i: nat, j: nat)
    requires i < 10 && j < 10 && i != j
    ensures SlotName(i) != SlotName(j)
  {
    assert SlotName(i)[6] != SlotName(j)[6];
  }

  /** The indices below `n` whose slot holds a file, in increasing order. */
  function FilledSlots(files: map<string, File>, n: nat): (r: seq<nat>)
    requires n <= MaxSlots
    ensures forall k :: 0 <= k < |r| ==> r[k] < n && SlotName(r[k]) in files
    ensures forall k, l :: 0 <= k < l < |r| ==> r[k] < r[l]
  {
    if n == 0 then []
    else FilledSlots(files, n - 1) + (if SlotName(n - 1) in files then [n - 1] else [])
  }

  /** No filled slot below `n` is missed. */
  lemma {:induction false} FilledSlotsComplete(files: map<string, File>, n: nat)
    requires n <= MaxSlots
    ensures forall i :: 0 <= i < n && SlotName(i) in files ==> i in FilledSlots(files, n)
  {
    if n > 0 {
      FilledSlotsComplete(files, n - 1);
      assert FilledSlots(files, n - 1) <= FilledSlots(files, n);
    }
  }

  /** The files under `image_0` … `image_{n-1}`, in slot order, skipping empty slots. */
  function SlotFiles(files: map<string, File>, n: nat): (r: seq<File>)
    requires n <= MaxSlots
    ensures |r| <= n
    ensures r == [] <==> forall i :: 0 <= i < n ==> SlotName(i) !in files
  {
    if n == 0 then []
    else
      var name := SlotName(n - 1);
      SlotFiles(files, n - 1) + (if name in files then [files[name]] else [])
  }

  /** Files that line up with their slots still line up after one more filled slot is appended. */
  lemma AppendAligned(files: map<string, File>, gathered: seq<File>, slots: seq<nat>, i: nat)
    requires i < MaxSlots && SlotName(i) in files
    requires |gathered| == |slots|
    requires forall k :: 0 <= k < |slots| ==> slots[k] < MaxSlots && SlotName(slots[k]) in files
    requires forall k :: 0 <= k < |gathered| ==> gathered[k] == files[SlotName(slots[k])]
    ensures forall k :: 0 <= k < |gathered| + 1 ==>
              (gathered + [files[SlotName(i)]])[k] == files[SlotName((slots + [i])[k])]
  {
  }

  /** Every filled slot contributes its file, once, in slot order. */
  lemma {:induction false} SlotFilesInSlotOrder(files: map<string, File>, n: nat)
    requires n <= MaxSlots
    ensures |SlotFiles(files, n)| == |FilledSlots(files, n)|
    ensures forall k :: 0 <= k < |SlotFiles(files, n)| ==>
              SlotFiles(files, n)[k] == files[SlotName(FilledSlots(files, n)[k])]
  {
    if n > 0 {
      SlotFilesInSlotOrder(files, n - 1);
      if SlotName(n - 1) in files {
        AppendAligned(files, SlotFiles(files, n - 1), FilledSlots(files, n - 1), n - 1);
      }
    }
  }

  /** The `for (let i = 0; i < 5; i++)` loop that collects the uploaded files. */
  method GatherFiles(files: map<string, File>) returns (gathered: seq<File>)
    ensures gathered == SlotFiles(files, MaxSlots)
  {
    gathered := [];
    for i := 0 to MaxSlots
      invariant gathered == SlotFiles(files, i)
    {
      var name := SlotName(i);
      if name in files {
        gathered := gathered + [files[name]];
      }
    }
  }

  /** Only the five slots count: files under any other name are ignored. */
  lemma OtherFieldsIgnored(files: map<string, File>, name: string, f: File)
    requires forall i :: 0 <= i < MaxSlots ==> name != SlotName(i)
    ensures SlotFiles(files[name := f], MaxSlots) == SlotFiles(files, MaxSlots)
  {
    SlotFilesAgree(files, files[name := f], MaxSlots);
  }

  lemma {:induction false} SlotFilesAgree(a: map<string, File>, b: map<string, File>, n: nat)
    requires n <= MaxSlots
    requires forall i :: 0 <= i < n ==> (SlotName(i) in a <==> SlotName(i) in b)
    requires forall i :: 0 <= i < n && SlotName(i) in a ==> a[SlotName(i)] == b[SlotName(i)]
    ensures SlotFiles(a, n) == SlotFiles(b, n)
  {
    if n > 0 {
      SlotFilesAgree(a, b, n - 1);
    }
  }

  // ---------------------------------------------------------------------------
  // Validation and routing

  function BadInput(title: string, message: string, details: string, code: string): ApiError {
    ApiError(Validation, title, message, details, code, false, 400)
  }

  const NoImages := BadInput("No Images", "No image files provided", "Please upload at least one image", "NO_IMAGES")
  const NoPrompt := BadInput("No Prompt", "No prompt provided",
                             "Please provide a description of what you want to do with the images", "NO_PROMPT")
  const NoModel := BadInput("No Model", "No model specified", "Please select a model to process the images", "NO_MODEL")

  /**
   * The three checks, in the source's order: at least one image, then a
   * prompt that is not blank after `trim`, then a non-empty model id.
   */
  function Validate(files: seq<File>, prompt: Option<string>, model: Option<string>): (r: Option<ApiError>)
    ensures r.None? <==> files != [] && prompt.Some? && !IsBlank(prompt.value) && TruthyOpt(model)
    ensures r.Some? ==> r.value.kind == Validation && r.value.httpStatus == 400 && !r.value.retryable
    ensures files == [] ==> r == Some(NoImages)
    ensures files != [] && (prompt.None? || IsBlank(prompt.value)) ==> r == Some(NoPrompt)
    ensures files != [] && prompt.Some? && !IsBlank(prompt.value) && !TruthyOpt(model) ==> r == Some(NoModel)
  {
    if files == [] then Some(NoImages)
    else if prompt.None? then Some(NoPrompt)
    else
      TrimEmptyIffBlank(prompt.value);
      if Trim(prompt.value) == "" then Some(NoPrompt)
      else if !TruthyOpt(model) then Some(NoModel)
      else None
  }

  /** Which vendor a model id goes to. */
  datatype Provider = Fal | OpenRouter

  /** `startsWith('fal-ai/')` is tested first; then `includes('google/gemini')` or `includes('openrouter')`. */
  function ProviderFor(model: string): (r: Option<Provider>)
    ensures r == Some(Fal) <==> StartsWith(model, "fal-ai/")
    ensures r == Some(OpenRouter) <==>
              !StartsWith(model, "fal-ai/") && (Contains(model, "google/gemini") || Contains(model, "openrouter"))
    ensures r.Some? ==> Contains(model, "fal-ai/") || Contains(model, "google/gemini") || Contains(model, "openrouter")
  {
    if StartsWith(model, "fal-ai/") then
      StartsWithContains(model, "fal-ai/");
      Some(Fal)
    else if Contains(model, "google/gemini") || Contains(model, "openrouter") then Some(OpenRouter)
    else None
  }

  /** The answer for a model id no vendor takes; the id is quoted in the details. */
  function UnknownModel(model: string): (r: ApiError)
    ensures r.kind == Validation && r.httpStatus == 400 && !r.retryable && r.code == "UNKNOWN_MODEL"
    ensures StartsWith(r.details, "Model \"") && Contains(r.details, model)
    ensures r.details == "Model \"" + model + "\" is not supported"
    ensures r.title == "Unknown Model" && r.message == "Unknown model specified"
  {
    var details := "Model \"" + model + "\" is not supported";
    assert OccursAt(details, model, 7);
    BadInput("Unknown Model", "Unknown model specified", details, "UNKNOWN_MODEL")
  }

  // ---------------------------------------------------------------------------
  // The unified response

  /** An entry of FAL's `images`, handed back as it came. */
  datatype FalImage = FalImage(url: string, contentType: Option<string>)

  /** `data.images`: FAL's entries as they came, or OpenRouter's normalised ones (possibly `null`). */
  datatype MixerImages = FalImages(falImages: seq<FalImage>) | RouterImages(routerImages: Option<seq<FormattedImage>>)

  datatype MixerData = MixerData(
    content: string,
    images: MixerImages,
    model: string,
    provider: Provider,
    id: string,
    finishReason: Option<string>,
    usage: Option<Usage>,
    originalFileNames: seq<string>,
    originalFileSizes: seq<nat>,
    hasImages: bool)

  /** `MixerResponse`: `success` is the constructor. */
  datatype MixerResponse = Succeeded(data: MixerData) | Failed(error: ApiError)

  function FileNames(files: seq<File>): (r: seq<string>)
    ensures |r| == |files| && forall k :: 0 <= k < |files| ==> r[k] == files[k].name
  {
    seq(|files|, k requires 0 <= k < |files| => files[k].name)
  }

  function FileSizes(files: seq<File>): (r: seq<nat>)
    ensures |r| == |files| && forall k :: 0 <= k < |files| ==> r[k] == files[k].size
  {
    seq(|files|, k requires 0 <= k < |files| => files[k].size)
  }

  function DataUrls(files: seq<File>): seq<string> {
    seq(|files|, k requires 0 <= k < |files| => DataUrl(files[k]))
  }

  // ---------------------------------------------------------------------------
  // FAL

  /** The FAL endpoint the route subscribes to. */
  const FalModel := "fal-ai/nano-banana/edit"

  /** The `input` of `fal.subscribe`. */
  datatype FalRequest = FalRequest(prompt: string, imageUrls: seq<string>, numImages: int, outputFormat: string, syncMode: bool)

  /** `result.data`: a description and an image list, either of which may be missing. */
  datatype FalData = FalData(description: Option<string>, images: Option<seq<FalImage>>)

  datatype FalOutcome = FalResult(data: FalData, requestId: string) | FalThrew(error: Thrown)

  /** One image per file, each as a data URL, one output image in JPEG, queued. */
  function FalRequestFor(files: seq<File>, prompt: string): (r: FalRequest)
    ensures r.prompt == prompt && |r.imageUrls| == |files|
    ensures forall k :: 0 <= k < |files| ==> r.imageUrls[k] == DataUrl(files[k])
    ensures forall k :: 0 <= k < |files| ==> StartsWith(r.imageUrls[k], "data:" + files[k].mimeType)
    ensures r.numImages == 1 && r.outputFormat == "jpeg" && !r.syncMode
  {
    var urls := DataUrls(files);
    assert forall k :: 0 <= k < |files| ==> urls[k] == ("data:" + files[k].mimeType) + (";base64," + files[k].base64);
    FalRequest(prompt, urls, 1, "jpeg", false)
  }

  /** `` `${d.loc?.join('.')} - ${d.msg}` ``: a missing part renders as `undefined`. */
  function DetailEntryText(d: DetailEntry): (r: string)
    ensures StartsWith(r, if d.loc.Some? then Join(d.loc.value, ".") else "undefined")
    ensures |r| >= 3 + |Render(d.msg)| && r[|r| - |Render(d.msg)| - 3..] == " - " + Render(d.msg)
    ensures |r| == |if d.loc.Some? then Join(d.loc.value, ".") else "undefined"| + 3 + |Render(d.msg)|
  {
    var loc := if d.loc.Some? then Join(d.loc.value, ".") else "undefined";
    assert (loc + " - " + Render(d.msg))[|loc|..] == " - " + Render(d.msg);
    loc + " - " + Render(d.msg)
  }

  /** The entries' texts joined with `, `: empty exactly for an empty list, a lone entry's text as it is. */
  function DetailListText(entries: seq<DetailEntry>): (r: string)
    ensures r == "" <==> entries == []
    ensures |entries| == 1 ==> r == DetailEntryText(entries[0])
  {
    var texts := seq(|entries|, k requires 0 <= k < |entries| => DetailEntryText(entries[k]));
    if texts == [] then ""
    else
      JoinPrefix(texts, 1, ", ");
      assert texts[..1] == [texts[0]];
      Join(texts, ", ")
  }

  /** One more entry adds `, ` and its text at the end, so the entries appear in list order. */
  lemma DetailListTextAppend(entries: seq<DetailEntry>, d: DetailEntry)
    requires entries != []
    ensures DetailListText(entries + [d]) == DetailListText(entries) + ", " + DetailEntryText(d)
  {
    var texts := seq(|entries|, k requires 0 <= k < |entries| => DetailEntryText(entries[k]));
    assert seq(|entries + [d]|, k requires 0 <= k < |entries + [d]| => DetailEntryText((entries + [d])[k]))
        == texts + [DetailEntryText(d)];
    JoinAppend(texts, DetailEntryText(d), ", ");
  }

  /** The details a 422 ends with: the body's `detail` if truthy, else its `message` if truthy, else `current`. */
  function ValidationDetails(body: FalErrorBody, current: string): (r: string)
    ensures body.detail.Some? && body.detail.value.DetailList? ==> r == DetailListText(body.detail.value.entries)
    ensures body.detail.Some? && body.detail.value.DetailText? && Truthy(body.detail.value.text) ==>
              r == body.detail.value.text
    ensures (body.detail.None? || body.detail.value == DetailText("")) && Truthy(body.message) ==> r == body.message
    ensures (body.detail.None? || body.detail.value == DetailText("")) && !Truthy(body.message) ==> r == current
  {
    match body.detail
    case Some(DetailList(entries)) => DetailListText(entries)
    case Some(DetailText(t)) => Or(t, Or(body.message, current))
    case None => Or(body.message, current)
  }

  /**
   * The FAL `catch` block stated field by field: a 422 is a validation error
   * whose message and details come from the body when it has them; 401 and
   * 429 have their own rows; anything else is a retryable model error.
   */
  function FalError(e: Thrown): (r: ApiError)
    ensures RetryConsistent(r)
    ensures r.httpStatus == 422 || r.httpStatus == 401 || r.httpStatus == 429 || r.httpStatus == 500
    ensures e.status == Some(422) ==>
              r.kind == Validation && r.code == "FAL_VALIDATION_ERROR" && r.httpStatus == 422 && !r.retryable
    ensures e.status == Some(422) ==> r.title == "FAL AI Validation Error"
    ensures e.status == Some(401) ==>
              r.kind == Authentication && r.code == "FAL_AUTH_ERROR" && r.httpStatus == 401 && !r.retryable
    ensures e.status == Some(401) ==> r.title == "FAL AI Authentication Error" && r.message == "Invalid FAL AI API key"
    ensures e.status == Some(429) ==>
              r.kind == RateLimit && r.code == "FAL_RATE_LIMIT" && r.httpStatus == 429 && r.retryable
    ensures e.status == Some(429) ==> r.title == "FAL AI Rate Limit" && r.message == "FAL AI rate limit exceeded"
    ensures e.status != Some(422) && e.status != Some(401) && e.status != Some(429) ==>
              r.kind == Model && r.code == "FAL_ERROR" && r.httpStatus == 500 && r.retryable
    ensures e.status != Some(422) && e.status != Some(401) && e.status != Some(429) ==>
              r.title == "FAL AI Error" && r.message == "Failed to process images with FAL AI"
    ensures e.status != Some(422) ==> r.details == (if e.errorMessage.Some? then e.errorMessage.value else "Unknown FAL AI error")
    ensures e.status == Some(422) && e.body.Some? && Truthy(e.body.value.message) ==> r.message == e.body.value.message
    ensures e.status == Some(422) && e.body.Some? && e.body.value.detail.Some? && e.body.value.detail.value.DetailList? ==>
              r.details == DetailListText(e.body.value.detail.value.entries)
    ensures e.status == Some(422) && e.body.Some? && e.body.value.detail.Some? && e.body.value.detail.value.DetailText? &&
            Truthy(e.body.value.detail.value.text) ==>
              r.details == e.body.value.detail.value.text
    ensures e.status == Some(422) && e.body.Some? && Truthy(e.body.value.message) &&
            (e.body.value.detail.None? || e.body.value.detail.value == DetailText("")) ==>
              r.details == e.body.value.message
    ensures e.status == Some(422) && (e.body.None? || !Truthy(e.body.value.message)) ==>
              r.message == "Invalid request parameters for FAL AI"
    ensures e.status == Some(422) && (e.body.None? || (!Truthy(e.body.value.message) &&
            (e.body.value.detail.None? || e.body.value.detail.value == DetailText("")))) ==>
              r.details == (if e.errorMessage.Some? then e.errorMessage.value else "Unknown FAL AI error")
  {
    var baseDetails := if e.errorMessage.Some? then e.errorMessage.value else "Unknown FAL AI error";
    if e.status == Some(422) then
      var message := "Invalid request parameters for FAL AI";
      ApiError(Validation, "FAL AI Validation Error",
               if e.body.Some? then Or(e.body.value.message, message) else message,
               if e.body.Some? then ValidationDetails(e.body.value, baseDetails) else baseDetails,
               "FAL_VALIDATION_ERROR", false, 422)
    else if e.status == Some(401) then
      ApiError(Authentication, "FAL AI Authentication Error", "Invalid FAL AI API key", baseDetails, "FAL_AUTH_ERROR", false, 401)
    else if e.status == Some(429) then
      ApiError(RateLimit, "FAL AI Rate Limit", "FAL AI rate limit exceeded", baseDetails, "FAL_RATE_LIMIT", true, 429)
    else
      ApiError(Model, "FAL AI Error", "Failed to process images with FAL AI", baseDetails, "FAL_ERROR", true, 500)
  }

  /** The FAL `catch` block as written: defaults, then the status branches overwrite them. */
  method ClassifyFalError(e: Thrown) returns (err: ApiError)
    ensures err == FalError(e)
  {
    var kind := Model;
    var title := "FAL AI Error";
    var message := "Failed to process images with FAL AI";
    var details := if e.errorMessage.Some? then e.errorMessage.value else "Unknown FAL AI error";
    var code := "FAL_ERROR";
    var httpStatus := 500;
    var retryable := true;
    if e.status == Some(422) {
      kind, title, message, code, httpStatus, retryable :=
        Validation, "FAL AI Validation Error", "Invalid request parameters for FAL AI", "FAL_VALIDATION_ERROR", 422, false;
      if e.body.Some? {
        var body := e.body.value;
        if body.message != "" {
          message := body.message;
          details := body.message;
        }
        if body.detail.Some? {
          match body.detail.value
          case DetailList(entries) =>
            details := DetailListText(entries);
          case DetailText(t) =>
            if t != "" {
              details := t;
            }
        }
      }
    } else if e.status == Some(401) {
      kind, title, message, code, httpStatus, retryable :=
        Authentication, "FAL AI Authentication Error", "Invalid FAL AI API key", "FAL_AUTH_ERROR", 401, false;
    } else if e.status == Some(429) {
      kind, title, message, code, httpStatus, retryable :=
        RateLimit, "FAL AI Rate Limit", "FAL AI rate limit exceeded", "FAL_RATE_LIMIT", 429, true;
    }
    err := ApiError(kind, title, message, details, code, retryable, httpStatus);
  }

  /** A detail list always wins over the body's message for the details, even an empty one. */
  lemma EmptyDetailListClearsDetails(m: Option<string>, message: string)
    ensures FalError(Thrown(m, Some(422), Some(FalErrorBody(message, Some(DetailList([])))), None)).details == ""
  {
  }

  /**
   * What the FAL handler answers: on a result, the description (or `""`),
   * the images (or `[]`), the request id and the uploaded files' names and
   * sizes; `hasImages` only when at least one image came back.
   */
  function FalResponse(files: seq<File>, outcome: FalOutcome): (r: MixerResponse)
    ensures outcome.FalThrew? ==> r == Failed(FalError(outcome.error))
    ensures outcome.FalResult? ==> r.Succeeded? && r.data.provider == Fal && r.data.model == FalModel
    ensures outcome.FalResult? ==> r.data.id == outcome.requestId
    ensures outcome.FalResult? ==> (r.data.hasImages <==> outcome.data.images.Some? && |outcome.data.images.value| > 0)
    ensures outcome.FalResult? ==> r.data.images.FalImages?
    ensures outcome.FalResult? && outcome.data.images.Some? ==> r.data.images.falImages == outcome.data.images.value
    ensures outcome.FalResult? && outcome.data.images.None? ==> r.data.images.falImages == []
    ensures outcome.FalResult? ==> r.data.originalFileNames == FileNames(files) && r.data.originalFileSizes == FileSizes(files)
    ensures outcome.FalResult? && outcome.data.description.Some? ==> r.data.content == outcome.data.description.value
    ensures outcome.FalResult? && outcome.data.description.None? ==> r.data.content == ""
  {
    match outcome
    case FalThrew(e) => Failed(FalError(e))
    case FalResult(data, requestId) =>
      var images := if data.images.Some? then data.images.value else [];
      Succeeded(MixerData(
        if data.description.Some? then data.description.value else "",
        FalImages(images),
        FalModel, Fal, requestId, None, None,
        FileNames(files), FileSizes(files),
        |images| > 0))
  }

  /** `handleFalRequest`: build the request file by file, send it, and answer. */
  method HandleFal(files: seq<File>, prompt: string, fal: FalRequest -> FalOutcome)
    returns (result: MixerResponse, sent: FalRequest)
    ensures sent == FalRequestFor(files, prompt)
    ensures result == FalResponse(files, fal(sent))
  {
    var imageUrls: seq<string> := [];
    var fileNames: seq<string> := [];
    var fileSizes: seq<nat> := [];
    for i := 0 to |files|
      invariant imageUrls == DataUrls(files[..i])
      invariant fileNames == FileNames(files[..i])
      invariant fileSizes == FileSizes(files[..i])
    {
      imageUrls := imageUrls + [DataUrl(files[i])];
      fileNames := fileNames + [files[i].name];
      fileSizes := fileSizes + [files[i].size];
    }
    assert files[..|files|] == files;
    sent := FalRequest(prompt, imageUrls, 1, "jpeg", false);
    var outcome := fal(sent);
    match outcome {
      case FalResult(data, requestId) =>
        var images := if data.images.Some? then data.images.value else [];
        var content := if data.description.Some? then data.description.value else "";
        result := Succeeded(MixerData(content, FalImages(images), FalModel, Fal, requestId, None, None,
                                      fileNames, fileSizes, |images| > 0));
      case FalThrew(e) =>
        var err := ClassifyFalError(e);
        result := Failed(err);
    }
  }

  // ---------------------------------------------------------------------------
  // OpenRouter

  function ImageParts(files: seq<File>): seq<ContentItem> {
    seq(|files|, k requires 0 <= k < |files| => ImagePart(DataUrl(files[k])))
  }

  /** One user message: the prompt as text first, then every file as an image part, in order. */
  function RouterRequestFor(files: seq<File>, prompt: string): (r: ChatRequest)
    ensures r.model == GeminiModel && r.maxTokens == MaxTokens
    ensures |r.content| == |files| + 1 && r.content[0] == TextPart(prompt)
    ensures forall k :: 0 <= k < |files| ==> r.content[k + 1] == ImagePart(DataUrl(files[k]))
  {
    ChatRequest(GeminiModel, [TextPart(prompt)] + ImageParts(files), MaxTokens)
  }

  /**
   * What the OpenRouter handler answers: a thrown value goes through the
   * classifier; a completion that did not finish with `stop` is an error;
   * otherwise the content (or `""`), the normalised images and the usage.
   */
  function RouterResponse(files: seq<File>, outcome: ChatOutcome): (r: MixerResponse)
    ensures outcome.ChatThrew? ==> r == Failed(ExceptionError(MixerRoute, outcome.error))
    ensures outcome.Completed? ==>
              (r.Succeeded? <==> FinishReasonOf(outcome.completion) == Some("stop"))
    ensures outcome.Completed? && r.Failed? ==>
              r.error == FinishReasonFailure(MixerRoute, FinishReasonOf(outcome.completion), NativeReasonOf(outcome.completion)).value
    ensures r.Succeeded? ==> r.data.provider == OpenRouter && r.data.finishReason == Some("stop")
    ensures r.Succeeded? ==> r.data.images.RouterImages? && (r.data.hasImages <==> r.data.images.routerImages.Some?)
    ensures r.Succeeded? ==> r.data.originalFileNames == FileNames(files) && r.data.originalFileSizes == FileSizes(files)
    ensures r.Succeeded? ==> outcome.Completed? && |outcome.completion.choices| > 0
    ensures outcome.Completed? && |outcome.completion.choices| > 0 && r.Succeeded? ==>
              var c := outcome.completion;
              r.data.images == RouterImages(ResponseImages(c.choices[0].message)) &&
              r.data.content == (if c.choices[0].message.content.Some? then c.choices[0].message.content.value else "") &&
              r.data.model == c.model && r.data.id == c.id && r.data.usage == c.usage
  {
    match outcome
    case ChatThrew(e) => Failed(ExceptionError(MixerRoute, e))
    case Completed(c) =>
      var failure := FinishReasonFailure(MixerRoute, FinishReasonOf(c), NativeReasonOf(c));
      if failure.Some? then Failed(failure.value)
      else
        var message := c.choices[0].message;
        var images := ResponseImages(message);
        Succeeded(MixerData(
          if message.content.Some? then message.content.value else "",
          RouterImages(images),
          c.model, OpenRouter, c.id, c.choices[0].finishReason, c.usage,
          FileNames(files), FileSizes(files),
          images.Some?))
  }

  /** An empty `images` array from a completion that stopped still gives `hasImages: true` and `images: []`. */
  lemma EmptyImageListHasImages(files: seq<File>, c: Completion)
    requires |c.choices| > 0 && c.choices[0].finishReason == Some("stop") && c.choices[0].message.images == Some([])
    ensures var r := RouterResponse(files, Completed(c));
            r.Succeeded? && r.data.hasImages && r.data.images == RouterImages(Some([]))
  {
    EmptyImageListStillCountsAsImages(c.choices[0].message);
  }

  /** `handleOpenRouterRequest`: build the content items file by file, send, check the finish reason, and answer. */
  method HandleOpenRouter(files: seq<File>, prompt: string, router: ChatRequest -> ChatOutcome)
    returns (result: MixerResponse, sent: ChatRequest)
    ensures sent == RouterRequestFor(files, prompt)
    ensures result == RouterResponse(files, router(sent))
  {
    var contentItems := [TextPart(prompt)];
    var fileNames: seq<string> := [];
    var fileSizes: seq<nat> := [];
    for i := 0 to |files|
      invariant contentItems == [TextPart(prompt)] + ImageParts(files[..i])
      invariant fileNames == FileNames(files[..i])
      invariant fileSizes == FileSizes(files[..i])
    {
      contentItems := contentItems + [ImagePart(DataUrl(files[i]))];
      fileNames := fileNames + [files[i].name];
      fileSizes := fileSizes + [files[i].size];
    }
    assert files[..|files|] == files;
    sent := ChatRequest(GeminiModel, contentItems, MaxTokens);
    var outcome := router(sent);
    match outcome {
      case ChatThrew(e) =>
        var err := ClassifyException(MixerRoute, e);
        result := Failed(err);
      case Completed(c) =>
        var failure := CheckFinishReason(MixerRoute, FinishReasonOf(c), NativeReasonOf(c));
        if failure.Some? {
          result := Failed(failure.value);
        } else {
          var message := c.choices[0].message;
          var images := ResponseImages(message);
          var content := if message.content.Some? then message.content.value else "";
          result := Succeeded(MixerData(content, RouterImages(images), c.model, OpenRouter, c.id,
                                        c.choices[0].finishReason, c.usage, fileNames, fileSizes, images.Some?));
        }
    }
  }

  // ---------------------------------------------------------------------------
  // POST

  /** The HTTP answer: a status and the JSON body. */
  datatype Reply = Reply(status: int, body: MixerResponse)

  /** Which vendor request, if any, the route sent. */
  datatype Dispatch = NoVendor | SentToFal(falRequest: FalRequest) | SentToRouter(chatRequest: ChatRequest)

  /** The outer `catch`: a failure before any handler ran is a retryable server error. */
  function InternalError(e: Thrown): (r: ApiError)
    ensures r.kind == Server && r.code == "INTERNAL_ERROR" && r.httpStatus == 500 && r.retryable
    ensures e.errorMessage.Some? ==> r.details == e.errorMessage.value
    ensures e.errorMessage.None? ==> r.details == "Unknown server error"
  {
    ApiError(Server, "Server Error", "Internal server error occurred",
             if e.errorMessage.Some? then e.errorMessage.value else "Unknown server error",
             "INTERNAL_ERROR", true, 500)
  }

  /** A handler's envelope with its status: the error's `httpStatus` on failure, 200 otherwise. */
  function Answer(body: MixerResponse): Reply {
    Reply(if body.Failed? then body.error.httpStatus else 200, body)
  }

  /**
   * The model routing after validation: a `fal-ai/` model goes to FAL, an
   * OpenRouter model to OpenRouter, each with the gathered files and the
   * prompt, and any other model id is rejected with 400 before a vendor is
   * called.
   */
  function RouteByModel(files: seq<File>, prompt: string, model: string,
                        fal: FalRequest -> FalOutcome, router: ChatRequest -> ChatOutcome): (r: (Reply, Dispatch))
    ensures ProviderFor(model) == Some(Fal) ==>
              r.1 == SentToFal(FalRequestFor(files, prompt)) && r.0 == Answer(FalResponse(files, fal(r.1.falRequest)))
    ensures ProviderFor(model) == Some(OpenRouter) ==>
              r.1 == SentToRouter(RouterRequestFor(files, prompt)) && r.0 == Answer(RouterResponse(files, router(r.1.chatRequest)))
    ensures ProviderFor(model).None? ==> r == (Reply(400, Failed(UnknownModel(model))), NoVendor)
    ensures r.0.body.Succeeded? ==> r.0.status == 200
    ensures r.0.body.Failed? ==> r.0.status == r.0.body.error.httpStatus
  {
    match ProviderFor(model)
    case Some(Fal) =>
      var req := FalRequestFor(files, prompt);
      (Answer(FalResponse(files, fal(req))), SentToFal(req))
    case Some(OpenRouter) =>
      var req := RouterRequestFor(files, prompt);
      (Answer(RouterResponse(files, router(req))), SentToRouter(req))
    case None => (Reply(400, Failed(UnknownModel(model))), NoVendor)
  }

  /**
   * The whole route: parse, gather, validate, route, call one vendor and
   * answer. A validation failure answers 400 with that failure and calls no
   * vendor; a valid form is routed by its model.
   */
  function MixerPost(input: FormInput, fal: FalRequest -> FalOutcome, router: ChatRequest -> ChatOutcome): (r: (Reply, Dispatch))
    ensures input.ParseFailed? ==> r == (Reply(500, Failed(InternalError(input.error))), NoVendor)
    ensures input.Parsed? && Validate(SlotFiles(input.form.files, MaxSlots), input.form.prompt, input.form.model).Some? ==>
              r == (Reply(400, Failed(Validate(SlotFiles(input.form.files, MaxSlots), input.form.prompt, input.form.model).value)), NoVendor)
    ensures input.Parsed? && Validate(SlotFiles(input.form.files, MaxSlots), input.form.prompt, input.form.model).None? ==>
              r == RouteByModel(SlotFiles(input.form.files, MaxSlots), input.form.prompt.value, input.form.model.value, fal, router)
    ensures r.0.body.Succeeded? ==> r.0.status == 200
    ensures r.0.body.Failed? ==> r.0.status == r.0.body.error.httpStatus
  {
    match input
    case ParseFailed(e) => (Reply(500, Failed(InternalError(e))), NoVendor)
    case Parsed(form) =>
      var files := SlotFiles(form.files, MaxSlots);
      var invalid := Validate(files, form.prompt, form.model);
      if invalid.Some? then (Reply(400, Failed(invalid.value)), NoVendor)
      else RouteByModel(files, form.prompt.value, form.model.value, fal, router)
  }

  /**
   * A vendor is called only for a parsed, valid form: FAL with one to five
   * images for a `fal-ai/` model, OpenRouter with the prompt first for an
   * OpenRouter model; and the answer is that vendor's.
   */
  lemma DispatchedRequests(input: FormInput, fal: FalRequest -> FalOutcome, router: ChatRequest -> ChatOutcome)
    ensures var r := MixerPost(input, fal, router);
            r.1.SentToFal? ==>
              input.Parsed? && 1 <= |r.1.falRequest.imageUrls| <= MaxSlots &&
              input.form.model.Some? && StartsWith(input.form.model.value, "fal-ai/") &&
              input.form.prompt == Some(r.1.falRequest.prompt) && !IsBlank(r.1.falRequest.prompt)
    ensures var r := MixerPost(input, fal, router);
            r.1.SentToRouter? ==>
              input.Parsed? && 2 <= |r.1.chatRequest.content| <= MaxSlots + 1 &&
              input.form.model.Some? && ProviderFor(input.form.model.value) == Some(OpenRouter) &&
              input.form.prompt.Some? && r.1.chatRequest.content[0] == TextPart(input.form.prompt.value) &&
              !IsBlank(input.form.prompt.value)
    ensures var r := MixerPost(input, fal, router);
            r.1.SentToFal? ==> r.0 == Answer(FalResponse(SlotFiles(input.form.files, MaxSlots), fal(r.1.falRequest)))
    ensures var r := MixerPost(input, fal, router);
            r.1.SentToRouter? ==> r.0 == Answer(RouterResponse(SlotFiles(input.form.files, MaxSlots), router(r.1.chatRequest)))
  {
  }

  /** `POST`: the early returns of the source, in its order. */
  method Post(input: FormInput, fal: FalRequest -> FalOutcome, router: ChatRequest -> ChatOutcome)
    returns (reply: Reply, dispatched: Dispatch)
    ensures (reply, dispatched) == MixerPost(input, fal, router)
  {
    if input.ParseFailed? {
      return Reply(500, Failed(InternalError(input.error))), NoVendor;
    }
    var form := input.form;
    var files := GatherFiles(form.files);
    if files == [] {
      return Reply(400, Failed(NoImages)), NoVendor;
    }
    if form.prompt.None? || Trim(form.prompt.value) == "" {
      return Reply(400, Failed(NoPrompt)), NoVendor;
    }
    if !TruthyOpt(form.model) {
      return Reply(400, Failed(NoModel)), NoVendor;
    }
    reply, dispatched := Route(files, form.prompt.value, form.model.value, fal, router);
  }

  /** The `if (model.startsWith('fal-ai/')) … else if … else` dispatch of `POST` and its answer. */
  method Route(files: seq<File>, prompt: string, model: string, fal: FalRequest -> FalOutcome, router: ChatRequest -> ChatOutcome)
    returns (reply: Reply, dispatched: Dispatch)
    ensures (reply, dispatched) == RouteByModel(files, prompt, model, fal, router)
  {
    var result: MixerResponse;
    if StartsWith(model, "fal-ai/") {
      var sent;
      result, sent := HandleFal(files, prompt, fal);
      dispatched := SentToFal(sent);
    } else if Contains(model, "google/gemini") || Contains(model, "openrouter") {
      var sent;
      result, sent := HandleOpenRouter(files, prompt, router);
      dispatched := SentToRouter(sent);
    } else {
      return Reply(400, Failed(UnknownModel(model))), NoVendor;
    }
    if result.Failed? {
      return Reply(result.error.httpStatus, result), dispatched;
    }
    reply := Reply(200, result);
  }

  /** A failed envelope is never answered with 200 unless a vendor's own error response carried that status. */
  lemma FailureStatusFromVendor(input: FormInput, fal: FalRequest -> FalOutcome, router: ChatRequest -> ChatOutcome)
    ensures var r := MixerPost(input, fal, router);
            r.0.body.Failed? && r.0.status == 200 ==>
              r.1.SentToRouter? && router(r.1.chatRequest).ChatThrew? &&
              ResponseStatus(router(r.1.chatRequest).error) == Some(200)
  {
    var r := MixerPost(input, fal, router);
    if r.0.body.Failed? && r.0.status == 200 {
      var files := SlotFiles(input.form.files, MaxSlots);
      match r.1
      case NoVendor =>
        NoVendorNot200(input, fal, router);
        assert false;
      case SentToFal(req) =>
        FalAnswerNot200(files, fal(req));
        assert false;
      case SentToRouter(req) =>
        RouterAnswerAt200(files, router(req));
    }
  }

  /** A request rejected before any vendor call is answered 400 or 500. */
  lemma NoVendorNot200(input: FormInput, fal: FalRequest -> FalOutcome, router: ChatRequest -> ChatOutcome)
    requires MixerPost(input, fal, router).1.NoVendor?
    ensures MixerPost(input, fal, router).0.status == 400 || MixerPost(input, fal, router).0.status == 500
  {
  }

  /** FAL failures are answered with 422, 401, 429 or 500, never 200. */
  lemma FalAnswerNot200(files: seq<File>, outcome: FalOutcome)
    ensures Answer(FalResponse(files, outcome)).body.Failed? ==> Answer(FalResponse(files, outcome)).status != 200
  {
  }

  /** An OpenRouter failure answered 200 can only be a thrown error whose response carried 200. */
  lemma RouterAnswerAt200(files: seq<File>, outcome: ChatOutcome)
    requires Answer(RouterResponse(files, outcome)).body.Failed?
    requires Answer(RouterResponse(files, outcome)).status == 200
    ensures outcome.ChatThrew? && ResponseStatus(outcome.error) == Some(200)
  {
  }
}
