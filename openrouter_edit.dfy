/**
 * The single-image edit route (`POST /api/openrouter-edit`). It reads one
 * image and a prompt from the form, sends both to OpenRouter's
 * chat-completion API in one user message, and answers with the completion,
 * or with an error whose `httpStatus` is also the HTTP status. The vendor is
 * a parameter: a function from the request sent to the completion or the
 * value it throws.
 */
module OpenRouterEdit {
  import opened JsText
  import opened Envelope
  import opened ImageTypes
  import opened ChatCompletion

  /** `formData`: the `image` file and the `prompt` text, each `null` when missing. */
  datatype Form = Form(image: Option<File>, prompt: Option<string>)

  /** `request.formData()` either parses or throws. */
  datatype FormInput = Parsed(form: Form) | ParseFailed(error: Thrown)

  /** The success payload; `content` is handed on as it came, `null` included. */
  datatype EditData = EditData(
    content: Option<string>,
    model: string,
    id: string,
    finishReason: Option<string>,
    usage: Option<Usage>,
    originalFileName: string,
    originalFileSize: nat,
    images: Option<seq<FormattedImage>>,
    hasImages: bool)

  /** The JSON body: a bare `{error}` string for missing input, the unified error, or success. */
  datatype EditBody = MissingInput(message: string) | Failed(error: ApiError) | Succeeded(data: EditData)

  datatype Reply = Reply(status: int, body: EditBody)

  /** The prompt as text, then the image as a data URL, in one user message. */
  function EditRequest(file: File, prompt: string): (r: ChatRequest)
    ensures r.model == GeminiModel && r.maxTokens == MaxTokens
    ensures |r.content| == 2 && r.content[0] == TextPart(prompt)
    ensures r.content[1] == ImagePart(DataUrl(file))
    ensures StartsWith(r.content[1].url, "data:" + file.mimeType + ";base64,")
  {
    var url := DataUrl(file);
    assert url == ("data:" + file.mimeType + ";base64,") + file.base64;
    ChatRequest(GeminiModel, [TextPart(prompt), ImagePart(url)], MaxTokens)
  }

  /** An unexpected failure goes through the classifier and is answered with its status. */
  function ThrownReply(e: Thrown): (r: Reply)
    ensures r.body.Failed? && r.status == r.body.error.httpStatus
    ensures r.body.error == ExceptionError(EditRoute, e)
  {
    var err := ExceptionError(EditRoute, e);
    Reply(err.httpStatus, Failed(err))
  }

  /** What a completion is answered with: a finish-reason failure, or the payload. */
  function CompletionReply(file: File, c: Completion): (r: Reply)
    ensures r.body.Succeeded? <==> FinishReasonOf(c) == Some("stop")
    ensures r.body.Failed? ==>
              r.body.error == FinishReasonFailure(EditRoute, FinishReasonOf(c), NativeReasonOf(c)).value &&
              r.status == r.body.error.httpStatus && (r.status == 422 || r.status == 500)
    ensures r.body.Succeeded? ==> r.status == 200 && r.body.data.finishReason == Some("stop")
    ensures r.body.Succeeded? ==> (r.body.data.hasImages <==> r.body.data.images.Some?)
    ensures r.body.Succeeded? ==> r.body.data.content == c.choices[0].message.content
    ensures r.body.Succeeded? ==> r.body.data.originalFileName == file.name && r.body.data.originalFileSize == file.size
    ensures r.body.Succeeded? ==> |c.choices| > 0
    ensures r.body.Succeeded? && |c.choices| > 0 ==>
              r.body.data.images == ResponseImages(c.choices[0].message) &&
              r.body.data.model == c.model && r.body.data.id == c.id && r.body.data.usage == c.usage
    ensures !r.body.MissingInput?
  {
    var failure := FinishReasonFailure(EditRoute, FinishReasonOf(c), NativeReasonOf(c));
    if failure.Some? then Reply(failure.value.httpStatus, Failed(failure.value))
    else
      var message := c.choices[0].message;
      var images := ResponseImages(message);
      Reply(200, Succeeded(EditData(message.content, c.model, c.id, c.choices[0].finishReason, c.usage,
                                    file.name, file.size, images, images.Some?)))
  }

  /** An empty `images` array from a completion that stopped still gives `hasImages: true` and `images: []`. */
  lemma EmptyImageListHasImages(file: File, c: Completion)
    requires |c.choices| > 0 && c.choices[0].finishReason == Some("stop") && c.choices[0].message.images == Some([])
    ensures var r := CompletionReply(file, c);
            r.body.Succeeded? && r.body.data.hasImages && r.body.data.images == Some([])
  {
    EmptyImageListStillCountsAsImages(c.choices[0].message);
  }

  /**
   * The whole route. A missing image is reported before a missing prompt,
   * and either one answers 400 without calling the vendor; a prompt is only
   * tested for being empty, not for being blank.
   */
  function EditPost(input: FormInput, router: ChatRequest -> ChatOutcome): (r: (Reply, Option<ChatRequest>))
    ensures input.ParseFailed? ==> r == (ThrownReply(input.error), None)
    ensures input.Parsed? && input.form.image.None? ==> r == (Reply(400, MissingInput("No image file provided")), None)
    ensures input.Parsed? && input.form.image.Some? && !TruthyOpt(input.form.prompt) ==>
              r == (Reply(400, MissingInput("No prompt provided")), None)
    ensures r.1.Some? <==> input.Parsed? && input.form.image.Some? && TruthyOpt(input.form.prompt)
    ensures r.1.Some? ==> r.1.value == EditRequest(input.form.image.value, input.form.prompt.value)
    ensures r.0.body.Failed? ==> r.0.status == r.0.body.error.httpStatus
    ensures r.0.body.Succeeded? ==> r.0.status == 200
    ensures r.0.body.MissingInput? ==> r.0.status == 400
    ensures input.Parsed? && input.form.image.Some? && r.1.Some? ==>
              r.0 == (match router(r.1.value)
                      case ChatThrew(e) => ThrownReply(e)
                      case Completed(c) => CompletionReply(input.form.image.value, c))
  {
    match input
    case ParseFailed(e) => (ThrownReply(e), None)
    case Parsed(form) =>
      if form.image.None? then (Reply(400, MissingInput("No image file provided")), None)
      else if !TruthyOpt(form.prompt) then (Reply(400, MissingInput("No prompt provided")), None)
      else
        var req := EditRequest(form.image.value, form.prompt.value);
        match router(req)
        case ChatThrew(e) => (ThrownReply(e), Some(req))
        case Completed(c) => (CompletionReply(form.image.value, c), Some(req))
  }

  /** `POST`: the early returns and the `try`/`catch` of the source, in its order. */
  method Post(input: FormInput, router: ChatRequest -> ChatOutcome) returns (reply: Reply, sent: Option<ChatRequest>)
    ensures (reply, sent) == EditPost(input, router)
  {
    sent := None;
    if input.ParseFailed? {
      var err := ClassifyException(EditRoute, input.error);
      return Reply(err.httpStatus, Failed(err)), sent;
    }
    var file := input.form.image;
    var prompt := input.form.prompt;
    if file.None? {
      return Reply(400, MissingInput("No image file provided")), sent;
    }
    if !TruthyOpt(prompt) {
      return Reply(400, MissingInput("No prompt provided")), sent;
    }
    var dataUrl := DataUrl(file.value);
    var request := ChatRequest(GeminiModel, [TextPart(prompt.value), ImagePart(dataUrl)], MaxTokens);
    sent := Some(request);
    var outcome := router(request);
    if outcome.ChatThrew? {
      var err := ClassifyException(EditRoute, outcome.error);
      return Reply(err.httpStatus, Failed(err)), sent;
    }
    var completion := outcome.completion;
    var failure := CheckFinishReason(EditRoute, FinishReasonOf(completion), NativeReasonOf(completion));
    if failure.Some? {
      return Reply(failure.value.httpStatus, Failed(failure.value)), sent;
    }
    var message := completion.choices[0].message;
    var responseImages := ResponseImages(message);
    reply := Reply(200, Succeeded(EditData(message.content, completion.model, completion.id,
                                           completion.choices[0].finishReason, completion.usage,
                                           file.value.name, file.value.size, responseImages, responseImages.Some?)));
  }

  /** Unlike the multi-image route, a prompt of spaces only is accepted and sent. */
  lemma BlankPromptIsSent(file: File, router: ChatRequest -> ChatOutcome)
    ensures EditPost(Parsed(Form(Some(file), Some("   "))), router).1 == Some(EditRequest(file, "   "))
  {
  }

  /** Without an image the prompt is never looked at. */
  lemma ImageCheckedFirst(prompt: Option<string>, router: ChatRequest -> ChatOutcome)
    ensures EditPost(Parsed(Form(None, prompt)), router).0.body == MissingInput("No image file provided")
  {
  }
}
