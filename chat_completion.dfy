/**
 * What both OpenRouter-backed routes do with a chat-completion call: the shape
 * of the completion they receive, the image normaliser, the finish-reason
 * check and the classifier for thrown errors. The multi-vendor mixer route
 * and the single-image edit route differ in a few branches; `RouteVariant`
 * says which route's branches apply.
 */
module ChatCompletion {
  import opened JsText
  import opened Envelope

  /** Which route's copy of the logic runs. */
  datatype RouteVariant = MixerRoute | EditRoute

  // ---------------------------------------------------------------------------
  // Request and completion shapes

  /** The one model both routes ask OpenRouter for. */
  const GeminiModel := "google/gemini-2.5-flash-image-preview:free"

  /** The `max_tokens` both routes send. */
  const MaxTokens := 1000

  /** One element of the user message's `content` array. */
  datatype ContentItem = TextPart(text: string) | ImagePart(url: string)

  /** The `chat.completions.create` payload: one user message. */
  datatype ChatRequest = ChatRequest(model: string, content: seq<ContentItem>, maxTokens: int)

  /** A raw image entry of `message.images`; the three places a picture can be. */
  datatype RawImage = RawImage(
    imageUrl: Option<string>,      // image_url.url
    url: Option<string>,
    b64Json: Option<string>,
    revisedPrompt: Option<string>)

  /** An entry as the routes hand it back: `{url, b64_json, revised_prompt}`, `null` for missing. */
  datatype FormattedImage = FormattedImage(
    url: Option<string>,
    b64Json: Option<string>,
    revisedPrompt: Option<string>)

  datatype Usage = Usage(promptTokens: int, completionTokens: int, totalTokens: int)

  datatype Message = Message(content: Option<string>, images: Option<seq<RawImage>>)

  datatype Choice = Choice(message: Message, finishReason: Option<string>, nativeFinishReason: Option<string>)

  datatype Completion = Completion(model: string, id: string, choices: seq<Choice>, usage: Option<Usage>)

  /** What the vendor call gives back: a completion, or a thrown value. */
  datatype ChatOutcome = Completed(completion: Completion) | ChatThrew(error: Thrown)

  /** `completion.choices[0]?.finish_reason`. */
  function FinishReasonOf(c: Completion): Option<string> {
    if |c.choices| > 0 then c.choices[0].finishReason else None
  }

  /** `completion.choices[0]?.native_finish_reason`. */
  function NativeReasonOf(c: Completion): Option<string> {
    if |c.choices| > 0 then c.choices[0].nativeFinishReason else None
  }

  // ---------------------------------------------------------------------------
  // Image normaliser

  /** The data URL a bare base64 payload is given. */
  const PngDataPrefix := "data:image/png;base64,"

  /**
   * One entry of the `images.map(...)`: the first of `image_url.url`, `url`
   * and the base64 payload that is non-empty supplies the URL; empty
   * `b64_json` and `revised_prompt` become `null`.
   */
  function FormatImage(img: RawImage): (r: FormattedImage)
    ensures r.url.None? <==> !TruthyOpt(img.imageUrl) && !TruthyOpt(img.url) && !TruthyOpt(img.b64Json)
    ensures r.url.Some? ==> Truthy(r.url.value)
    ensures TruthyOpt(img.imageUrl) ==> r.url == img.imageUrl
    ensures !TruthyOpt(img.imageUrl) && TruthyOpt(img.url) ==> r.url == img.url
    ensures !TruthyOpt(img.imageUrl) && !TruthyOpt(img.url) && TruthyOpt(img.b64Json) ==>
              r.url == Some(PngDataPrefix + img.b64Json.value)
    ensures r.b64Json.Some? <==> TruthyOpt(img.b64Json)
    ensures r.b64Json.Some? ==> r.b64Json == img.b64Json
    ensures r.revisedPrompt.Some? <==> TruthyOpt(img.revisedPrompt)
    ensures r.revisedPrompt.Some? ==> r.revisedPrompt == img.revisedPrompt
  {
    var url :=
      if TruthyOpt(img.imageUrl) then img.imageUrl
      else if TruthyOpt(img.url) then img.url
      else if TruthyOpt(img.b64Json) then Some(PngDataPrefix + img.b64Json.value)
      else None;
    FormattedImage(
      url,
      if TruthyOpt(img.b64Json) then img.b64Json else None,
      if TruthyOpt(img.revisedPrompt) then img.revisedPrompt else None)
  }

  /**
   * `message.images || null`, then mapped when it is an array. An empty array
   * is truthy in JavaScript, so it stays an (empty) array rather than `null`.
   */
  function ResponseImages(m: Message): (r: Option<seq<FormattedImage>>)
    ensures r.Some? <==> m.images.Some?
    ensures r.Some? ==> |r.value| == |m.images.value|
    ensures r.Some? ==> forall i :: 0 <= i < |r.value| ==> r.value[i] == FormatImage(m.images.value[i])
  {
    match m.images
    case None => None
    case Some(raw) => Some(seq(|raw|, i requires 0 <= i < |raw| => FormatImage(raw[i])))
  }

  /** `hasImages: !!responseImages` holds even when the list came back empty. */
  lemma EmptyImageListStillCountsAsImages(m: Message)
    requires m.images == Some([])
    ensures ResponseImages(m) == Some([])
  {
  }

  // ---------------------------------------------------------------------------
  // Finish-reason check

  /** The kind a non-`stop` finish reason is classified as. */
  function FinishKind(route: RouteVariant, reason: Option<string>): (r: ErrorKind)
    ensures r == ContentFilter <==> reason == Some("content_filter")
    ensures r == LengthLimit <==> reason == Some("length")
    ensures r == ToolCall <==> route == EditRoute && (reason == Some("function_call") || reason == Some("tool_calls"))
    ensures r == ContentFilter || r == LengthLimit || r == ToolCall || r == Model
  {
    if reason == Some("content_filter") then ContentFilter
    else if reason == Some("length") then LengthLimit
    else if route == EditRoute && (reason == Some("function_call") || reason == Some("tool_calls")) then ToolCall
    else Model
  }

  /** The titles and messages of the finish-reason failures. */
  const ModelTitle := "Processing Issue"
  const ContentFilterTitle := "Content Prohibited"
  const LengthTitle := "Response Too Long"
  const ToolCallTitle := "Tool Call Issue"
  const ModelText := "The AI model encountered an issue while processing your request"
  const MixerContentFilterText := "Content is prohibited by content policy"
  const LengthText := "The response was truncated due to length limits"
  const ToolCallText := "The model tried to call a function but encountered an issue"

  function FinishTitle(kind: ErrorKind): string {
    match kind
    case ContentFilter => ContentFilterTitle
    case LengthLimit => LengthTitle
    case ToolCall => ToolCallTitle
    case _ => ModelTitle
  }

  function FinishCode(kind: ErrorKind): string {
    match kind
    case ContentFilter => "CONTENT_FILTER"
    case LengthLimit => "LENGTH_LIMIT"
    case ToolCall => "TOOL_CALL_ERROR"
    case _ => "MODEL_ISSUE"
  }

  /**
   * The edit route's content-filter message: the vendor's native reason,
   * lower-cased with every underscore made a space, else a stock phrase.
   */
  function ContentFilterMessage(native: Option<string>): (r: string)
    ensures TruthyOpt(native) ==> |r| == |native.value|
    ensures TruthyOpt(native) ==> forall i :: 0 <= i < |r| ==> r[i] != '_' && !('A' <= r[i] <= 'Z')
    ensures TruthyOpt(native) ==> forall i :: 0 <= i < |r| ==>
              r[i] == (if native.value[i] == '_' then ' ' else LowerChar(native.value[i]))
    ensures !TruthyOpt(native) ==> r == "content is prohibited"
  {
    if TruthyOpt(native) then UnderscoresToSpaces(ToLower(native.value)) else "content is prohibited"
  }

  function FinishMessage(route: RouteVariant, kind: ErrorKind, native: Option<string>): string {
    match kind
    case ContentFilter =>
      if route == MixerRoute then MixerContentFilterText else ContentFilterMessage(native)
    case LengthLimit => LengthText
    case ToolCall => ToolCallText
    case _ => ModelText
  }

  /** `Model finish reason: <reason>`, plus ` (<native>)` on the edit route when a native reason is given. */
  function FinishDetails(route: RouteVariant, reason: Option<string>, native: Option<string>): (r: string)
    ensures StartsWith(r, ReasonLine(reason))
  {
    var line := ReasonLine(reason);
    if route == EditRoute && TruthyOpt(native) then
      var r := line + Parenthesised(native.value);
      assert r[..|line|] == line;
      r
    else line
  }

  function ReasonLine(reason: Option<string>): string {
    "Model finish reason: " + Render(reason)
  }

  function Parenthesised(s: string): string {
    " (" + s + ")"
  }

  /**
   * The failure a finish reason signals, if any: everything but `stop`
   * (including no reason at all) is a failure.
   */
  function FinishReasonFailure(route: RouteVariant, reason: Option<string>, native: Option<string>): (r: Option<ApiError>)
    ensures r.None? <==> reason == Some("stop")
    ensures r.Some? ==> RetryConsistent(r.value)
    ensures r.Some? ==> (r.value.httpStatus == 422 <==> reason == Some("content_filter"))
    ensures r.Some? ==> (r.value.httpStatus == 422 || r.value.httpStatus == 500)
    ensures r.Some? ==> (r.value.retryable <==> reason != Some("content_filter"))
    ensures r.Some? && route == MixerRoute ==> r.value.kind != ToolCall
    ensures r.Some? ==> StartsWith(r.value.details, ReasonLine(reason))
    ensures r.Some? ==> r.value.kind == FinishKind(route, reason)
    ensures r.Some? ==> r.value.title == FinishTitle(r.value.kind) && r.value.code == FinishCode(r.value.kind)
    ensures r.Some? ==> r.value.message == FinishMessage(route, r.value.kind, native)
    ensures r.Some? && route == EditRoute && TruthyOpt(native) ==>
              r.value.details == ReasonLine(reason) + Parenthesised(native.value)
    ensures r.Some? && !(route == EditRoute && TruthyOpt(native)) ==> r.value.details == ReasonLine(reason)
  {
    if reason == Some("stop") then None
    else
      var kind := FinishKind(route, reason);
      var details := FinishDetails(route, reason, native);
      Some(ApiError(
        kind,
        FinishTitle(kind),
        FinishMessage(route, kind, native),
        details,
        FinishCode(kind),
        reason != Some("content_filter"),
        if reason == Some("content_filter") then 422 else 500))
  }

  /** `content_filter` is a content-prohibited failure; only the edit route words it from the native reason. */
  lemma ContentFilterFailure(route: RouteVariant, native: Option<string>)
    ensures var f := FinishReasonFailure(route, Some("content_filter"), native);
            f.Some? && f.value.kind == ContentFilter && f.value.title == ContentFilterTitle &&
            f.value.code == "CONTENT_FILTER" && !f.value.retryable && f.value.httpStatus == 422 &&
            f.value.message == (if route == MixerRoute then MixerContentFilterText
                                else ContentFilterMessage(native))
  {
  }

  /** `length` is a retryable response-too-long failure. */
  lemma LengthFailure(route: RouteVariant, native: Option<string>)
    ensures var f := FinishReasonFailure(route, Some("length"), native);
            f.Some? && f.value.kind == LengthLimit && f.value.title == LengthTitle &&
            f.value.code == "LENGTH_LIMIT" && f.value.retryable && f.value.httpStatus == 500 &&
            f.value.message == LengthText
  {
  }

  /** On the edit route `function_call` and `tool_calls` are tool-call failures. */
  lemma ToolCallFailure(reason: Option<string>, native: Option<string>)
    requires reason == Some("function_call") || reason == Some("tool_calls")
    ensures var f := FinishReasonFailure(EditRoute, reason, native);
            f.Some? && f.value.kind == ToolCall && f.value.title == ToolCallTitle &&
            f.value.code == "TOOL_CALL_ERROR" && f.value.retryable && f.value.httpStatus == 500 &&
            f.value.message == ToolCallText
  {
  }

  /** Every other reason, a missing one included, is the generic processing issue. */
  lemma OtherReasonFailure(route: RouteVariant, reason: Option<string>, native: Option<string>)
    requires reason != Some("stop") && reason != Some("content_filter") && reason != Some("length")
    requires route == EditRoute ==> reason != Some("function_call") && reason != Some("tool_calls")
    ensures var f := FinishReasonFailure(route, reason, native);
            f.Some? && f.value.kind == Model && f.value.title == ModelTitle &&
            f.value.code == "MODEL_ISSUE" && f.value.retryable && f.value.httpStatus == 500 &&
            f.value.message == ModelText
  {
  }

  /** The `if (finishReason !== 'stop') { let errorTitle = ...; ... }` block of either route. */
  method CheckFinishReason(route: RouteVariant, reason: Option<string>, native: Option<string>)
    returns (failure: Option<ApiError>)
    ensures failure == FinishReasonFailure(route, reason, native)
  {
    if reason == Some("stop") {
      return None;
    }
    var kind, title, message, code := ClassifyFinish(route, reason, native);
    var details := ReasonLine(reason);
    if route == EditRoute && TruthyOpt(native) {
      details := details + Parenthesised(native.value);
    }
    assert details == FinishDetails(route, reason, native);
    var isFilter := reason == Some("content_filter");
    failure := Some(ApiError(kind, title, message, details, code, !isFilter, if isFilter then 422 else 500));
  }

  /** The defaults and the `if`/`else if` chain that overwrites them. */
  method ClassifyFinish(route: RouteVariant, reason: Option<string>, native: Option<string>)
    returns (kind: ErrorKind, title: string, message: string, code: string)
    ensures kind == FinishKind(route, reason)
    ensures title == FinishTitle(kind) && code == FinishCode(kind) && message == FinishMessage(route, kind, native)
  {
    title := ModelTitle;
    message := ModelText;
    code := "MODEL_ISSUE";
    kind := Model;
    if reason == Some("content_filter") {
      title := ContentFilterTitle;
      message := if route == MixerRoute then MixerContentFilterText else ContentFilterMessage(native);
      code := "CONTENT_FILTER";
      kind := ContentFilter;
    } else if reason == Some("length") {
      title := LengthTitle;
      message := LengthText;
      code := "LENGTH_LIMIT";
      kind := LengthLimit;
    } else if route == EditRoute && (reason == Some("function_call") || reason == Some("tool_calls")) {
      title := ToolCallTitle;
      message := ToolCallText;
      code := "TOOL_CALL_ERROR";
      kind := ToolCall;
    }
  }

  // ---------------------------------------------------------------------------
  // Classifier for thrown errors

  /** The titles and codes the text rules and the status switch write. */
  const ApiKeyTitle := "API Key Error"
  const ApiKeyCode := "INVALID_API_KEY"
  const NetworkTitle := "Network Error"
  const NetworkCode := "NETWORK_TIMEOUT"
  const RateLimitTitle := "Rate Limit Exceeded"
  const RateLimitCode := "RATE_LIMIT"
  const BadRequestTitle := "Invalid Request"
  const BadRequestCode := "BAD_REQUEST"
  const UnauthorizedTitle := "Authentication Failed"
  const UnauthorizedCode := "UNAUTHORIZED"
  const ForbiddenTitle := "Access Denied"
  const ForbiddenCode := "FORBIDDEN"
  const ServerErrorTitle := "Server Error"
  const ServerErrorCode := "INTERNAL_SERVER_ERROR"
  const UnavailableTitle := "Service Unavailable"
  const UnavailableCode := "SERVICE_UNAVAILABLE"

  /** The fields one branch of the classifier writes. */
  datatype Rule = Rule(kind: ErrorKind, title: string, code: string, retryable: bool, httpStatus: int)

  /** A rule never offers a retry for a kind that must not be retried. */
  predicate RuleConsistent(rule: Rule) {
    NeverRetried(rule.kind) ==> !rule.retryable
  }

  /** The free-text rules on an `Error`'s message, first match wins. */
  function TextRule(m: string): (r: Option<Rule>)
    ensures r.Some? <==> Contains(m, "API key") || Contains(m, "timeout") || Contains(m, "ECONNRESET") || Contains(m, "rate limit")
    ensures Contains(m, "API key") ==>
              r.Some? && r.value.kind == Authentication && r.value.title == "API Key Error" &&
              r.value.code == "INVALID_API_KEY" && !r.value.retryable && r.value.httpStatus == 401
    ensures !Contains(m, "API key") && (Contains(m, "timeout") || Contains(m, "ECONNRESET")) ==>
              r.Some? && r.value.kind == Network && r.value.title == "Network Error" &&
              r.value.code == "NETWORK_TIMEOUT" && r.value.retryable && r.value.httpStatus == 503
    ensures !Contains(m, "API key") && !Contains(m, "timeout") && !Contains(m, "ECONNRESET") && Contains(m, "rate limit") ==>
              r.Some? && r.value.kind == RateLimit && r.value.title == "Rate Limit Exceeded" &&
              r.value.code == "RATE_LIMIT" && r.value.retryable && r.value.httpStatus == 429
    ensures r.Some? ==> RuleConsistent(r.value) && r.value.kind != Authorization && r.value.kind != Service
  {
    if Contains(m, "API key") then Some(Rule(Authentication, ApiKeyTitle, ApiKeyCode, false, 401))
    else if Contains(m, "timeout") || Contains(m, "ECONNRESET") then Some(Rule(Network, NetworkTitle, NetworkCode, true, 503))
    else if Contains(m, "rate limit") then Some(Rule(RateLimit, RateLimitTitle, RateLimitCode, true, 429))
    else None
  }

  /** The `switch (response.status)`; the edit route also knows 403 and 503. */
  function StatusRule(route: RouteVariant, s: int): (r: Option<Rule>)
    ensures r.Some? <==> s in {400, 401, 429, 500} || (route == EditRoute && s in {403, 503})
    ensures r.Some? ==> RuleConsistent(r.value) && r.value.httpStatus == s
    ensures route == MixerRoute && r.Some? ==> r.value.kind != Authorization && r.value.kind != Service
    ensures s == 400 ==>
              r.Some? && r.value.kind == Validation && r.value.title == "Invalid Request" &&
              r.value.code == "BAD_REQUEST" && !r.value.retryable
    ensures s == 401 ==>
              r.Some? && r.value.kind == Authentication && r.value.title == "Authentication Failed" &&
              r.value.code == "UNAUTHORIZED" && !r.value.retryable
    ensures s == 403 && route == EditRoute ==>
              r.Some? && r.value.kind == Authorization && r.value.title == "Access Denied" &&
              r.value.code == "FORBIDDEN" && !r.value.retryable
    ensures s == 429 ==>
              r.Some? && r.value.kind == RateLimit && r.value.title == "Rate Limit Exceeded" &&
              r.value.code == "RATE_LIMIT" && r.value.retryable
    ensures s == 500 ==>
              r.Some? && r.value.kind == Server && r.value.title == "Server Error" &&
              r.value.code == "INTERNAL_SERVER_ERROR" && r.value.retryable
    ensures s == 503 && route == EditRoute ==>
              r.Some? && r.value.kind == Service && r.value.title == "Service Unavailable" &&
              r.value.code == "SERVICE_UNAVAILABLE" && r.value.retryable
  {
    if s == 400 then Some(Rule(Validation, BadRequestTitle, BadRequestCode, false, s))
    else if s == 401 then Some(Rule(Authentication, UnauthorizedTitle, UnauthorizedCode, false, s))
    else if s == 403 && route == EditRoute then Some(Rule(Authorization, ForbiddenTitle, ForbiddenCode, false, s))
    else if s == 429 then Some(Rule(RateLimit, RateLimitTitle, RateLimitCode, true, s))
    else if s == 500 then Some(Rule(Server, ServerErrorTitle, ServerErrorCode, true, s))
    else if s == 503 && route == EditRoute then Some(Rule(Service, UnavailableTitle, UnavailableCode, true, s))
    else None
  }

  /** `response?.status` when it is truthy (present and non-zero). */
  function ResponseStatus(e: Thrown): Option<int> {
    if e.response.Some? && e.response.value.status.Some? && e.response.value.status.value != 0
    then e.response.value.status else None
  }

  /** `response?.data?.error`. */
  function VendorErrorOf(e: Thrown): Option<VendorError> {
    if e.response.Some? then e.response.value.error else None
  }

  function DefaultMessage(route: RouteVariant): string {
    if route == MixerRoute then "Failed to process images with OpenRouter" else "Failed to process image with AI"
  }

  /** The record the `catch` block starts from. */
  function Defaults(route: RouteVariant): ApiError {
    ApiError(Unknown, "Processing Error", DefaultMessage(route), "An unexpected error occurred", "UNKNOWN_ERROR", true, 500)
  }

  /**
   * The record after the `instanceof Error` block: an `Error`'s message is
   * both message and details, and the first text rule that matches sets the
   * rest; anything else leaves the defaults.
   */
  function MessageStage(route: RouteVariant, e: Thrown): (r: ApiError)
    ensures RetryConsistent(r)
    ensures route == MixerRoute ==> r.kind != Authorization && r.kind != Service
    ensures e.errorMessage.None? ==> r == Defaults(route)
    ensures e.errorMessage.Some? ==> r.message == e.errorMessage.value && r.details == e.errorMessage.value
    ensures r.httpStatus == 500 || r.httpStatus == 401 || r.httpStatus == 503 || r.httpStatus == 429
    ensures e.errorMessage.Some? && TextRule(e.errorMessage.value).Some? ==>
              var rule := TextRule(e.errorMessage.value).value;
              r.kind == rule.kind && r.title == rule.title && r.code == rule.code &&
              r.retryable == rule.retryable && r.httpStatus == rule.httpStatus
    ensures e.errorMessage.Some? && TextRule(e.errorMessage.value).None? ==>
              r.kind == Unknown && r.title == "Processing Error" && r.code == "UNKNOWN_ERROR" && r.retryable && r.httpStatus == 500
  {
    match e.errorMessage
    case None => Defaults(route)
    case Some(m) =>
      match TextRule(m)
      case None => Defaults(route).(message := m, details := m)
      case Some(rule) => ApiError(rule.kind, rule.title, m, m, rule.code, rule.retryable, rule.httpStatus)
  }

  /** The rule the status switch applies, when the response carries a status it knows. */
  function KnownStatus(route: RouteVariant, e: Thrown): Option<Rule> {
    if ResponseStatus(e).Some? then StatusRule(route, ResponseStatus(e).value) else None
  }

  /**
   * The classifier stated field by field: a known response status decides
   * kind, title, code and retry flag over the message stage; a truthy status
   * is the HTTP status; a non-empty vendor message or code overrides
   * everything else.
   */
  function ExceptionError(route: RouteVariant, e: Thrown): (r: ApiError)
    ensures ResponseStatus(e).Some? ==> r.httpStatus == ResponseStatus(e).value
    ensures ResponseStatus(e).None? ==> r.httpStatus == 500 || r.httpStatus == 401 || r.httpStatus == 503 || r.httpStatus == 429
    ensures RetryConsistent(r)
    ensures ResponseStatus(e).Some? && StatusRule(route, ResponseStatus(e).value).Some? ==>
              r.kind == StatusRule(route, ResponseStatus(e).value).value.kind &&
              r.retryable == StatusRule(route, ResponseStatus(e).value).value.retryable
    ensures e.errorMessage.None? && ResponseStatus(e).None? ==> r.kind == Unknown && r.retryable && r.httpStatus == 500
    ensures e.errorMessage.None? && e.response.None? ==> r.message == DefaultMessage(route) && r.code == "UNKNOWN_ERROR"
    ensures VendorErrorOf(e).Some? && VendorErrorOf(e).value.message != "" ==>
              r.message == VendorErrorOf(e).value.message && r.details == VendorErrorOf(e).value.message
    ensures VendorErrorOf(e).Some? && VendorErrorOf(e).value.code != "" ==> r.code == VendorErrorOf(e).value.code
    ensures route == MixerRoute ==> r.kind != Authorization && r.kind != Service
    ensures KnownStatus(route, e).Some? ==> r.title == KnownStatus(route, e).value.title
    ensures KnownStatus(route, e).None? ==>
              r.kind == MessageStage(route, e).kind && r.title == MessageStage(route, e).title &&
              r.retryable == MessageStage(route, e).retryable
    ensures ResponseStatus(e).None? ==> r.httpStatus == MessageStage(route, e).httpStatus
    ensures VendorErrorOf(e).None? || VendorErrorOf(e).value.message == "" ==>
              r.message == MessageStage(route, e).message && r.details == MessageStage(route, e).details
    ensures VendorErrorOf(e).None? || VendorErrorOf(e).value.code == "" ==>
              r.code == (if KnownStatus(route, e).Some? then KnownStatus(route, e).value.code else MessageStage(route, e).code)
  {
    var base := MessageStage(route, e);
    var status := ResponseStatus(e);
    var byStatus := KnownStatus(route, e);
    var vendor := VendorErrorOf(e);
    var code := if byStatus.Some? then byStatus.value.code else base.code;
    ApiError(
      if byStatus.Some? then byStatus.value.kind else base.kind,
      if byStatus.Some? then byStatus.value.title else base.title,
      if vendor.Some? then Or(vendor.value.message, base.message) else base.message,
      if vendor.Some? then Or(vendor.value.message, base.details) else base.details,
      if vendor.Some? then Or(vendor.value.code, code) else code,
      if byStatus.Some? then byStatus.value.retryable else base.retryable,
      if status.Some? then status.value else base.httpStatus)
  }

  /** The `if (error instanceof Error)` block: message first, then the text rules in order. */
  method ApplyErrorMessage(route: RouteVariant, e: Thrown) returns (err: ApiError)
    ensures err == MessageStage(route, e)
  {
    err := Defaults(route);
    if e.errorMessage.Some? {
      var m := e.errorMessage.value;
      err := err.(message := m, details := m);
      if Contains(m, "API key") {
        err := err.(kind := Authentication, title := ApiKeyTitle, code := ApiKeyCode,
                    retryable := false, httpStatus := 401);
      } else if Contains(m, "timeout") || Contains(m, "ECONNRESET") {
        err := err.(kind := Network, title := NetworkTitle, code := NetworkCode,
                    retryable := true, httpStatus := 503);
      } else if Contains(m, "rate limit") {
        err := err.(kind := RateLimit, title := RateLimitTitle, code := RateLimitCode,
                    retryable := true, httpStatus := 429);
      }
    }
  }

  /** The `catch` block of either route: the message stage, then the `response` block overwriting fields. */
  method ClassifyException(route: RouteVariant, e: Thrown) returns (err: ApiError)
    ensures err == ExceptionError(route, e)
  {
    err := ApplyErrorMessage(route, e);
    if e.response.Some? {
      var resp := e.response.value;
      if resp.status.Some? && resp.status.value != 0 {
        var s := resp.status.value;
        err := err.(httpStatus := s);
        if s == 400 {
          err := err.(kind := Validation, title := BadRequestTitle, code := BadRequestCode, retryable := false);
        } else if s == 401 {
          err := err.(kind := Authentication, title := UnauthorizedTitle, code := UnauthorizedCode, retryable := false);
        } else if s == 403 && route == EditRoute {
          err := err.(kind := Authorization, title := ForbiddenTitle, code := ForbiddenCode, retryable := false);
        } else if s == 429 {
          err := err.(kind := RateLimit, title := RateLimitTitle, code := RateLimitCode, retryable := true);
        } else if s == 500 {
          err := err.(kind := Server, title := ServerErrorTitle, code := ServerErrorCode, retryable := true);
        } else if s == 503 && route == EditRoute {
          err := err.(kind := Service, title := UnavailableTitle, code := UnavailableCode, retryable := true);
        }
      }
      if resp.error.Some? {
        var v := resp.error.value;
        err := err.(message := Or(v.message, err.message), details := Or(v.message, err.details),
                    code := Or(v.code, err.code));
      }
    }
  }

  /** A status the switch knows decides the kind, whatever the message text says. */
  lemma StatusOverridesText(route: RouteVariant, m: string, s: int, v: Option<VendorError>)
    requires s == 400 || s == 401 || s == 429 || s == 500
    ensures var r := ExceptionError(route, Thrown(Some(m), None, None, Some(VendorResponse(Some(s), v))));
            r.kind == StatusRule(route, s).value.kind && r.httpStatus == s
  {
  }
}
