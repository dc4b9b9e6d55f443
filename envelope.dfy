/**
 * The unified error record both multi-vendor routes return, and the shape of
 * the JavaScript values a vendor call can throw.
 */
module Envelope {
  import opened JsText

  /** The `type` field of an `ApiError`, as the routes write it. */
  datatype ErrorKind =
    | Validation | Authentication | Authorization | RateLimit | ContentFilter
    | LengthLimit | ToolCall | Network | Server | Service | Model | Unknown

  /** Kinds that must never be offered for retry. */
  predicate NeverRetried(k: ErrorKind) {
    k == Validation || k == Authentication || k == Authorization || k == ContentFilter
  }

  /** `interface ApiError { type, title, message, details, code, retryable, httpStatus }`. */
  datatype ApiError = ApiError(
    kind: ErrorKind,
    title: string,
    message: string,
    details: string,
    code: string,
    retryable: bool,
    httpStatus: int)

  /** The retry flag agrees with the kind. */
  predicate RetryConsistent(e: ApiError) {
    NeverRetried(e.kind) ==> !e.retryable
  }

  /** One entry of a FAL validation body's `detail` array: `{loc?: string[], msg?: string}`. */
  datatype DetailEntry = DetailEntry(loc: Option<seq<string>>, msg: Option<string>)

  /** A FAL validation body's `detail`: an array of entries or a plain string. */
  datatype FalDetail = DetailList(entries: seq<DetailEntry>) | DetailText(text: string)

  /** A FAL error's `body` object; `message` is `""` when the body carries none. */
  datatype FalErrorBody = FalErrorBody(message: string, detail: Option<FalDetail>)

  /** An OpenAI-SDK `response.data.error`; empty strings stand for missing fields. */
  datatype VendorError = VendorError(message: string, code: string)

  /** An OpenAI-SDK error's `response`: `status` and `data.error`. */
  datatype VendorResponse = VendorResponse(status: Option<int>, error: Option<VendorError>)

  /**
   * Whatever a `catch` receives. `errorMessage` is present exactly when the
   * value is an `Error` instance; `status` and `body` are the FAL client's
   * error fields, `response` the OpenAI SDK's. A thrown primitive has none.
   */
  datatype Thrown = Thrown(
    errorMessage: Option<string>,
    status: Option<int>,
    body: Option<FalErrorBody>,
    response: Option<VendorResponse>)
}
