/** The client's translation of a failed HTTP response into a thrown `ApiError`
    (src/lib/apiErrorHandler.ts), and the extraction of a message from any thrown value. */
module ApiErrors {
  import opened Wrappers
  import opened Text

  const UnknownError: string := "An unknown error occurred"

  /** `class ApiError extends Error { status; message; code? }`. */
  datatype ApiError = ApiError(status: int, message: string, code: Option<string>)

  /** A value caught by a `catch` clause: an `ApiError`, another `Error`, or anything else. */
  datatype Thrown = ThrownApiError(apiError: ApiError) | ThrownError(message: string) | ThrownOther

  /** The settled result of an awaited call: its value, or what it threw. */
  datatype Call<+T> = Resolved(value: T) | Rejected(error: Thrown)

  /** The fields of a parsed JSON error body that are read; a field that is absent or not
      a string is `None`. */
  datatype ErrorBody = ErrorBody(detail: Option<string>, message: Option<string>, error: Option<string>, code: Option<string>)

  /** A failed response: status, status text, content type header, and the JSON body,
      `None` when `response.json()` rejects. */
  datatype ErrorResponse = ErrorResponse(status: int, statusText: string, contentType: Option<string>, json: Option<ErrorBody>)

  /** The string value of an optional field, `""` (falsy) when absent. */
  function Field(f: Option<string>): string {
    f.GetOr("")
  }

  /** The content type is present, non-empty and includes `application/json`. */
  function IsJson(resp: ErrorResponse): (r: bool)
    ensures r <==> resp.contentType.Some? && Contains(resp.contentType.value, "application/json")
  {
    resp.contentType.Some? && resp.contentType.value != "" && Contains(resp.contentType.value, "application/json")
  }

  /** `HTTP ${status}: ${statusText}`. */
  function StatusMessage(resp: ErrorResponse): (r: string)
    ensures StartsWith(r, "HTTP ")
  {
    "HTTP " + IntToString(resp.status) + ": " + resp.statusText
  }

  /** `handleApiError(response)`: it never returns, so the model returns the `ApiError` it
      throws. A readable JSON body gives the first truthy of `detail`, `message`, `error`
      and the code from `code`; otherwise the message names the status. */
  function HandleApiError(resp: ErrorResponse): (e: ApiError)
    ensures e.status == resp.status
    ensures e.message != ""
    ensures IsJson(resp) && resp.json.Some? ==> e.code == resp.json.value.code
    ensures IsJson(resp) && resp.json.Some? && Field(resp.json.value.detail) != "" ==>
              e.message == resp.json.value.detail.value
    ensures IsJson(resp) && resp.json.Some? && Field(resp.json.value.detail) == "" && Field(resp.json.value.message) != "" ==>
              e.message == resp.json.value.message.value
    ensures IsJson(resp) && resp.json.Some? && Field(resp.json.value.detail) == "" && Field(resp.json.value.message) == ""
            ==> e.message == OrElse(Field(resp.json.value.error), UnknownError)
    ensures !(IsJson(resp) && resp.json.Some?) ==> e.message == StatusMessage(resp) && e.code.None?
  {
    if IsJson(resp) && resp.json.Some? then
      var body := resp.json.value;
      ApiError(resp.status, OrElse(Field(body.detail), OrElse(Field(body.message), OrElse(Field(body.error), UnknownError))), body.code)
    else
      ApiError(resp.status, StatusMessage(resp), None)
  }

  /** `getErrorMessage(error)`: the message of any `Error` (an `ApiError` is one), a fixed
      text otherwise. */
  function GetErrorMessage(error: Thrown): (r: string)
    ensures error.ThrownApiError? ==> r == error.apiError.message
    ensures error.ThrownError? ==> r == error.message
    ensures error.ThrownOther? ==> r == UnknownError
  {
    match error
    case ThrownApiError(e) => e.message
    case ThrownError(m) => m
    case ThrownOther => UnknownError
  }

  /** `err instanceof Error ? err.message : fallback`, the pattern of the page handlers. */
  function MessageOr(error: Thrown, fallback: string): (r: string)
    ensures !error.ThrownOther? ==> r == GetErrorMessage(error)
    ensures error.ThrownOther? ==> r == fallback
  {
    if error.ThrownOther? then fallback else GetErrorMessage(error)
  }

  /** `error.message || fallback`: the message when it is a non-empty string, the fallback
      for an empty message or a thrown value without one. */
  function MessageFieldOr(error: Thrown, fallback: string): (r: string)
    ensures error.ThrownOther? ==> r == fallback
    ensures !error.ThrownOther? && GetErrorMessage(error) != "" ==> r == GetErrorMessage(error)
    ensures !error.ThrownOther? && GetErrorMessage(error) == "" ==> r == fallback
  {
    if error.ThrownOther? then fallback else OrElse(GetErrorMessage(error), fallback)
  }

  /** Every `ApiError` thrown for a response carries a non-empty message, so the message a
      page shows for it is never blank. */
  lemma ThrownMessageNonEmpty(resp: ErrorResponse, fallback: string)
    ensures MessageOr(ThrownApiError(HandleApiError(resp)), fallback) != ""
    ensures GetErrorMessage(ThrownApiError(HandleApiError(resp))) == HandleApiError(resp).message
  {
  }
}
