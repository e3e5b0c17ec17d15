/** The error-classification rule shared by every asynchronous operation of
    the two slices: the `catch` branch of each thunk turns a failed request
    into the message it rejects with. */
module Rejection {
  import opened JsValue

  /** `error.response`: the HTTP status and the server's `data.message`. */
  datatype ErrorResponse = ErrorResponse(status: int, message: Option<string>)

  /** A failed request as the HTTP client reports it: a response when the
      server answered, `request` when the request went out but nothing came
      back, and the client's own diagnostic `message`. */
  datatype HttpError = HttpError(response: Option<ErrorResponse>, request: bool, message: string)

  /** The fixed message for a request that got no response. */
  const NoResponseMessage := "No response from server. Please check your internet connection."

  /** What a request that could not be sent at all starts with. */
  const DiagnosticPrefix := "Error: "

  /** The three-way classification: the server's message (or the operation's
      `fallback` when it sent none), the connection message, or the client's
      diagnostic wrapped as `Error: <message><suffix>`. */
  function Classify(e: HttpError, fallback: string, suffix: string): (r: string)
    ensures e.response.Some? && Truthy(e.response.value.message) ==> Some(r) == e.response.value.message
    ensures e.response.Some? && !Truthy(e.response.value.message) ==> r == fallback
    ensures e.response.None? && e.request ==> r == NoResponseMessage
    ensures e.response.None? && !e.request ==> |r| == |DiagnosticPrefix| + |e.message| + |suffix|
  {
    if e.response.Some? then OrElse(e.response.value.message, fallback)
    else if e.request then NoResponseMessage
    else DiagnosticPrefix + e.message + suffix
  }

  /** The diagnostic text is carried through unchanged: stripping the prefix
      and the suffix off a construction-failure message gives back the
      client's message. */
  lemma DiagnosticRoundTrip(e: HttpError, fallback: string, suffix: string)
    requires e.response.None? && !e.request
    ensures var r := Classify(e, fallback, suffix);
      && r[..|DiagnosticPrefix|] == DiagnosticPrefix
      && r[|r| - |suffix|..] == suffix
      && r[|DiagnosticPrefix|..|r| - |suffix|] == e.message
  {
  }

  /** With a non-empty fallback the rejection message is never empty, so a
      reducer's own `payload || 'An unknown error …'` default never replaces
      a message produced by this rule. */
  lemma ClassifyIsTruthy(e: HttpError, fallback: string, suffix: string)
    requires fallback != ""
    ensures Classify(e, fallback, suffix) != ""
  {
  }

  /** The status code plays no part: two failures with the same server
      message classify alike whatever their statuses. */
  lemma ClassifyIgnoresStatus(e: HttpError, status: int, fallback: string, suffix: string)
    requires e.response.Some?
    ensures Classify(e.(response := Some(e.response.value.(status := status))), fallback, suffix)
         == Classify(e, fallback, suffix)
  {
  }
}
