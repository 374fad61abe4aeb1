/** The application's central error handler (`onError`): which thrown error
    becomes which HTTP status and body. */
module ErrorHandler {
  import opened Types
  import Routes

  /** The framework's classification of an error. */
  datatype ErrorCode = Validation | Parse | NotFound | InternalServerError | Unknown | InvalidCookieSignature

  /** The three body shapes the handler returns. */
  datatype ErrorBody =
    | MessageBody(message: string)
    | FlagBody(success: bool, message: string)
    | StatusBody(status: string, kind: string, message: string)

  /** The status set and the body returned, or nothing: the framework's own
      default answer with the status left as it was. */
  datatype ErrorReply = Handled(status: int, body: ErrorBody) | Deferred

  const MsgParse: string := "ส่งข้อมูล JSON มาไม่ถูกต้อง (ตรวจสอบ Syntax)"
  const MsgNoEndpoint: string := "ไม่พอ endpoint ที่กำหนด"

  /** `onError`: the first matching check wins. */
  function OnError(code: ErrorCode, error: AppError): (r: ErrorReply)
    ensures code == Validation ==> r == Handled(400, MessageBody(error.message))
    ensures r.Deferred? <==> code != Validation && code != Parse && code != NotFound && error.PlainError?
    ensures r.Handled? ==> r.status == 400 || r.status == 401 || r.status == 404
    ensures (r.Handled? && r.status == 401) <==> code != Validation && error.AuthenticationError?
    ensures (r.Handled? && r.status == 404) <==> code == NotFound && error.PlainError?
    ensures r.Handled? && r.body.FlagBody? ==> !r.body.success && r.body.message == error.message
    ensures code == Parse && error.PlainError? ==> r == Handled(400, StatusBody("error", "Parse Error", MsgParse))
    ensures code == NotFound && error.PlainError? ==> r == Handled(404, StatusBody("error", "Not found endpoint", MsgNoEndpoint))
  {
    if code == Validation then Handled(400, MessageBody(error.message))
    else if error.BadRequestError? then Handled(400, FlagBody(false, error.message))
    else if error.AuthenticationError? then Handled(401, FlagBody(false, error.message))
    else if code == Parse then Handled(400, StatusBody("error", "Parse Error", MsgParse))
    else if code == NotFound then Handled(404, StatusBody("error", "Not found endpoint", MsgNoEndpoint))
    else Deferred
  }

  /** The class checks come before the code checks: an error of one of the two
      classes keeps its class's answer whatever code it arrives with, except
      VALIDATION. */
  lemma ClassBeatsCode(code: ErrorCode, message: string)
    requires code != Validation
    ensures OnError(code, BadRequestError(message)) == Handled(400, FlagBody(false, message))
    ensures OnError(code, AuthenticationError(message)) == Handled(401, FlagBody(false, message))
  {
  }

  /** Every refusal of the bearer guard reaches the client as the 401 the guard
      set, with the guard's message: the handler agrees with the guard. */
  lemma GuardRefusalAnswers401(header: Option<string>, verify: string -> Option<Profile>)
    requires Routes.Derive(header, verify).Refused?
    ensures var g := Routes.Derive(header, verify);
      OnError(Unknown, g.error) == Handled(g.status, FlagBody(false, g.error.message))
  {
  }

  /** The handlers' plain errors (a failed listing or summary) are left to the
      framework's default answer. */
  lemma PlainErrorsDeferred(message: string)
    ensures OnError(Unknown, PlainError(message)) == Deferred
    ensures OnError(InternalServerError, PlainError(message)) == Deferred
  {
  }
}
