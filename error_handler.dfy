/** How an API route turns what it throws into an HTTP response: the three
    error classes with their defaults, the `instanceof` chain that classifies a
    thrown value, the success envelope, and the wrapper that catches whatever a
    handler throws. A response is a status and a JSON body; building one throws
    when the status cannot carry a JSON body. */
module ErrorHandler {
  import opened Common

  /** One entry of a `ZodError`'s `errors` list. */
  datatype Issue = Issue(path: seq<string>, message: string)

  /** What a handler can throw: a `ZodError`, one of the three error classes of
      this module (each with its own fields), any other `Error`, or a value that
      is not an `Error` at all. */
  datatype RouteError =
    | ZodErr(issues: seq<Issue>)
    | ValidationErr(message: string, details: seq<Issue>, statusCode: int)
    | SessionErr(message: string, sessionId: string, statusCode: int)
    | AutomationErr(message: string, code: string, statusCode: int)
    | OtherError(name: string, message: string)
    | NonError(text: string)

  /** `new AutomationError(message, code?, statusCode?)`. */
  function NewAutomationError(message: string, code: Option<string>, statusCode: Option<int>): (e: RouteError)
    ensures e.AutomationErr? && e.message == message
    ensures code.None? ==> e.code == "AUTOMATION_ERROR"
    ensures statusCode.None? ==> e.statusCode == 500
    ensures code.Some? ==> e.code == code.value
    ensures statusCode.Some? ==> e.statusCode == statusCode.value
  {
    AutomationErr(message, code.GetOr("AUTOMATION_ERROR"), statusCode.GetOr(500))
  }

  /** `new ValidationError(message, details, statusCode?)`. */
  function NewValidationError(message: string, details: seq<Issue>, statusCode: Option<int>): (e: RouteError)
    ensures e.ValidationErr? && e.message == message && e.details == details
    ensures statusCode.None? ==> e.statusCode == 400
    ensures statusCode.Some? ==> e.statusCode == statusCode.value
  {
    ValidationErr(message, details, statusCode.GetOr(400))
  }

  /** `new SessionError(message, sessionId, statusCode?)`. */
  function NewSessionError(message: string, sessionId: string, statusCode: Option<int>): (e: RouteError)
    ensures e.SessionErr? && e.message == message && e.sessionId == sessionId
    ensures statusCode.None? ==> e.statusCode == 404
    ensures statusCode.Some? ==> e.statusCode == statusCode.value
  {
    SessionErr(message, sessionId, statusCode.GetOr(404))
  }

  /** The classes `handleApiError` tests against. */
  datatype Class = ZodErrorClass | ValidationErrorClass | SessionErrorClass | AutomationErrorClass | ErrorClass

  /** `e instanceof c`: each specific class is a subclass of `Error`. */
  predicate InstanceOf(e: RouteError, c: Class) {
    match c
    case ZodErrorClass => e.ZodErr?
    case ValidationErrorClass => e.ValidationErr?
    case SessionErrorClass => e.SessionErr?
    case AutomationErrorClass => e.AutomationErr?
    case ErrorClass => !e.NonError?
  }

  /** The body of a failed response. */
  datatype ApiError = ApiError(error: string, message: Option<string>, details: Option<seq<Issue>>, code: Option<string>)

  /** `{ success: true, data, message }` or `{ success: false, ... }`. */
  datatype Body<T> = Success(data: T, message: Option<string>) | Failure(err: ApiError)

  /** A built response. */
  datatype Reply<T> = Reply(status: int, body: Body<T>)

  /** The status a `{ status }` init carries once converted to a WebIDL
      `unsigned short`: the integer taken modulo 2^16. */
  function WireStatus(status: int): (w: int)
    ensures 0 <= w < 0x1_0000
    ensures 0 <= status < 0x1_0000 ==> w == status
    ensures (status - w) % 0x1_0000 == 0
  {
    status % 0x1_0000
  }

  /** The null-body statuses of the Fetch standard that lie in 200..599. */
  predicate NullBodyStatus(w: int) {
    w == 204 || w == 205 || w == 304
  }

  /** A status `Response.json` accepts with a body. */
  predicate JsonStatus(status: int) {
    var w := WireStatus(status);
    200 <= w <= 599 && !NullBodyStatus(w)
  }

  /** Why `Response.json` throws (the Fetch standard's "initialize a response"):
      a status outside 200..599 is a `RangeError`; a null-body status with a JSON
      body is a `TypeError`. */
  datatype StatusFault = RangeError(status: int) | TypeError(status: int)

  /** How `NextResponse.json(body, { status })` settles. */
  datatype Sent<T> = Sent(reply: Reply<T>) | Refused(fault: StatusFault)

  /** `NextResponse.json(body, { status })`. */
  function Json<T>(body: Body<T>, status: int): (r: Sent<T>)
    ensures r.Sent? <==> JsonStatus(status)
    ensures r.Sent? ==> r.reply.body == body
    ensures 0 <= status < 0x1_0000 && r.Sent? ==> r.reply.status == status
    ensures r.Refused? && r.fault.RangeError? <==> !(200 <= WireStatus(status) <= 599)
  {
    var w := WireStatus(status);
    if !(200 <= w <= 599) then Refused(RangeError(w))
    else if NullBodyStatus(w) then Refused(TypeError(w))
    else Sent(Reply(w, body))
  }

  /** The error classes whose status the error itself chooses. */
  predicate ChoosesStatus(e: RouteError) {
    e.ValidationErr? || e.SessionErr? || e.AutomationErr?
  }

  /** `handleApiError(error)`: the `instanceof` tests in their fixed order, the
      first that holds deciding the response. It throws exactly when the error
      chose a status that cannot carry the JSON body. */
  function HandleApiError<T>(e: RouteError): (r: Sent<T>)
    ensures r.Refused? <==> ChoosesStatus(e) && !JsonStatus(e.statusCode)
    ensures r.Sent? ==> r.reply.body.Failure?
    ensures ChoosesStatus(e) && r.Sent? && 0 <= e.statusCode < 0x1_0000 ==> r.reply.status == e.statusCode
    ensures e.ZodErr? ==> r == Sent(Reply(400, Failure(ApiError("Validation error", Some("Invalid request data"), Some(e.issues), None))))
    ensures e.ValidationErr? && r.Sent? ==> r.reply.body == Failure(ApiError("Validation error", Some(e.message), Some(e.details), None))
    ensures e.SessionErr? && r.Sent? ==> r.reply.body == Failure(ApiError("Session error", Some(e.message), None, Some("SESSION_ERROR")))
    ensures e.AutomationErr? && r.Sent? ==> r.reply.body == Failure(ApiError("Automation error", Some(e.message), None, Some(e.code)))
    ensures e.OtherError? ==> r == Sent(Reply(500, Failure(ApiError("Internal server error", Some(e.message), None, None))))
    ensures e.NonError? ==> r == Sent(Reply(500, Failure(ApiError("Unknown error", Some("An unexpected error occurred"), None, None))))
  {
    if InstanceOf(e, ZodErrorClass) then
      Json(Failure(ApiError("Validation error", Some("Invalid request data"), Some(e.issues), None)), 400)
    else if InstanceOf(e, ValidationErrorClass) then
      Json(Failure(ApiError("Validation error", Some(e.message), Some(e.details), None)), e.statusCode)
    else if InstanceOf(e, SessionErrorClass) then
      Json(Failure(ApiError("Session error", Some(e.message), None, Some("SESSION_ERROR"))), e.statusCode)
    else if InstanceOf(e, AutomationErrorClass) then
      Json(Failure(ApiError("Automation error", Some(e.message), None, Some(e.code))), e.statusCode)
    else if InstanceOf(e, ErrorClass) then
      Json(Failure(ApiError("Internal server error", Some(e.message), None, None)), 500)
    else
      Json(Failure(ApiError("Unknown error", Some("An unexpected error occurred"), None, None)), 500)
  }

  /** An automation error constructed with status 600 makes `handleApiError`
      throw a `RangeError` instead of answering; one with 204 a `TypeError`. */
  lemma UnusableStatusThrows<T>(message: string)
    ensures HandleApiError<T>(NewAutomationError(message, None, Some(600))) == Refused(RangeError(600))
    ensures HandleApiError<T>(NewSessionError(message, "", Some(204))) == Refused(TypeError(204))
  {
  }

  /** Every error of this module's classes is an `Error`, yet the chain reports
      it under its own class: "Internal server error" is reported exactly for
      the other `Error`s, and only those and non-`Error` values get a 500 that
      the error did not choose. */
  lemma SpecificClassesWin<T>(e: RouteError)
    ensures (e.ValidationErr? || e.SessionErr? || e.AutomationErr? || e.ZodErr?) ==> InstanceOf(e, ErrorClass)
    ensures HandleApiError<T>(e).Sent? ==>
              (HandleApiError<T>(e).reply.body.err.error == "Internal server error" <==> e.OtherError?)
    ensures HandleApiError<T>(e).Sent? ==>
              (HandleApiError<T>(e).reply.body.err.error == "Validation error" <==> e.ZodErr? || e.ValidationErr?)
  {
  }

  /** The default statuses and code survive classification: a validation error
      answers 400, a session error 404 with code "SESSION_ERROR", an automation
      error 500 with code "AUTOMATION_ERROR". */
  lemma DefaultsReachTheResponse<T>(message: string, details: seq<Issue>, sessionId: string)
    ensures HandleApiError<T>(NewValidationError(message, details, None)).Sent?
    ensures HandleApiError<T>(NewValidationError(message, details, None)).reply.status == 400
    ensures HandleApiError<T>(NewSessionError(message, sessionId, None)).Sent?
    ensures HandleApiError<T>(NewSessionError(message, sessionId, None)).reply.status == 404
    ensures HandleApiError<T>(NewSessionError(message, sessionId, None)).reply.body.err.code == Some("SESSION_ERROR")
    ensures HandleApiError<T>(NewAutomationError(message, None, None)).Sent?
    ensures HandleApiError<T>(NewAutomationError(message, None, None)).reply.status == 500
    ensures HandleApiError<T>(NewAutomationError(message, None, None)).reply.body.err.code == Some("AUTOMATION_ERROR")
  {
  }

  /** `createSuccessResponse(data, message?, status?)`. */
  function CreateSuccessResponse<T>(data: T, message: Option<string>, status: Option<int>): (r: Sent<T>)
    ensures status.None? ==> r == Sent(Reply(200, Success(data, message)))
    ensures status.Some? ==> (r.Sent? <==> JsonStatus(status.value))
    ensures r.Sent? ==> r.reply.body == Success(data, message)
    ensures status.Some? && 0 <= status.value < 0x1_0000 && r.Sent? ==> r.reply.status == status.value
  {
    Json(Success(data, message), status.GetOr(200))
  }

  /** How a handler call settles. */
  datatype Settled<T> = Completed(reply: T) | Failed(error: RouteError)

  /** `withErrorHandler(handler)`: a function of the same arguments that turns
      whatever the handler throws into `handleApiError` of it; its promise
      rejects only when `handleApiError` itself throws. */
  function WithErrorHandler<A(!new), T>(handler: A -> Settled<Reply<T>>): (wrapped: A -> Sent<T>)
    ensures forall a :: handler(a).Completed? ==> wrapped(a) == Sent(handler(a).reply)
    ensures forall a :: handler(a).Failed? ==> wrapped(a) == HandleApiError(handler(a).error)
  {
    a => match handler(a) case Completed(reply) => Sent(reply) case Failed(e) => HandleApiError(e)
  }

  /** A successful response from the wrapped handler is exactly what the
      handler itself returned: the wrapper never invents a success. */
  lemma WrappedSuccessIsHandlers<A(!new), T>(handler: A -> Settled<Reply<T>>, a: A)
    requires WithErrorHandler(handler)(a).Sent? && WithErrorHandler(handler)(a).reply.body.Success?
    ensures handler(a).Completed? && Sent(handler(a).reply) == WithErrorHandler(handler)(a)
  {
  }

  /** The wrapped handler rejects exactly when the handler threw an error of one
      of this module's classes carrying a status that cannot hold a JSON body. */
  lemma WrappedRejectsOnlyOnUnusableStatus<A(!new), T>(handler: A -> Settled<Reply<T>>, a: A)
    ensures WithErrorHandler(handler)(a).Refused? <==>
              handler(a).Failed? && ChoosesStatus(handler(a).error) && !JsonStatus(handler(a).error.statusCode)
  {
  }
}
