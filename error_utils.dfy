/**
 * lib/error-utils.ts: the error classification, the log record, the JSON
 * error response, the user-facing notification text and the route
 * wrapper.  A thrown value is an `AppError`, another `Error`, or any other
 * value (given by what `String(value)` yields).  Console and toast output
 * are not part of this model; only the values they are given are.
 */
module ErrorUtils {
  import opened Wrappers

  datatype ErrorType =
    | Authentication | Authorization | Validation | Server | Network
    | Unknown | Api | Database | VideoProcessing | Payment

  /** The enum's string values. */
  function TypeValue(t: ErrorType): (v: string)
    ensures v != ""
  {
    match t
    case Authentication => "authentication"
    case Authorization => "authorization"
    case Validation => "validation"
    case Server => "server"
    case Network => "network"
    case Unknown => "unknown"
    case Api => "api"
    case Database => "database"
    case VideoProcessing => "video_processing"
    case Payment => "payment"
  }

  /** The error kinds are told apart by their string values. */
  lemma TypeValuesDistinct(a: ErrorType, b: ErrorType)
    ensures TypeValue(a) == TypeValue(b) <==> a == b
  {
  }

  /** An error's context record; only string-valued entries are modelled. */
  type Context = map<string, string>

  datatype Thrown =
    | AppErr(message: string, kind: ErrorType, status: Option<int>, context: Option<Context>, stack: Option<string>)
    | PlainErr(name: string, message: string, stack: Option<string>)
    | NonError(text: string)

  /** `error.name` of an `Error`: `AppError` for the subclass. */
  function Name(e: Thrown): string
    requires !e.NonError?
  {
    if e.AppErr? then "AppError" else e.name
  }

  /** `new AppError(message, type, status, context)`: the type defaults to UNKNOWN. */
  function NewAppError(message: string, kind: Option<ErrorType>, status: Option<int>, context: Option<Context>, stack: Option<string>)
    : (e: Thrown)
    ensures e.AppErr? && Name(e) == "AppError"
    ensures e.message == message && e.status == status && e.context == context
    ensures e.kind == if kind.Some? then kind.value else Unknown
  {
    AppErr(message, kind.GetOr(Unknown), status, context, stack)
  }

  /** A JSON value; `Undefined` is what an absent optional property holds. */
  datatype Json = JStr(s: string) | JNum(n: int) | JObj(fields: Context) | Undefined

  function OptStr(o: Option<string>): Json {
    if o.Some? then JStr(o.value) else Undefined
  }

  function OptNum(o: Option<int>): Json {
    if o.Some? then JNum(o.value) else Undefined
  }

  function OptObj(o: Option<Context>): Json {
    if o.Some? then JObj(o.value) else Undefined
  }

  /** `formatErrorForLogging`: five fields for an `AppError`, three for other errors, the text otherwise. */
  function FormatForLogging(e: Thrown): (r: map<string, Json>)
    ensures "message" in r
    ensures e.AppErr? ==>
      && r.Keys == {"message", "type", "status", "context", "stack"}
      && r["type"] == JStr(TypeValue(e.kind)) && r["status"] == OptNum(e.status)
      && r["context"] == OptObj(e.context)
    ensures e.PlainErr? ==> r.Keys == {"message", "name", "stack"} && r["name"] == JStr(e.name)
    ensures e.NonError? ==> r == map["message" := JStr(e.text)]
    ensures !e.NonError? ==> r["message"] == JStr(e.message) && r["stack"] == OptStr(e.stack)
  {
    match e
    case AppErr(message, kind, status, context, stack) =>
      map["message" := JStr(message), "type" := JStr(TypeValue(kind)), "status" := OptNum(status),
          "context" := OptObj(context), "stack" := OptStr(stack)]
    case PlainErr(name, message, stack) =>
      map["message" := JStr(message), "name" := JStr(name), "stack" := OptStr(stack)]
    case NonError(text) =>
      map["message" := JStr(text)]
  }

  /** `JSON.stringify` leaves out properties whose value is `undefined`. */
  function Stringified(fields: map<string, Json>): (r: map<string, Json>)
    ensures r.Keys == set k | k in fields && fields[k] != Undefined
    ensures forall k :: k in r ==> r[k] == fields[k]
  {
    map k | k in fields && fields[k] != Undefined :: fields[k]
  }

  datatype ApiResponse = ApiResponse(status: int, body: map<string, Json>, contentType: string)

  const UnknownErrorText := "An unknown error occurred"

  /**
   * `handleApiError`: an `AppError` answers with its status when that is
   * truthy and 500 otherwise; every other value answers 500.  The body is
   * JSON, with the `AppError`'s context only when it has one.
   */
  function HandleApiError(e: Thrown): (r: ApiResponse)
    ensures r.contentType == "application/json"
    ensures r.status != 0
    ensures r.status != 500 ==> e.AppErr? && e.status == Some(r.status)
    ensures e.AppErr? && e.status.Some? && e.status.value != 0 ==> r.status == e.status.value
    ensures e.AppErr? ==>
      && r.body.Keys == {"error", "type"} + (if e.context.Some? then {"context"} else {})
      && r.body["error"] == JStr(e.message) && r.body["type"] == JStr(TypeValue(e.kind))
      && (e.context.Some? ==> r.body["context"] == JObj(e.context.value))
    ensures e.PlainErr? ==> r.body == map["error" := JStr(e.message)]
    ensures e.NonError? ==> r.body == map["error" := JStr(UnknownErrorText)]
  {
    match e
    case AppErr(message, kind, status, context, _) =>
      var code := if status.Some? && status.value != 0 then status.value else 500;
      ApiResponse(code,
        Stringified(map["error" := JStr(message), "type" := JStr(TypeValue(kind)), "context" := OptObj(context)]),
        "application/json")
    case PlainErr(_, message, _) =>
      ApiResponse(500, map["error" := JStr(message)], "application/json")
    case NonError(_) =>
      ApiResponse(500, map["error" := JStr(UnknownErrorText)], "application/json")
  }

  const GenericMessage := "An error occurred. Please try again."

  /**
   * `getUserFriendlyErrorMessage`: a fixed sentence for eight kinds; SERVER
   * and UNKNOWN show the error's own message, or a generic sentence when
   * it is empty.  The result is never empty.
   */
  function FriendlyMessage(message: string, kind: ErrorType): (m: string)
    ensures |m| > 0
    ensures (kind == Server || kind == Unknown) ==> m == if message != "" then message else GenericMessage
  {
    if kind == Server || kind == Unknown then
      (if message != "" then message else GenericMessage)
    else
      FixedSentence(kind)
  }

  /** The sentence shown for the eight kinds that do not show the error's own message. */
  function FixedSentence(kind: ErrorType): (m: string)
    requires kind != Server && kind != Unknown
    ensures |m| > 0 && m != GenericMessage
  {
    match kind
    case Authentication => "Authentication error. Please sign in again."
    case Authorization => "You do not have permission to perform this action."
    case Validation => "Please check your input and try again."
    case Network => "Network error. Please check your connection."
    case VideoProcessing => "Video processing error. Please try again."
    case Payment => "Payment error. Please check your payment details."
    case Api => "Service error. Please try again later."
    case Database => "Database error. Please try again later."
  }

  /** Apart from SERVER and UNKNOWN the friendly sentence does not depend on the message. */
  lemma FixedSentences(m1: string, m2: string, kind: ErrorType)
    requires kind != Server && kind != Unknown
    ensures FriendlyMessage(m1, kind) == FriendlyMessage(m2, kind)
    ensures FriendlyMessage(m1, kind) != GenericMessage
  {
  }

  const DefaultFallback := "Something went wrong"

  datatype Notification = Notification(message: string, description: string)

  /**
   * The title and description `showErrorNotification` shows.  An
   * `AppError` shows its friendly sentence, which is never empty, so the
   * fallback is never used for one; its description is a truthy
   * `context.userMessage`, otherwise empty.  Another error shows its
   * message or the fallback; anything else shows the fallback.
   */
  function NotificationFor(e: Thrown, fallback: Option<string>): (n: Notification)
    ensures e.AppErr? ==> n.message == FriendlyMessage(e.message, e.kind) && n.message != ""
    ensures e.AppErr? && e.context.Some? && "userMessage" in e.context.value && e.context.value["userMessage"] != ""
      ==> n.description == e.context.value["userMessage"]
    ensures n.description != "" ==> e.AppErr? && e.context.Some? && "userMessage" in e.context.value
    ensures e.PlainErr? ==> n.message == if e.message != "" then e.message else fallback.GetOr(DefaultFallback)
    ensures e.NonError? ==> n == Notification(fallback.GetOr(DefaultFallback), "")
  {
    var fallbackMessage := fallback.GetOr(DefaultFallback);
    match e
    case AppErr(message, kind, _, context, _) =>
      var friendly := FriendlyMessage(message, kind);
      var description :=
        if context.Some? && "userMessage" in context.value && context.value["userMessage"] != ""
        then context.value["userMessage"] else "";
      Notification(if friendly != "" then friendly else fallbackMessage, description)
    case PlainErr(_, message, _) =>
      Notification(if message != "" then message else fallbackMessage, "")
    case NonError(_) =>
      Notification(fallbackMessage, "")
  }

  /** How a wrapped handler ends: with a response, or by throwing. */
  datatype HandlerOutcome = Returned(response: ApiResponse) | Threw(error: Thrown)

  /** `withErrorHandling`: the handler's response, or the JSON error response for what it threw. */
  function WithErrorHandling(outcome: HandlerOutcome): (r: ApiResponse)
    ensures outcome.Returned? ==> r == outcome.response
    ensures outcome.Threw? ==> r == HandleApiError(outcome.error) && r.contentType == "application/json"
  {
    match outcome
    case Returned(response) => response
    case Threw(error) => HandleApiError(error)
  }
}
