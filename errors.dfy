/**
 * `AppError` (src/domain/errors.rs): the application's error taxonomy, its `Display` texts,
 * and the HTTP response each error becomes.
 */
module Errors {
  import opened Wrappers
  import opened Json

  datatype AppError =
    | DatabaseError(detail: string)
    | AIError(detail: string)
    | ConfigError(detail: string)
    | ValidationError(detail: string)
    | ParseError(detail: string)
    | SafetyGuardError

  type AppResult<T> = Result<T, AppError>

  /** The `Display` text that `thiserror` derives from each variant's format string. */
  function Display(e: AppError): string {
    match e
    case DatabaseError(d) => "Database error: " + d
    case AIError(d) => "AI Provider error: " + d
    case ConfigError(d) => "Configuration error: " + d
    case ValidationError(d) => "Validation error: " + d
    case ParseError(d) => "Parsing error: " + d
    case SafetyGuardError => "Admin operation requires force flag"
  }

  const BadRequest := 400
  const Forbidden := 403
  const InternalServerError := 500
  const BadGateway := 502

  datatype ErrorResponse = ErrorResponse(status: nat, body: Json)

  /** `IntoResponse for AppError`: the status code and a JSON body `{"error": message}`.
      Client-side errors (validation, the safety guard) and configuration errors show their
      own text; parse, AI and database errors show a fixed text in place of their detail. */
  function IntoResponse(e: AppError): (r: ErrorResponse)
    ensures r.status == BadRequest <==> e.ValidationError?
    ensures r.status == Forbidden <==> e.SafetyGuardError?
    ensures r.status == BadGateway <==> e.AIError?
    ensures r.status == InternalServerError <==> (e.ConfigError? || e.ParseError? || e.DatabaseError?)
    ensures r.body.JObject? && |r.body.fields| == 1 && r.body.fields[0].key == "error"
    ensures r.body.fields[0].value.JString?
    ensures (e.ValidationError? || e.SafetyGuardError? || e.ConfigError?) ==>
              r.body.fields[0].value.s == Display(e)
  {
    var (status, message) :=
      match e
      case ValidationError(_) => (BadRequest, Display(e))
      case SafetyGuardError => (Forbidden, Display(e))
      case ConfigError(_) => (InternalServerError, Display(e))
      case ParseError(_) => (InternalServerError, "Error procesando datos")
      case AIError(_) => (BadGateway, "Error de comunicación con IA")
      case DatabaseError(_) => (InternalServerError, "Internal Server Error");
    ErrorResponse(status, JObject([Member("error", JString(message))]))
  }

  /** The message a client sees. */
  function ResponseMessage(e: AppError): string {
    IntoResponse(e).body.fields[0].value.s
  }

  /** Parse, AI and database errors never reveal their detail to the client: two such errors
      of the same kind give the same response whatever their details. */
  lemma InternalDetailNotLeaked(a: string, b: string)
    ensures IntoResponse(ParseError(a)) == IntoResponse(ParseError(b))
    ensures IntoResponse(AIError(a)) == IntoResponse(AIError(b))
    ensures IntoResponse(DatabaseError(a)) == IntoResponse(DatabaseError(b))
    ensures ResponseMessage(ParseError(a)) == "Error procesando datos"
    ensures ResponseMessage(AIError(a)) == "Error de comunicación con IA"
    ensures ResponseMessage(DatabaseError(a)) == "Internal Server Error"
  {
  }

  /** Client-facing errors show their detail: the validation message can be read back out of
      the response. */
  lemma ValidationDetailShown(d: string)
    ensures ResponseMessage(ValidationError(d)) == "Validation error: " + d
    ensures ResponseMessage(ValidationError(d))[|"Validation error: "|..] == d
  {
  }
}
