/**
 * The error payload shared by every controller (`render_error`) and the two
 * exception handlers registered with `rescue_from`.
 */
module ApplicationController {
  import opened Text
  import opened Json

  /** Rails `present?`: not nil, not false, not a blank string, not an empty collection. */
  predicate Present(j: Json) {
    match j
    case Null => false
    case Bool(b) => b
    case Str(s) => !IsBlank(s)
    case Arr(items) => items != []
    case Obj(fields) => fields != map[]
    case _ => true
  }

  /**
   * `render_error(message, details:, status:)`: `error` always, `details`
   * only when present, status 400 unless given.
   */
  function RenderError(message: string, details: Json := Null, status: int := BAD_REQUEST): (r: Rendered)
    ensures r.status == status
    ensures r.body.Obj? && r.body.fields.Keys <= {"error", "details"}
    ensures Field(r.body, "error") == Str(message)
    ensures HasField(r.body, "details") <==> Present(details)
    ensures HasField(r.body, "details") ==> Field(r.body, "details") == details
  {
    var base := map["error" := Str(message)];
    Rendered(status, Obj(if Present(details) then base["details" := details] else base))
  }

  const NOT_FOUND_MESSAGE := "리소스를 찾을 수 없습니다."
  const BAD_PARAMS_MESSAGE := "요청 파라미터가 올바르지 않습니다."

  /** `rescue_from ActiveRecord::RecordNotFound`: 404 with the exception message as details. */
  function RenderNotFound(exceptionMessage: string): (r: Rendered)
    ensures r.status == NOT_FOUND
    ensures Field(r.body, "error") == Str(NOT_FOUND_MESSAGE)
    ensures !IsBlank(exceptionMessage) ==> Field(r.body, "details") == Str(exceptionMessage)
  {
    RenderError(NOT_FOUND_MESSAGE, Str(exceptionMessage), NOT_FOUND)
  }

  /** `rescue_from ActionController::ParameterMissing`: 422 with the exception message as details. */
  function RenderUnprocessable(exceptionMessage: string): (r: Rendered)
    ensures r.status == UNPROCESSABLE_ENTITY
    ensures Field(r.body, "error") == Str(BAD_PARAMS_MESSAGE)
    ensures !IsBlank(exceptionMessage) ==> Field(r.body, "details") == Str(exceptionMessage)
  {
    RenderError(BAD_PARAMS_MESSAGE, Str(exceptionMessage), UNPROCESSABLE_ENTITY)
  }

  /** The message Rails 8 puts in `ParameterMissing` for `params.require(key)`. */
  function ParameterMissingMessage(key: string): string {
    "param is missing or the value is empty or invalid: " + key
  }

  /** With no details given, the payload is exactly `{error}` with status 400. */
  lemma RenderErrorDefaults(message: string)
    ensures RenderError(message) == Rendered(BAD_REQUEST, Obj(map["error" := Str(message)]))
  {
  }
}
