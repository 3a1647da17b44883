/** The error-handling middleware of src/middlewares/errorHandler.js: from the error's fields to
    one status and body. */
module ErrorHandler {
  import opened Wrappers

  /** The fields the handler reads. `None` is a missing field. */
  datatype AppError = AppError(
    statusCode: Option<int>,
    message: Option<string>,
    errorType: Option<string>,
    name: string,
    errors: seq<string>)

  datatype Body =
    | Described(message: string, errorType: string)
    | ValidationFailed(message: string, errors: seq<string>)
    | Message(message: string)

  datatype Reply = Reply(status: int, body: Body)

  /** A status code counts only when truthy: present and not 0. */
  predicate HasStatusCode(e: AppError) {
    e.statusCode.Some? && e.statusCode.value != 0
  }

  /** `s || fallback` for a string field. */
  function OrElse(s: Option<string>, fallback: string): (r: string)
    ensures s.Some? && s.value != "" ==> r == s.value
    ensures s.None? || s.value == "" ==> r == fallback
  {
    if s.Some? && s.value != "" then s.value else fallback
  }

  predicate IsTokenError(name: string) {
    name == "JsonWebTokenError" || name == "TokenExpiredError"
  }

  function Handle(e: AppError): (r: Reply)
    ensures HasStatusCode(e) ==> r.status == e.statusCode.value
    ensures HasStatusCode(e) ==> r.body == Described(OrElse(e.message, "Error desconocido"), OrElse(e.errorType, "general"))
    ensures !HasStatusCode(e) && e.name == "ValidationError" ==> r.status == 400 && r.body.ValidationFailed? && r.body.errors == e.errors
    ensures !HasStatusCode(e) && IsTokenError(e.name) ==> r.status == 401
    ensures !HasStatusCode(e) && e.name != "ValidationError" && !IsTokenError(e.name) ==> r.status == 500
  {
    if HasStatusCode(e) then
      Reply(e.statusCode.value, Described(OrElse(e.message, "Error desconocido"), OrElse(e.errorType, "general")))
    else if e.name == "ValidationError" then
      Reply(400, ValidationFailed("Error de validación de datos", e.errors))
    else if e.name == "JsonWebTokenError" then
      Reply(401, Message("Token inválido o mal formado"))
    else if e.name == "TokenExpiredError" then
      Reply(401, Message("Token expirado"))
    else
      Reply(500, Message("Error en el servidor. Intenta nuevamente más tarde."))
  }

  /** A status code set on the error wins over every name-based case. */
  lemma StatusCodeWins(e: AppError, name: string)
    requires HasStatusCode(e)
    ensures Handle(e.(name := name)) == Handle(e)
  {
  }

  /** Without a status code the answer is one of 400, 401 or 500, and it is 500 exactly when the
      name is none of the three known ones. */
  lemma NameClassification(e: AppError)
    requires !HasStatusCode(e)
    ensures Handle(e).status in {400, 401, 500}
    ensures Handle(e).status == 500 <==> e.name != "ValidationError" && !IsTokenError(e.name)
  {
  }
}
