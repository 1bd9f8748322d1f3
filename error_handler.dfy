/** The error middleware (Backend/src/middlewares/errorHandler.js): every error a handler throws
    reaches `errorHandler`, which picks the status from the error's fields in a fixed order. */
module ErrorHandler {
  import opened Common

  /** The fields of a thrown JavaScript error that the middleware reads. `fieldMessages` stands
      for `Object.values(err.errors).map(e => e.message)` of a Mongoose ValidationError. */
  datatype Error = Error(
    name: string,
    message: string,
    code: Option<int>,
    keyPattern: seq<string>,
    status: Option<int>,
    fieldMessages: seq<string>)

  /** What Mongoose throws when a document fails its schema validators (one entry per failing path). */
  function ValidationError(paths: seq<string>): Error {
    Error("ValidationError", "Validation failed", None, [], None, paths)
  }

  /** What MongoDB throws when a write breaks a unique index on `field`. */
  function DuplicateKey(field: string): Error {
    Error("MongoServerError", "E11000 duplicate key error", Some(11000), [field], None, [])
  }

  /** `new Error(message)`, as a pre-save hook passes it to `next`. */
  function PlainError(message: string): Error {
    Error("Error", message, None, [], None, [])
  }

  /** The TypeError of calling something that is undefined (`sku.toUpperCase()` with no sku,
      `category.canDelete()`, a property of `null`). */
  function TypeError(message: string): Error {
    Error("TypeError", message, None, [], None, [])
  }

  /** What Mongoose throws for an id that does not cast to an ObjectId. */
  function CastError(): Error {
    Error("CastError", "Cast to ObjectId failed", None, [], None, [])
  }

  datatype ErrorResponse = ErrorResponse(status: int, message: string, errors: seq<string>)

  const DEFAULT_MESSAGE: string := "Error interno del servidor"

  /** `errorHandler(err, req, res, next)`. Every answer carries a message; only a validation
      error lists per-path messages; an error with no status of its own is answered with 400,
      401 or 500. */
  function HandleError(err: Error): (r: ErrorResponse)
    ensures r.message != ""
    ensures r.errors != [] ==> err.name == "ValidationError"
    ensures err.status.None? ==> r.status in {BAD_REQUEST, UNAUTHORIZED, SERVER_ERROR}
  {
    if err.name == "ValidationError" then
      ErrorResponse(BAD_REQUEST, "Error de validación", err.fieldMessages)
    else if err.code == Some(11000) then
      var field := if |err.keyPattern| > 0 then err.keyPattern[0] else "undefined";
      ErrorResponse(BAD_REQUEST, field + " Error de duplicación", [])
    else if err.name == "castError" then
      ErrorResponse(BAD_REQUEST, "ID de objeto no válido", [])
    else if err.name == "JsonWebTokenError" then
      ErrorResponse(UNAUTHORIZED, "Token inválido", [])
    else if err.name == "TokenExpiredError" then
      ErrorResponse(UNAUTHORIZED, "Token expirado", [])
    else
      ErrorResponse(
        if err.status.Some? && err.status.value != 0 then err.status.value else SERVER_ERROR,
        if err.message != "" then err.message else DEFAULT_MESSAGE,
        [])
  }

  /** The status the middleware answers for an error. It is never 0, and a 404 comes only
      from an error that carries 404 itself. */
  function StatusOf(err: Error): (s: int)
    ensures s != 0
    ensures s == NOT_FOUND ==> err.status == Some(NOT_FOUND)
  {
    HandleError(err).status
  }

  /** The order of the tests: a validation error is recognised first, whatever its other
      fields say, and carries the per-path messages; a duplicate key comes next and names
      the first key of the index; then the exact names `castError`, `JsonWebTokenError`
      and `TokenExpiredError`; only then `err.status`, falling back to 500. */
  lemma HandleErrorOrder(err: Error)
    ensures err.name == "ValidationError" ==>
      HandleError(err) == ErrorResponse(400, "Error de validación", err.fieldMessages)
    ensures err.name != "ValidationError" && err.code == Some(11000) && |err.keyPattern| > 0 ==>
      HandleError(err).status == 400 && HandleError(err).message == err.keyPattern[0] + " Error de duplicación"
    ensures err.name != "ValidationError" && err.code != Some(11000) ==>
      (HandleError(err).status == 401 <==>
        err.name == "JsonWebTokenError" || err.name == "TokenExpiredError"
        || (err.name != "castError" && err.status == Some(401)))
    ensures HandleError(err).errors != [] ==> err.name == "ValidationError"
  {
  }

  /** The status is 400 exactly for a validation error, a duplicate key, an error named
      `castError`, or any other error (not a token error) that carries status 400 itself. */
  lemma BadRequestExactly(err: Error)
    ensures StatusOf(err) == 400 <==>
      err.name == "ValidationError" || err.code == Some(11000) || err.name == "castError"
      || (err.name != "JsonWebTokenError" && err.name != "TokenExpiredError" && err.status == Some(400))
  {
  }

  /** An error without a status of its own that is none of the recognised kinds becomes 500.
      In particular Mongoose's own CastError (named `CastError`, not `castError`) and a
      TypeError both answer 500. */
  lemma UnclassifiedIsServerError(err: Error)
    requires err.name !in {"ValidationError", "castError", "JsonWebTokenError", "TokenExpiredError"}
    requires err.code != Some(11000)
    requires err.status.None?
    ensures StatusOf(err) == 500
    ensures StatusOf(CastError()) == 500
    ensures StatusOf(TypeError(err.message)) == 500
  {
  }

  /** The `notFound` middleware: it sets 404 on the response and passes on an Error that
      carries no status. */
  function NotFound(url: string): (e: Error)
    ensures e.status.None? && e.code.None? && e.name == "Error"
  {
    PlainError("Ruta no encontrada - " + url)
  }

  /** Because `errorHandler` re-sets the status from `err.status || 500`, an unknown route is
      answered with 500, not the 404 `notFound` set, and the message names the route. */
  lemma UnknownRouteAnswers500(url: string)
    ensures HandleError(NotFound(url)).status == 500
    ensures HandleError(NotFound(url)).message == "Ruta no encontrada - " + url
  {
  }
}
