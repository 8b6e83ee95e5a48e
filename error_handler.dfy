/** The error-handling middleware (backend/middleware/errorHandler.js):
    it classifies an error by its `name` into an HTTP status and a JSON
    body. None of the product handlers passes an error on to it, since
    each catches its own; it is modelled on its own. */
module ErrorHandler {
  import opened Common

  /** One entry of a validation error's `errors` object, in key order. */
  datatype FieldError = FieldError(path: string, message: string)

  /** A thrown error: its `name`, its `message` (only logged) and, for a
      validation error, its per-path errors. */
  datatype AppError = AppError(name: string, message: string, errors: seq<FieldError>)

  /** The response: status, `message`, and the `errors` list that only a
      validation error carries. */
  datatype ErrorReply = ErrorReply(status: int, message: string, errors: Option<seq<string>>)

  /** `Object.values(errors).map(e => e.message)`. */
  function Messages(es: seq<FieldError>): (r: seq<string>)
    ensures |r| == |es|
    ensures forall i :: 0 <= i < |es| ==> r[i] == es[i].message
  {
    if es == [] then [] else [es[0].message] + Messages(es[1..])
  }

  /** The if-chain on `err.name`; every other name falls through to 500. */
  function Classify(e: AppError): (r: ErrorReply)
    ensures r.status == 400 || r.status == 401 || r.status == 500
    ensures r.status == 400 <==> e.name == "ValidationError" || e.name == "CastError"
    ensures r.status == 401 <==> e.name == "JsonWebTokenError" || e.name == "TokenExpiredError"
    ensures r.errors.Some? <==> e.name == "ValidationError"
  {
    if e.name == "ValidationError" then
      ErrorReply(400, "Validation Error", Some(Messages(e.errors)))
    else if e.name == "CastError" then
      ErrorReply(400, "Invalid ID format", None)
    else if e.name == "JsonWebTokenError" then
      ErrorReply(401, "Invalid token", None)
    else if e.name == "TokenExpiredError" then
      ErrorReply(401, "Token expired", None)
    else
      ErrorReply(500, "Server error", None)
  }

  /** A validation error lists one message per field error, in order. */
  lemma ValidationErrorListsFields(e: AppError)
    requires e.name == "ValidationError"
    ensures var r := Classify(e);
      && r.status == 400 && r.message == "Validation Error" && r.errors.Some?
      && |r.errors.value| == |e.errors|
      && forall i :: 0 <= i < |e.errors| ==> r.errors.value[i] == e.errors[i].message
  {
  }

  /** The message of each fixed case, and the fallback for any other name. */
  lemma FixedMessages(e: AppError)
    ensures e.name == "CastError" ==> Classify(e) == ErrorReply(400, "Invalid ID format", None)
    ensures e.name == "JsonWebTokenError" ==> Classify(e) == ErrorReply(401, "Invalid token", None)
    ensures e.name == "TokenExpiredError" ==> Classify(e) == ErrorReply(401, "Token expired", None)
    ensures e.name !in {"ValidationError", "CastError", "JsonWebTokenError", "TokenExpiredError"} ==>
              Classify(e) == ErrorReply(500, "Server error", None)
  {
  }

  /** The reply depends on the field errors only for a validation error,
      and never on the error's own message. */
  lemma OnlyNameMatters(e: AppError, message: string, errors: seq<FieldError>)
    ensures Classify(e.(message := message)) == Classify(e)
    ensures e.name != "ValidationError" ==> Classify(e.(errors := errors)) == Classify(e)
  {
  }
}
