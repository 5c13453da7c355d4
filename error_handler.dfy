/**
 * The Express error middleware: an error thrown by a handler (forwarded by
 * `asyncHandler`) becomes one JSON reply. Mongoose validation failures and
 * cast failures get fixed replies, a message mentioning "duplicate" gets
 * another one and takes precedence over both, and any other error keeps its
 * own status code (500 when it has none) and its own message ('Server
 * Error' when it is empty). The stack is included only in development.
 */
module ErrorHandler {
  import opened Common

  /** A thrown error: its class name, message, optional `statusCode` and stack. */
  datatype AppError = AppError(name: string, message: string, statusCode: Option<int>, stack: string)

  /** The reply: HTTP status, `message`, and `stack` when it is sent; `status` is always 'error'. */
  datatype ErrorReply = ErrorReply(status: int, message: string, stack: Option<string>)

  /** `createError`: a fresh error with a message and a status code. */
  function CreateError(message: string, statusCode: int): AppError {
    AppError("Error", message, Some(statusCode), "")
  }

  /**
   * `errorHandler`: the copied error is replaced by each matching rule in
   * turn (validation, cast, duplicate), so the last matching rule decides.
   */
  function Handle(err: AppError, development: bool): (r: ErrorReply)
    ensures r.stack == (if development then Some(err.stack) else None)
    ensures Includes(err.message, "duplicate") ==> r.status == 400 && r.message == "Duplicate field value entered"
    ensures !Includes(err.message, "duplicate") && err.name == "CastError" ==> r.status == 404 && r.message == "Resource not found"
    ensures !Includes(err.message, "duplicate") && err.name == "ValidationError" ==> r.status == 400 && r.message == "Validation Error"
    ensures !Includes(err.message, "duplicate") && err.name != "CastError" && err.name != "ValidationError" ==>
      && r.status == (if err.statusCode.Some? && err.statusCode.value != 0 then err.statusCode.value else 500)
      && r.message == (if err.message != "" then err.message else "Server Error")
  {
    var error := err;
    var error := if err.name == "ValidationError" then CreateError("Validation Error", 400) else error;
    var error := if err.name == "CastError" then CreateError("Resource not found", 404) else error;
    var error := if Includes(err.message, "duplicate") then CreateError("Duplicate field value entered", 400) else error;
    ErrorReply(
      if error.statusCode.Some? && error.statusCode.value != 0 then error.statusCode.value else 500,
      if error.message != "" then error.message else "Server Error",
      if development then Some(err.stack) else None)
  }

  /** Every reply is an error status: 400, 404, the error's own non-zero code, or 500. */
  lemma HandleStatus(err: AppError, development: bool)
    ensures var r := Handle(err, development);
      r.status == 400 || r.status == 404 || r.status == 500 || (err.statusCode.Some? && r.status == err.statusCode.value != 0)
  {
  }

  /** A duplicate-key message overrides the class of the error, whatever it is. */
  lemma DuplicateWins(name: string, pre: string, post: string, code: Option<int>, stack: string, development: bool)
    ensures Handle(AppError(name, pre + "duplicate" + post, code, stack), development).status == 400
    ensures Handle(AppError(name, pre + "duplicate" + post, code, stack), development).message == "Duplicate field value entered"
  {
    IncludesInfix(pre, "duplicate", post);
  }

  /** The reply never carries an empty message. */
  lemma HandleMessageNonEmpty(err: AppError, development: bool)
    ensures Handle(err, development).message != ""
  {
  }
}
