/**
 * The shape of a failed HTTP call as the client sees it: Angular's
 * `HttpErrorResponse` with its status, its parsed JSON body (`error.error`)
 * and its own `message`, and the value the client services rethrow, which is
 * the same error extended with a `userMessage`.
 */
module ClientHttp {
  import opened Common

  /**
   * One entry of a body's `errors` array. The validation middleware's entries
   * carry `msg`, the document controller's carry `message`.
   */
  datatype ErrorItem = ErrorItem(message: Option<string>, msg: Option<string>)

  /** The JSON body of an error reply; `errors` is `None` when absent or not an array. */
  datatype ErrorBody = ErrorBody(message: Option<string>, errors: Option<seq<ErrorItem>>)

  /** An `HttpErrorResponse`; `body` is `None` when the reply had no JSON object. */
  datatype HttpFailure = HttpFailure(status: int, body: Option<ErrorBody>, message: Option<string>)

  /** `{ ...error, userMessage }`: the error as rethrown to the caller. */
  datatype UserError = UserError(error: HttpFailure, userMessage: string)

  /** What an HTTP call delivers: a reply body, or the failure. */
  datatype Outcome<T> = Delivered(reply: T) | Failed(failure: HttpFailure)

  /** `error.error?.message`. */
  function BodyMessage(e: HttpFailure): Option<string> {
    if e.body.Some? then e.body.value.message else None
  }

  /** `error.error?.errors`, when it is an array. */
  function BodyErrors(e: HttpFailure): Option<seq<ErrorItem>> {
    if e.body.Some? then e.body.value.errors else None
  }

  /**
   * `a || b` as one entry of a `map` whose results are joined: an empty
   * first text falls back to the second, and a missing one renders as "".
   */
  function FirstText(a: Option<string>, b: Option<string>): string {
    if Truthy(a) then a.value else if b.Some? then b.value else ""
  }

  /**
   * The texts of an `errors` array, one per entry, in order: `message ||
   * msg` when `messageFirst`, `msg || message` otherwise.
   */
  function ItemTexts(items: seq<ErrorItem>, messageFirst: bool): (texts: seq<string>)
    ensures |texts| == |items|
    ensures forall i :: 0 <= i < |items| ==>
      texts[i] == if messageFirst then FirstText(items[i].message, items[i].msg) else FirstText(items[i].msg, items[i].message)
  {
    if items == [] then []
    else
      [if messageFirst then FirstText(items[0].message, items[0].msg) else FirstText(items[0].msg, items[0].message)]
        + ItemTexts(items[1..], messageFirst)
  }
}
