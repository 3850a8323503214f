/**
 * The request error type (packages/request/src/exception.ts): an `Error`
 * carrying an HTTP-like status, which is either a number or a string.
 */
module Exceptions {
  import opened Wrappers

  datatype Status = Code(code: int) | Text(text: string)

  /** An `Exception`; its creation timestamp is not modelled. */
  datatype Exception = Exception(status: Status, message: string)

  /** `new Exception(status, msg)`: an absent message becomes the empty string, as `Error` makes it. */
  function NewException(status: Status, msg: Option<string>): (e: Exception)
    ensures e.status == status
    ensures msg.Some? ==> e.message == msg.value
    ensures msg.None? ==> e.message == ""
  {
    Exception(status, msg.GetOr(""))
  }

  /** Anything a promise can reject with: an `Exception`, or a foreign error with optional `code`, `status` and `message`. */
  datatype Thrown = Raised(exception: Exception) | Foreign(code: Option<Status>, status: Option<Status>, message: Option<string>)
}
