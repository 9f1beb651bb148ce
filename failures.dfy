/** Error values of the URL-fetch gateway.

    The source throws JavaScript `Error` objects and attaches the HTTP status
    to report as `err.info.status`. Here an error is a value carrying the
    error's name, its message and that status. JavaScript treats a missing
    status and a status of 0 alike (both are falsy), so status 0 stands for
    "no status attached".
 */
module Failures {

  /** An `Error` object as the gateway sees it: `err.name`, `err.message`
      and `err.info.status` (0 when absent). */
  datatype ProxyError = ProxyError(name: string, message: string, status: nat)

  datatype Result<+T> = Ok(value: T) | Err(error: ProxyError)

  /** `Pass` when a check returns normally, `Fail(e)` when it throws `e`. */
  datatype Outcome = Pass | Fail(error: ProxyError)

  /** `new Error(message)` followed by `err.info = { status }`. */
  function Raise(message: string, status: nat): ProxyError
  {
    ProxyError("Error", message, status)
  }

  /** The `TypeError` thrown by the WHATWG `URL` constructor on an input it
      cannot parse; it carries no status. */
  const InvalidUrlError: ProxyError := ProxyError("TypeError", "Invalid URL", 0)

  /** JavaScript `status || fallback` for a status that may be absent. */
  function StatusOr(status: nat, fallback: nat): nat
  {
    if status != 0 then status else fallback
  }

  /** `err.message || String(err)`: `Error.prototype.toString` yields the
      name alone when the message is empty. */
  function Describe(e: ProxyError): string
  {
    if e.message != "" then e.message else e.name
  }
}
