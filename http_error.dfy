/** `HTTPError` (src/http-error.js): the error type every caller-facing
    failure of the server is reported as, its defaults, its text form, and the
    error route that turns any failure into a JSON error response. The module
    also holds `Failure`, the set of things an operation of the server can
    reject with. */
module HttpError {
  import opened Wrappers
  import JsValues
  import Jwt

  /** The reason phrases of HTTP status codes (section 15 of RFC 9110 and
      registered extensions), as Node's `http.STATUS_CODES` lists them;
      undefined for an unlisted status. */
  function ReasonPhrase(status: int): Option<string> {
    match status
    case 100 => Some("Continue")
    case 101 => Some("Switching Protocols")
    case 102 => Some("Processing")
    case 103 => Some("Early Hints")
    case 200 => Some("OK")
    case 201 => Some("Created")
    case 202 => Some("Accepted")
    case 203 => Some("Non-Authoritative Information")
    case 204 => Some("No Content")
    case 205 => Some("Reset Content")
    case 206 => Some("Partial Content")
    case 207 => Some("Multi-Status")
    case 208 => Some("Already Reported")
    case 226 => Some("IM Used")
    case 300 => Some("Multiple Choices")
    case 301 => Some("Moved Permanently")
    case 302 => Some("Found")
    case 303 => Some("See Other")
    case 304 => Some("Not Modified")
    case 305 => Some("Use Proxy")
    case 307 => Some("Temporary Redirect")
    case 308 => Some("Permanent Redirect")
    case 400 => Some("Bad Request")
    case 401 => Some("Unauthorized")
    case 402 => Some("Payment Required")
    case 403 => Some("Forbidden")
    case 404 => Some("Not Found")
    case 405 => Some("Method Not Allowed")
    case 406 => Some("Not Acceptable")
    case 407 => Some("Proxy Authentication Required")
    case 408 => Some("Request Timeout")
    case 409 => Some("Conflict")
    case 410 => Some("Gone")
    case 411 => Some("Length Required")
    case 412 => Some("Precondition Failed")
    case 413 => Some("Payload Too Large")
    case 414 => Some("URI Too Long")
    case 415 => Some("Unsupported Media Type")
    case 416 => Some("Range Not Satisfiable")
    case 417 => Some("Expectation Failed")
    case 418 => Some("I'm a Teapot")
    case 421 => Some("Misdirected Request")
    case 422 => Some("Unprocessable Entity")
    case 423 => Some("Locked")
    case 424 => Some("Failed Dependency")
    case 425 => Some("Too Early")
    case 426 => Some("Upgrade Required")
    case 428 => Some("Precondition Required")
    case 429 => Some("Too Many Requests")
    case 431 => Some("Request Header Fields Too Large")
    case 451 => Some("Unavailable For Legal Reasons")
    case 500 => Some("Internal Server Error")
    case 501 => Some("Not Implemented")
    case 502 => Some("Bad Gateway")
    case 503 => Some("Service Unavailable")
    case 504 => Some("Gateway Timeout")
    case 505 => Some("HTTP Version Not Supported")
    case 506 => Some("Variant Also Negotiates")
    case 507 => Some("Insufficient Storage")
    case 508 => Some("Loop Detected")
    case 509 => Some("Bandwidth Limit Exceeded")
    case 510 => Some("Not Extended")
    case 511 => Some("Network Authentication Required")
    case _ => None
  }

  /** The `name` every HTTPError carries. */
  const Name: string := "HTTPError"

  /** An HTTPError's fields; `message` is undefined when neither the caller
      nor the reason-phrase table gave one. */
  datatype HTTPError = HTTPError(status: int, message: Option<string>, code: string)

  /** A message or code argument counts as given when it is truthy. */
  predicate Given(s: Option<string>) {
    s.Some? && s.value != ""
  }

  /** `new HTTPError(status, message, code)` */
  function NewHTTPError(status: int, message: Option<string>, code: Option<string>): (e: HTTPError)
    ensures e.status == status
    ensures e.message == (if Given(message) then message else ReasonPhrase(status))
    ensures e.code == (if Given(code) then code.value else "EERROR")
  {
    HTTPError(status,
              if Given(message) then message else ReasonPhrase(status),
              if Given(code) then code.value else "EERROR")
  }

  /** `String(undefined)` is "undefined". */
  function MessageText(message: Option<string>): string {
    message.GetOr("undefined")
  }

  /** `err.toString()`: `[HTTPError] <status>: <message>`. */
  function ToString(e: HTTPError): (r: string)
    ensures |r| == 12 + |JsValues.IntToString(e.status)| + 2 + |MessageText(e.message)|
    ensures r[..12] == "[" + Name + "] "
    ensures var digits := JsValues.IntToString(e.status);
      r[12..12 + |digits|] == digits && r[12 + |digits|..12 + |digits| + 2] == ": "
    ensures r[|r| - |MessageText(e.message)|..] == MessageText(e.message)
  {
    "[" + Name + "] " + JsValues.IntToString(e.status) + ": " + MessageText(e.message)
  }

  /** The status of an HTTPError can be read back from its text form. */
  lemma {:induction false} ToStringShowsStatus(e: HTTPError)
    requires e.status >= 0
    ensures var digits := JsValues.IntToString(e.status);
      JsValues.IsDigitText(digits) && JsValues.DecimalValue(ToString(e)[12..12 + |digits|]) == e.status
  {
    JsValues.NatToStringRoundTrip(e.status);
  }

  /** Anything an operation of the server can reject with. */
  datatype Failure =
    | Http(e: HTTPError)              // an HTTPError
    | Verify(v: Jwt.VerifyError)      // an error thrown by jwt.verify, passed on as is
    | Plain(message: string)          // new Error(message)
    | TypeError(message: string)      // a property read on null or undefined
    | Backend(reason: string)         // a session store's client reported an error
    | NoResponse                      // a provider request that got no response at all

  /** The JSON body of an error response. */
  datatype ErrorBody = ErrorBody(error: bool, message: Option<string>, status: int, code: string)

  datatype RouteOutcome = Next | Respond(status: int, body: ErrorBody)

  /** The error route `route(err, req, res, next)`: no error passes control
      on; an HTTPError is answered with its own status and fields; any other
      failure becomes a bare 500 HTTPError, so no internal detail leaks. */
  function Route(err: Option<Failure>): (o: RouteOutcome)
    ensures err.None? <==> o == Next
    ensures o.Respond? ==> o.body.error && o.body.status == o.status
    ensures err.Some? && err.value.Http? ==>
      o == Respond(err.value.e.status, ErrorBody(true, err.value.e.message, err.value.e.status, err.value.e.code))
    ensures err.Some? && !err.value.Http? ==>
      o == Respond(500, ErrorBody(true, Some("Internal Server Error"), 500, "EERROR"))
  {
    match err
    case None => Next
    case Some(f) =>
      var e := if f.Http? then f.e else NewHTTPError(500, None, None);
      Respond(e.status, ErrorBody(true, e.message, e.status, e.code))
  }
}
