/** The error classifier: the two classified failure kinds of the gateway, their
    HTTP status, and the JSON error body they render to. */
module ResponseErrors {
  import opened Chain

  newtype u16 = x: int | 0 <= x < 0x1_0000

  /** `CustomResponseErrors`. */
  datatype ResponseError =
    | InvalidToken(cause: ContractError)
    | ConnectionProblems(detail: string)

  /** `ErrorResponse`, the JSON body of a failed request. */
  datatype ErrorResponse = ErrorResponse(code: u16, error: string, message: string)

  /** What `error_response` builds: a response whose status line and body are set. */
  datatype HttpResponse = HttpResponse(status: u16, body: ErrorResponse)

  predicate IsClientError(code: u16) { 400 <= code < 500 }

  predicate IsServerError(code: u16) { 500 <= code < 600 }

  /** `name()`: the text of the wrapped error. */
  function Name(e: ResponseError): (s: string)
    ensures e == InvalidToken(ContractError(s)) || e == ConnectionProblems(s)
  {
    match e
    case InvalidToken(c) => c.description
    case ConnectionProblems(d) => d
  }

  /** `status_code()`: a missing token is the client's problem, a chain that cannot
      be reached is the server's. */
  function StatusCode(e: ResponseError): (code: u16)
    ensures IsClientError(code) <==> e.InvalidToken?
    ensures IsServerError(code) <==> e.ConnectionProblems?
    ensures e.InvalidToken? ==> code == 404
    ensures e.ConnectionProblems? ==> code == 500
  {
    match e
    case InvalidToken(_) => 404
    case ConnectionProblems(_) => 500
  }

  /** `to_string()` of the error: its `Display` writes the status code, which the HTTP
      library renders as the number followed by its canonical reason phrase. */
  function Message(e: ResponseError): (s: string)
    ensures StatusCode(e) == 404 ==> s == "404 Not Found"
    ensures StatusCode(e) == 500 ==> s == "500 Internal Server Error"
  {
    match e
    case InvalidToken(_) => "404 Not Found"
    case ConnectionProblems(_) => "500 Internal Server Error"
  }

  /** `error_response()`: the status of the response and the `code` of its body are
      the classified status; `error` carries the wrapped error's text. */
  function ToHttpResponse(e: ResponseError): (r: HttpResponse)
    ensures r.status == r.body.code == StatusCode(e)
    ensures r.body.error == Name(e)
    ensures r.body.message == Message(e)
    ensures r.status == 404 <==> e.InvalidToken?
    ensures r.status == 500 <==> e.ConnectionProblems?
  {
    var body := ErrorResponse(StatusCode(e), Name(e), Message(e));
    HttpResponse(body.code, body)
  }

  /** Reads the classified error back from a rendered body. */
  function FromErrorResponse(r: ErrorResponse): ResponseError
  {
    if r.code == 404 then InvalidToken(ContractError(r.error)) else ConnectionProblems(r.error)
  }

  /** The rendered body loses nothing the model keeps of the error: its kind and the
      wrapped error's text can be read back from it. */
  lemma ErrorResponseRoundTrip(e: ResponseError)
    ensures FromErrorResponse(ToHttpResponse(e).body) == e
  {
  }

  /** The `message` field depends on the status code alone. */
  lemma MessageDependsOnlyOnStatus(e1: ResponseError, e2: ResponseError)
    requires StatusCode(e1) == StatusCode(e2)
    ensures ToHttpResponse(e1).body.message == ToHttpResponse(e2).body.message
  {
  }
}
