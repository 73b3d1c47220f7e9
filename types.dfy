/** Values shared by the aggregator client: optional values, results, upstream
    HTTP responses and the exceptions the client raises. */
module BelvoTypes {

  datatype Option<+T> = None | Some(value: T)

  datatype Result<+R, +E> = Success(value: R) | Failure(error: E)

  /** What `r.json()` makes of a response body: the JSON object the caller
      expects (with the keys it reads), some other JSON document, or text
      that is not JSON at all (then `r.json()` raises). */
  datatype Parsed<+T> = Expected(value: T) | OtherJson | NotJson

  /** An upstream HTTP response: its status code, its raw text and its parse. */
  datatype Response<+T> = Response(statusCode: int, text: string, json: Parsed<T>)

  /** The `detail` of an HTTPException: the upstream JSON body, passed on
      verbatim (kept as its text); a bare string message of the client's own;
      or the client's own one-key JSON object `{"detail": message}`. */
  datatype Detail = Document(json: string) | Message(message: string) | DetailObject(detail: string)

  /** The exceptions the client lets escape: an HTTPException with a status
      code and detail, or any other Python exception (a body that is not JSON,
      a missing key), which the web framework turns into a server error. */
  datatype Error = HttpException(statusCode: int, detail: Detail) | Crash(reason: string)

  /** `raise_for_status()` raises for the 4xx and 5xx status codes. */
  predicate IsHttpError(statusCode: int) {
    400 <= statusCode < 600
  }

  /** The detail raised for a failed upstream call: the body when it parses
      as JSON, otherwise the object `{"detail": fallback}`. */
  function ErrorDetail<T>(response: Response<T>, fallback: string): (d: Detail)
    ensures !d.Message?
    ensures d.DetailObject? <==> response.json.NotJson?
    ensures d.Document? ==> d.json == response.text
    ensures d.DetailObject? ==> d.detail == fallback
  {
    if response.json.NotJson? then DetailObject(fallback) else Document(response.text)
  }
}
