/**
 * The HTTP boundary of a route handler, as values: the response it returns,
 * the outcome of reading a JSON body, and the outcome of an outbound `fetch`.
 */
module Http {
  import opened Js

  /** A response: status code, JSON body (`None` for `new NextResponse(null, …)`)
      and the headers the handler sets itself. */
  datatype Response = Response(status: int, body: Option<Value>, headers: map<string, string>)

  /** The outcome of `await x.json()`: a parse failure rejects, anything else is a value. */
  datatype Parsed = Unreadable | Parsed(value: Value)

  /** The outcome of an outbound `fetch`: it threw (network error, timeout,
      abort), or a response came back with its `ok` flag and its body as
      `.json()` would read it. */
  datatype Fetched = Threw | Answered(ok: bool, body: Parsed)

  /** `NextResponse.json(body, { status, headers })`. */
  function Json(body: Value, status: int, headers: map<string, string>): Response
  {
    Response(status, Some(body), headers)
  }

  /** Whether a fetch outcome is a response whose `ok` flag is set. */
  predicate Succeeded(f: Fetched)
  {
    f.Answered? && f.ok
  }
}
