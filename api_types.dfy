/**
 * Values shared by the JSON:API dispatcher (`JsonApi`) and the listing
 * endpoint (`Index`): the PHP values that flow through a request, PHP's
 * truthiness rule, the errors the two classes raise or let through, and
 * the shape of a request and of a route.
 */
module ApiTypes {

  datatype Option<+T> = None | Some(value: T)

  /** A call that either completes or raises. */
  datatype Outcome<+E> = Pass | Fail(error: E)

  datatype Result<+T, +E> = Success(value: T) | Failure(error: E)

  /**
   * A PHP value as it arrives in a parsed body or a query string: a scalar,
   * null, or an array. Arrays are keyed by strings; the integer keys PHP
   * gives to list arrays are written as their decimal strings.
   */
  datatype Json =
    | JNull
    | JBool(b: bool)
    | JNumber(n: int)
    | JString(s: string)
    | JArray(entries: map<string, Json>)

  /** PHP's `!$s` on a string: only "" and "0" are false. */
  predicate FalsyString(s: string) {
    s == "" || s == "0"
  }

  /** PHP's boolean conversion of a value, as `if (!$x)` applies it. */
  predicate Truthy(v: Json) {
    match v
    case JNull => false
    case JBool(b) => b
    case JNumber(n) => n != 0
    case JString(s) => !FalsyString(s)
    case JArray(m) => |m| > 0
  }

  /**
   * The errors raised on the paths modelled here.
   * `parameter` is the source of a JSON:API error: the path of the query
   * parameter it blames, outermost first, empty when the error has no source.
   */
  datatype Error =
    | BadRequest(message: string, parameter: seq<string>)
    | Forbidden
    | RuntimeError(message: string)
      // PHP `Error`: a typed property read before it was ever assigned
    | Uninitialized(property: string)
      // PHP `Error`: `new` on a class name that is not declared
    | ClassNotFound(className: string)
      // PHP `Error`: spreading (`...`) a value that is not an array
    | NotUnpackable(value: Json)
      // PHP `TypeError`: a string parameter given an array
    | NotAString(value: Json)
      // raised by the server library when no collection has the type
    | ResourceNotFound(typeName: string)

  /** Errors that carry a JSON:API source and can have it extended. */
  predicate Sourceable(e: Error) {
    e.BadRequest?
  }

  /** `$e->prependSource(['parameter' => p])` on a sourceable error. */
  function PrependSource(e: Error, p: string): (r: Error)
    requires Sourceable(e)
    ensures r.BadRequest? && r.message == e.message
    ensures |r.parameter| == |e.parameter| + 1 && r.parameter[0] == p && r.parameter[1..] == e.parameter
  {
    e.(parameter := [p] + e.parameter)
  }

  /**
   * The parts of a server request the core reads or rewrites: the method
   * and path, the query parameters in iteration order, and the parsed body
   * (`None` when the request has none).
   */
  datatype Request = Request(
    httpMethod: string,
    path: string,
    query: seq<(string, Json)>,
    body: Option<map<string, Json>>)

  /** What an endpoint's `route()` returns. */
  datatype EndpointRoute = EndpointRoute(name: string, path: string, httpMethod: string)
}
