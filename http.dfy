/**
 * What the two Supabase edge functions read from a request and write into a
 * response. A request body is a JSON object whose members are seen one at a
 * time; a body that does not parse (or does not destructure) makes
 * `req.json()` throw.
 */
module Http {
  import opened Wrappers

  /** One member of the request's JSON object, as destructuring sees it. */
  datatype Field = Absent | Null | Bool(b: bool) | Str(s: string)

  /** JavaScript truthiness of a member. */
  predicate Truthy(f: Field) {
    match f
    case Absent => false
    case Null => false
    case Bool(b) => b
    case Str(s) => s != ""
  }

  /** `${f}` inside a template string. */
  function Interpolate(f: Field): string {
    match f
    case Absent => "undefined"
    case Null => "null"
    case Bool(b) => if b then "true" else "false"
    case Str(s) => s
  }

  /** A text column of a database row: SQL `NULL` arrives as `null`. */
  function Column(c: Option<string>): Field {
    if c.Some? then Str(c.value) else Null
  }

  /** Destructuring `{ x = d }`: the default replaces an absent member only, never `null`. */
  function WithDefault(f: Field, d: string): Field {
    if f.Absent? then Str(d) else f
  }

  /** The JSON bodies the two functions send back. */
  datatype Body =
    | ErrorBody(error: string)
    | ContentBody(content: string)
    | SentBody(success: bool, message: string, status: string)

  /** Status and JSON body (`None` is the empty body of the preflight answer); the CORS headers are the same on every response. */
  datatype Response = Response(status: int, body: Option<Body>)

  /** The answer to an `OPTIONS` preflight request. */
  const Preflight: Response := Response(204, None)

  /** The answer of the `catch` block of both functions. */
  const ServerError: Response := Response(500, Some(ErrorBody("Internal server error")))
}
