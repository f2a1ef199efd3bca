/**
 * Requests, responses and network outcomes as the service worker sees them.
 * The network is abstract: every fetch is given its outcome as a parameter.
 */
module Http {

  datatype Header = Header(name: string, value: string)

  /** An outgoing request (`verb` is the HTTP method): `mode` is the Fetch mode ("navigate" for a page load, "cors" for a script fetch). */
  datatype Request = Request(url: string, verb: string, mode: string, headers: seq<Header>, body: string)

  /** A JSON scalar as produced by `JSON.stringify` for the bodies this code builds. */
  datatype Value = Str(s: string) | Num(n: int) | Bool(b: bool)

  /** One member of a JSON object, in the order `JSON.stringify` writes it. */
  datatype Field = Field(key: string, value: Value)

  /** Response bodies: whatever a server sent, or one of the bodies the worker synthesises. */
  datatype Body =
    | Payload(text: string)   // a body received from the network or a cache
    | EmergencyModePage       // the inline "Emergency Mode" HTML document
    | ImagePlaceholder        // the inline 100x100 SVG placeholder
    | Json(fields: seq<Field>)

  datatype Response = Response(status: int, headers: seq<Header>, body: Body) {
    /** The Fetch `ok` flag: a status in the range 200-299. */
    predicate Ok()
    {
      200 <= status <= 299
    }
  }

  /** What one `fetch` does: it resolves with a response (of any status) or it rejects. */
  datatype Fetch = Answered(response: Response) | Throws {
    /** The fetch resolved with an `ok` response. */
    predicate Succeeded()
    {
      Answered? && response.Ok()
    }
  }

  /**
   * A failed request as `storeFailedRequest` records it for later replay:
   * `id` is `Date.now() + Math.random()`, `timestamp` a second `Date.now()`.
   */
  datatype StoredRequest =
    StoredRequest(id: real, url: string, verb: string, headers: seq<Header>, body: string, timestamp: int, kind: string)

  /** What a fetch handler hands to `respondWith`: a response, or the rejection it re-throws. */
  datatype Reply = Respond(response: Response) | Propagate

  /**
   * The Cache API refuses to store a response unless its request is a GET
   * and its status is not 206 (Partial Content).
   */
  predicate CachePutAccepts(req: Request, resp: Response)
  {
    req.verb == "GET" && resp.status != 206
  }

  /** `Cache.addAll` accepts a fetched response only if it is `ok` and not a 206. */
  predicate AddAllAccepts(outcome: Fetch)
  {
    outcome.Succeeded() && outcome.response.status != 206
  }

  /** A plain request for `url`, as built by `fetch(url)` or `cache.addAll([url])`. */
  function Get(url: string): (r: Request)
    ensures r.url == url && r.verb == "GET"
  {
    Request(url, "GET", "cors", [], "")
  }
}
