/**
 * The service worker's fetch handling (public/sw.js, lines 69-315): an ordered
 * URL classifier and one caching strategy per request class.
 */
module Router {
  import opened Wrappers
  import opened Text
  import opened Http
  import opened Manifest
  import opened Caches

  datatype RequestClass = Emergency | SafetyApi | StaticAsset | Generic

  predicate IsEmergencyRequest(url: string)
  {
    Contains(url, "/emergency") || Contains(url, "/safety-alert") || Contains(url, "/panic")
  }

  predicate IsSafetyApiRequest(url: string)
  {
    Contains(url, "/api/safety") || Contains(url, "/api/emergency") || Contains(url, "/api/alerts")
  }

  predicate IsStaticAsset(url: string)
  {
    Contains(url, "/css/") || Contains(url, "/js/") || Contains(url, "/images/") || Contains(url, "/icons/") ||
    Contains(url, ".png") || Contains(url, ".jpg") || Contains(url, ".css") || Contains(url, ".js")
  }

  /** The URLs for which a failed static fetch is answered with the SVG placeholder. */
  predicate IsImage(url: string)
  {
    Contains(url, ".png") || Contains(url, ".jpg")
  }

  /**
   * The `fetch` listener's dispatch: the first rule that matches wins, in the
   * order Emergency, SafetyApi, StaticAsset, Generic.
   */
  function Classify(url: string): (c: RequestClass)
    ensures c == Emergency <==> IsEmergencyRequest(url)
    ensures c == SafetyApi <==> !IsEmergencyRequest(url) && IsSafetyApiRequest(url)
    ensures c == StaticAsset <==> !IsEmergencyRequest(url) && !IsSafetyApiRequest(url) && IsStaticAsset(url)
    ensures c == Generic <==> !IsEmergencyRequest(url) && !IsSafetyApiRequest(url) && !IsStaticAsset(url)
  {
    if IsEmergencyRequest(url) then Emergency
    else if IsSafetyApiRequest(url) then SafetyApi
    else if IsStaticAsset(url) then StaticAsset
    else Generic
  }

  /** Every `/api/emergency` URL also contains `/emergency`, so it is routed as Emergency. */
  lemma ApiEmergencyIsEmergency(url: string)
    requires Contains(url, "/api/emergency")
    ensures Classify(url) == Emergency
  {
    assert "/emergency" <= "/api/emergency"[4..];
    ContainsWithin(url, "/api/emergency", "/emergency", 4);
  }

  /** The `/api/emergency` literal of the SafetyApi rule never decides: SafetyApi URLs are `/api/safety` or `/api/alerts` ones. */
  lemma SafetyApiLiteralsThatMatter(url: string)
    ensures Classify(url) == SafetyApi ==> Contains(url, "/api/safety") || Contains(url, "/api/alerts")
  {
    if Contains(url, "/api/emergency") {
      ApiEmergencyIsEmergency(url);
    }
  }

  /** The install-time icon `/icons/safety-alert-192.png` is routed as Emergency (network first), not as a static asset. */
  lemma SafetyAlertIconIsEmergency(url: string)
    requires Contains(url, "/icons/safety-alert-192.png")
    ensures Classify(url) == Emergency
  {
    assert "/safety-alert" <= "/icons/safety-alert-192.png"[6..];
    ContainsWithin(url, "/icons/safety-alert-192.png", "/safety-alert", 6);
  }

  /** A `.json` URL matches the `.js` rule, so it is never routed as Generic (e.g. `/manifest.json`). */
  lemma JsonIsNeverGeneric(url: string)
    requires Contains(url, ".json")
    ensures IsStaticAsset(url) && Classify(url) != Generic
  {
    assert ".js" <= ".json"[0..];
    ContainsWithin(url, ".json", ".js", 0);
  }

  /**
   * The dispatch with the Safety API rule tried before the Emergency rule, so
   * that its `/api/emergency` literal takes effect.
   */
  function ClassifyApiFirst(url: string): (c: RequestClass)
    ensures c == SafetyApi <==> IsSafetyApiRequest(url)
    ensures c == Emergency <==> !IsSafetyApiRequest(url) && IsEmergencyRequest(url)
    ensures !IsSafetyApiRequest(url) ==> c == Classify(url)
  {
    if IsSafetyApiRequest(url) then SafetyApi
    else if IsEmergencyRequest(url) then Emergency
    else if IsStaticAsset(url) then StaticAsset
    else Generic
  }

  /**
   * With the Safety API rule first (and the request cloned before fetching), an
   * `/api/emergency` POST that cannot reach the network is acknowledged with 202
   * and handed to `storeFailedRequest`.
   */
  lemma ApiFirstQueuesOfflineEmergencyPosts(req: Request, now: int, id: real, storedAt: int)
    requires Contains(req.url, "/api/emergency") && req.verb == "POST"
    ensures ClassifyApiFirst(req.url) == SafetyApi
    ensures HandleSafetyApiRequestCloned(req, Throws, now, id, storedAt) ==
      SafetyApiResult(Respond(OfflineAck(now)), Some(CaptureFailed(req, id, storedAt)))
  {
  }

  /** The "Emergency Mode" page: a `new Response` with the default status 200. */
  const EMERGENCY_PAGE: Response := Response(200, [Header("Content-Type", "text/html")], EmergencyModePage)

  /** The placeholder for an image that could not be fetched. */
  const IMAGE_PLACEHOLDER: Response := Response(200, [Header("Content-Type", "image/svg+xml")], ImagePlaceholder)

  /** The 202 answer to a Safety API request that could not reach the network. */
  function OfflineAck(now: int): (r: Response)
    ensures r.status == 202 && r.headers == [Header("Content-Type", "application/json")]
    ensures r.body.Json? && |r.body.fields| == 3
    ensures r.body.fields[0] == Field("error", Str("offline"))
    ensures r.body.fields[2] == Field("timestamp", Num(now))
  {
    Response(202, [Header("Content-Type", "application/json")],
             Json([Field("error", Str("offline")),
                   Field("message", Str("Request stored for sync when online")),
                   Field("timestamp", Num(now))]))
  }

  /** What `storeFailedRequest` records for a request (it only logs the record; nothing is persisted). */
  function CaptureFailed(req: Request, id: real, storedAt: int): (s: StoredRequest)
    ensures s.url == req.url && s.verb == req.verb && s.headers == req.headers && s.body == req.body
    ensures s.id == id && s.timestamp == storedAt && s.kind == "safety"
  {
    StoredRequest(id, req.url, req.verb, req.headers, req.body, storedAt, "safety")
  }

  datatype SafetyApiResult = SafetyApiResult(reply: Reply, queued: Option<StoredRequest>)

  /**
   * `fetch(request)` takes over the body of a request that has one, so reading
   * `request.text()` afterwards rejects. An empty `body` stands for no body.
   */
  predicate BodyConsumedByFetch(req: Request)
  {
    req.body != ""
  }

  /**
   * `handleSafetyAPIRequest`: network only. It reads and writes no cache, so it
   * takes none. `queued` is the record handed to `storeFailedRequest`. A POST with
   * a body that fails offline makes `storeFailedRequest` reject on the consumed
   * body, so the handler rejects as well instead of answering 202.
   */
  function HandleSafetyApiRequest(req: Request, net: Fetch, now: int, id: real, storedAt: int): (r: SafetyApiResult)
    ensures net.Answered? ==> r == SafetyApiResult(Respond(net.response), None)
    ensures net.Throws? && req.verb == "POST" && BodyConsumedByFetch(req) ==> r == SafetyApiResult(Propagate, None)
    ensures net.Throws? && !(req.verb == "POST" && BodyConsumedByFetch(req)) ==> r.reply == Respond(OfflineAck(now))
    ensures r.queued.Some? <==> net.Throws? && req.verb == "POST" && !BodyConsumedByFetch(req)
    ensures r.queued.Some? ==> r.queued.value == CaptureFailed(req, id, storedAt)
  {
    match net
    case Answered(resp) => SafetyApiResult(Respond(resp), None)
    case Throws =>
      if req.verb == "POST" && BodyConsumedByFetch(req) then SafetyApiResult(Propagate, None)
      else SafetyApiResult(Respond(OfflineAck(now)),
                           if req.verb == "POST" then Some(CaptureFailed(req, id, storedAt)) else None)
  }

  /**
   * The handler with the request cloned before it is fetched, so the failed
   * request can still be read and stored: every offline request gets the 202
   * acknowledgement and every offline POST is captured with its own body.
   */
  function HandleSafetyApiRequestCloned(req: Request, net: Fetch, now: int, id: real, storedAt: int): (r: SafetyApiResult)
    ensures net.Answered? ==> r == SafetyApiResult(Respond(net.response), None)
    ensures net.Throws? ==> r.reply == Respond(OfflineAck(now))
    ensures r.queued.Some? <==> net.Throws? && req.verb == "POST"
    ensures r.queued.Some? ==> r.queued.value == CaptureFailed(req, id, storedAt) && r.queued.value.body == req.body
  {
    match net
    case Answered(resp) => SafetyApiResult(Respond(resp), None)
    case Throws =>
      SafetyApiResult(Respond(OfflineAck(now)),
                      if req.verb == "POST" then Some(CaptureFailed(req, id, storedAt)) else None)
  }

  /**
   * As written, an offline POST with a body is neither acknowledged nor stored;
   * cloned first, the same request is acknowledged with 202 and captured.
   */
  lemma OfflinePostWithBodyIsLost(now: int, id: real, storedAt: int)
    ensures HandleSafetyApiRequest(Request("/api/safety/location", "POST", "cors", [], "{}"), Throws, now, id, storedAt)
            == SafetyApiResult(Propagate, None)
    ensures HandleSafetyApiRequestCloned(Request("/api/safety/location", "POST", "cors", [], "{}"), Throws, now, id, storedAt).reply
            == Respond(OfflineAck(now))
  {
  }

  /** The two handlers differ only on offline POSTs that carry a body. */
  lemma ClonedAgreesElsewhere(req: Request, net: Fetch, now: int, id: real, storedAt: int)
    requires !(net.Throws? && req.verb == "POST" && BodyConsumedByFetch(req))
    ensures HandleSafetyApiRequest(req, net, now, id, storedAt) == HandleSafetyApiRequestCloned(req, net, now, id, storedAt)
  {
  }

  /** `handleEmergencyRequest`: network first, an `ok` answer copied into the emergency cache, cache or placeholder when offline. */
  method HandleEmergencyRequest(cs: CacheStorage, req: Request, net: Fetch) returns (reply: Reply)
    requires cs.Valid()
    modifies cs
    ensures cs.Valid()
    ensures net.Answered? ==> reply == Respond(net.response)
    ensures net.Succeeded() ==>
      cs.names == WithCache(old(cs.names), EMERGENCY_CACHE) &&
      cs.stores == OpenAndPut(old(cs.stores), EMERGENCY_CACHE, req, net.response)
    ensures !net.Succeeded() ==> cs.names == old(cs.names) && cs.stores == old(cs.stores)
    ensures net.Throws? ==> reply == Respond(old(cs.Match(req)).GetOr(EMERGENCY_PAGE))
  {
    match net {
      case Answered(resp) =>
        if resp.Ok() {
          cs.Open(EMERGENCY_CACHE);
          cs.Put(EMERGENCY_CACHE, req, resp);
        }
        reply := Respond(resp);
      case Throws =>
        var cached := cs.Match(req);
        if cached.Some? {
          reply := Respond(cached.value);
        } else {
          reply := Respond(EMERGENCY_PAGE);
        }
    }
  }

  /** `handleStaticAsset`: cache first; on a miss the network, an `ok` answer copied into the standard cache. */
  method HandleStaticAsset(cs: CacheStorage, req: Request, net: Fetch) returns (reply: Reply, fetched: bool)
    requires cs.Valid()
    modifies cs
    ensures cs.Valid()
    ensures fetched <==> old(cs.Match(req)).None?
    ensures !fetched ==> reply == Respond(old(cs.Match(req)).value)
    ensures fetched && net.Answered? ==> reply == Respond(net.response)
    ensures fetched && net.Succeeded() ==>
      cs.names == WithCache(old(cs.names), CACHE_NAME) &&
      cs.stores == OpenAndPut(old(cs.stores), CACHE_NAME, req, net.response)
    ensures !(fetched && net.Succeeded()) ==> cs.names == old(cs.names) && cs.stores == old(cs.stores)
    ensures fetched && net.Throws? ==> reply == if IsImage(req.url) then Respond(IMAGE_PLACEHOLDER) else Propagate
  {
    var cached := cs.Match(req);
    if cached.Some? {
      return Respond(cached.value), false;
    }
    fetched := true;
    match net {
      case Answered(resp) =>
        if resp.Ok() {
          cs.Open(CACHE_NAME);
          cs.Put(CACHE_NAME, req, resp);
        }
        reply := Respond(resp);
      case Throws =>
        if IsImage(req.url) {
          reply := Respond(IMAGE_PLACEHOLDER);
        } else {
          reply := Propagate;
        }
    }
  }

  /**
   * `handleGenericRequest`: network first, `ok` GET answers copied into the standard
   * cache; offline, the cached copy, then for a navigation the cached offline page.
   */
  method HandleGenericRequest(cs: CacheStorage, req: Request, net: Fetch, origin: string) returns (reply: Reply)
    requires cs.Valid()
    modifies cs
    ensures cs.Valid()
    ensures net.Answered? ==> reply == Respond(net.response)
    ensures net.Succeeded() && req.verb == "GET" ==>
      cs.names == WithCache(old(cs.names), CACHE_NAME) &&
      cs.stores == OpenAndPut(old(cs.stores), CACHE_NAME, req, net.response)
    ensures !(net.Succeeded() && req.verb == "GET") ==> cs.names == old(cs.names) && cs.stores == old(cs.stores)
    ensures net.Throws? && old(cs.Match(req)).Some? ==> reply == Respond(old(cs.Match(req)).value)
    ensures net.Throws? && old(cs.Match(req)).None? ==>
      reply == if req.mode == "navigate" && old(cs.Match(Get(Resolve(origin, OFFLINE_PAGE)))).Some?
               then Respond(old(cs.Match(Get(Resolve(origin, OFFLINE_PAGE)))).value)
               else Propagate
  {
    match net {
      case Answered(resp) =>
        if resp.Ok() && req.verb == "GET" {
          cs.Open(CACHE_NAME);
          cs.Put(CACHE_NAME, req, resp);
        }
        reply := Respond(resp);
      case Throws =>
        var cached := cs.Match(req);
        if cached.Some? {
          return Respond(cached.value);
        }
        if req.mode == "navigate" {
          var offlinePage := cs.Match(Get(Resolve(origin, OFFLINE_PAGE)));
          if offlinePage.Some? {
            return Respond(offlinePage.value);
          }
        }
        reply := Propagate;
    }
  }

  /**
   * The `fetch` listener: classify, then run that class's strategy. `net` is what
   * fetching `req` does; `now`, `id` and `storedAt` stand for the clock readings
   * of the Safety API path. `queued` is what that path hands to `storeFailedRequest`.
   */
  method HandleFetch(cs: CacheStorage, req: Request, net: Fetch, origin: string, now: int, id: real, storedAt: int)
    returns (reply: Reply, queued: Option<StoredRequest>)
    requires cs.Valid()
    modifies cs
    ensures cs.Valid()
    ensures Classify(req.url) == SafetyApi ==>
      SafetyApiResult(reply, queued) == HandleSafetyApiRequest(req, net, now, id, storedAt) &&
      cs.names == old(cs.names) && cs.stores == old(cs.stores)
    ensures Classify(req.url) != SafetyApi ==> queued == None
    ensures reply.Propagate? ==> net.Throws? && Classify(req.url) != Emergency
    ensures reply.Propagate? && Classify(req.url) == SafetyApi ==> req.verb == "POST" && BodyConsumedByFetch(req)
    ensures net.Answered? && Classify(req.url) != StaticAsset ==> reply == Respond(net.response)
    ensures !net.Succeeded() ==> cs.names == old(cs.names) && cs.stores == old(cs.stores)
    ensures Classify(req.url) == Emergency && net.Succeeded() ==>
      cs.names == WithCache(old(cs.names), EMERGENCY_CACHE) && cs.stores == OpenAndPut(old(cs.stores), EMERGENCY_CACHE, req, net.response)
    ensures Classify(req.url) == Emergency && net.Throws? ==> reply == Respond(old(cs.Match(req)).GetOr(EMERGENCY_PAGE))
    ensures Classify(req.url) == StaticAsset ==>
      reply == if old(cs.Match(req)).Some? then Respond(old(cs.Match(req)).value)
               else if net.Answered? then Respond(net.response)
               else if IsImage(req.url) then Respond(IMAGE_PLACEHOLDER)
               else Propagate
    ensures Classify(req.url) == StaticAsset && old(cs.Match(req)).None? && net.Succeeded() ==>
      cs.names == WithCache(old(cs.names), CACHE_NAME) && cs.stores == OpenAndPut(old(cs.stores), CACHE_NAME, req, net.response)
    ensures Classify(req.url) == StaticAsset && old(cs.Match(req)).Some? ==> cs.names == old(cs.names) && cs.stores == old(cs.stores)
    ensures Classify(req.url) == Generic && net.Succeeded() ==>
      if req.verb == "GET"
      then cs.names == WithCache(old(cs.names), CACHE_NAME) && cs.stores == OpenAndPut(old(cs.stores), CACHE_NAME, req, net.response)
      else cs.names == old(cs.names) && cs.stores == old(cs.stores)
    ensures Classify(req.url) == Generic && net.Throws? ==>
      reply == if old(cs.Match(req)).Some? then Respond(old(cs.Match(req)).value)
               else if req.mode == "navigate" && old(cs.Match(Get(Resolve(origin, OFFLINE_PAGE)))).Some?
               then Respond(old(cs.Match(Get(Resolve(origin, OFFLINE_PAGE)))).value)
               else Propagate
    ensures Classify(req.url) == Generic && req.mode == "navigate" && old(cs.Match(Get(Resolve(origin, OFFLINE_PAGE)))).Some? ==>
      reply.Respond?
  {
    queued := None;
    match Classify(req.url) {
      case Emergency =>
        reply := HandleEmergencyRequest(cs, req, net);
      case SafetyApi =>
        var r := HandleSafetyApiRequest(req, net, now, id, storedAt);
        reply, queued := r.reply, r.queued;
      case StaticAsset =>
        var fetched;
        reply, fetched := HandleStaticAsset(cs, req, net);
      case Generic =>
        reply := HandleGenericRequest(cs, req, net, origin);
    }
  }
}
