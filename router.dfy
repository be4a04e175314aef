/** The fetch handler's decisions: which requests it answers, with which
    strategy, and for each strategy what it answers and what it writes to the
    content cache. */
module Router {
  import opened Storage
  import opened Keys

  datatype Request = Request(verb: string, url: Url)

  datatype Route =
    | PassThrough   // the handler returns without answering; the browser fetches
    | OnlineFirst   // the root document: network first, cached copy as fallback
    | CacheFirst    // any other listed resource: cached copy, else fetch and fill

  /** What the page receives: nothing from the worker, a response, or the
      rejection of the promise handed to `respondWith`. */
  datatype Answer = Unhandled | Respond(response: Response) | Reject(error: string)

  /** One request's outcome: the answer, the response written to the content
      cache under the request's URL (if any), and whether the network was used. */
  datatype Plan = Plan(answer: Answer, write: Option<Response>, fetched: bool)

  /** The strategy the fetch handler picks for a request. */
  function RouteOf(request: Request, origin: string, resources: Manifest): (route: Route)
    ensures route != PassThrough <==> request.verb == "GET" && Managed(resources, FetchKey(origin, request.url))
    ensures route == OnlineFirst <==> request.verb == "GET" && Managed(resources, ROOT) && FetchKey(origin, request.url) == ROOT
    ensures request.verb == "GET" && (request.url == origin || StartsWith(request.url, origin + "/#")) ==>
              route == (if Managed(resources, ROOT) then OnlineFirst else PassThrough)
  {
    if request.verb != "GET" then PassThrough
    else
      var key := FetchKey(origin, request.url);
      if !Managed(resources, key) then PassThrough
      else if key == ROOT then OnlineFirst
      else CacheFirst
  }

  /** Cache-first with lazy fill, given the cached entry for the request's URL. */
  function CacheFirstPlan(cached: Option<Response>, net: Network, url: Url): (p: Plan)
    ensures cached.Some? ==> p == Plan(Respond(cached.value), None, false)
    ensures cached.None? ==> p.fetched
    ensures cached.None? && net(url).NetworkError? ==> p.answer == Reject(net(url).error)
    ensures cached.None? && net(url).Fetched? ==> p.answer == Respond(net(url).response)
    ensures p.write.Some? <==> cached.None? && SucceededOk(net(url))
    ensures p.write.Some? ==> p.answer == Respond(p.write.value)
  {
    match cached
    case Some(r) => Plan(Respond(r), None, false)
    case None =>
      match net(url)
      case NetworkError(e) => Plan(Reject(e), None, true)
      case Fetched(r) => Plan(Respond(r), if r.ok then Some(r) else None, true)
  }

  /** Online-first, given the cached entry for the request's URL. */
  function OnlineFirstPlan(cached: Option<Response>, net: Network, url: Url): (p: Plan)
    ensures p.fetched
    ensures net(url).Fetched? ==> p.answer == Respond(net(url).response) && p.write == Some(net(url).response)
    ensures net(url).NetworkError? ==> p.write == None
    ensures net(url).NetworkError? && cached.Some? ==> p.answer == Respond(cached.value)
    ensures net(url).NetworkError? && cached.None? ==> p.answer == Reject(net(url).error)
  {
    match net(url)
    case Fetched(r) => Plan(Respond(r), Some(r), true)
    case NetworkError(e) =>
      if cached.Some? then Plan(Respond(cached.value), None, true) else Plan(Reject(e), None, true)
  }

  /** The content cache after a plan's write, if any. */
  function Stored(content: Cache, url: Url, write: Option<Response>): Cache
  {
    if write.Some? then content[url := write.value] else content
  }

  /** A GET for the URL of a listed key is answered: online-first for the root
      key, cache-first for every other key; adding a `?v=` suffix to the URL
      does not change the route. */
  lemma ListedKeysAreServed(resources: Manifest, origin: string, key: string, v: string)
    requires PlainKey(key) && Managed(resources, key)
    ensures var route := if key == ROOT then OnlineFirst else CacheFirst;
            && RouteOf(Request("GET", RequestUrl(origin, key)), origin, resources) == route
            && RouteOf(Request("GET", RequestUrl(origin, key) + VERSION_MARKER + v), origin, resources) == route
  {
    FetchKeyRoundTrip(origin, key);
    FetchKeyDropsVersion(origin, key, v);
  }

  /** A response whose `ok` flag is clear is stored by online-first but never
      by lazy fill, whatever is cached. */
  lemma NotOkStoredOnlyOnline(cached: Option<Response>, net: Network, url: Url)
    requires net(url).Fetched? && !net(url).response.ok
    ensures CacheFirstPlan(cached, net, url).write == None
    ensures OnlineFirstPlan(cached, net, url).write == Some(net(url).response)
  {
  }
}
