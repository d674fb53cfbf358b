/**
 * The fetch handler as a function of the cache state before the request and
 * of what the network does: which response the page receives, what the cache
 * holds afterwards, and whether a network request was sent.
 */
module Resolver {
  import opened Text
  import opened Config
  import opened Classifier
  import opened Storage

  /** `Request.mode`. */
  datatype Mode = Navigate | SameOrigin | NoCors | Cors

  datatype Request = Request(url: Url, mode: Mode)

  /**
   * PassThrough: the worker does not call `respondWith`, the browser fetches
   * as usual. Respond: the page receives this response. NoResponse: the
   * worker responds with `undefined`, which the page sees as a failed fetch.
   */
  datatype FetchResult = PassThrough | Respond(response: Response) | NoResponse

  datatype FetchStep = FetchStep(result: FetchResult, caches: Stores, fetched: bool)

  /** The handler is entered for this request: no non-cacheable pattern occurs in its URL. */
  ghost predicate Handled(req: Request)
  {
    !ContainsAny(req.url, NON_CACHABLE_PATTERNS)
  }

  /** The handler goes to the network before answering. */
  ghost predicate GoesToNetwork(caches: Stores, req: Request, scope: Url)
  {
    Handled(req) &&
    (req.url == scope || ContainsAny(req.url, NETWORK_FIRST_RESOURCES) || req.url !in Current(caches))
  }

  /**
   * One run of the fetch handler; `net` is what `fetch(request)` would yield
   * and is consulted only when the handler goes to the network. The
   * worker passes a request through exactly when it is not handled, and
   * then neither fetches nor touches the cache; the lemmas below state
   * the rest of its behaviour branch by branch.
   */
  function OnFetch(caches: Stores, req: Request, scope: Url, net: Outcome): (step: FetchStep)
    ensures step.result == PassThrough <==> !Handled(req)
    ensures step.result == PassThrough ==> !step.fetched && step.caches == caches
    ensures Handled(req) ==> CACHE_NAME in step.caches
  {
    var strategy := Classify(req.url, scope);
    if strategy == Skip then FetchStep(PassThrough, caches, false)
    else
      var withCurrent := Opened(caches, CACHE_NAME);
      var store := withCurrent[CACHE_NAME];
      var cached := Match(store, req.url);
      if cached.Some? && strategy == CacheFirst then
        FetchStep(Respond(cached.value), withCurrent, false)
      else
        match net
        case Ok(response) =>
          FetchStep(Respond(response), withCurrent[CACHE_NAME := store[req.url := response]], true)
        case Fail =>
          if cached.Some? then
            FetchStep(Respond(cached.value), withCurrent, true)
          else if req.mode == Navigate then
            var offline := Match(store, OFFLINE_PAGE);
            FetchStep(if offline.Some? then Respond(offline.value) else NoResponse, withCurrent, true)
          else
            FetchStep(NoResponse, withCurrent, true)
  }

  /** A request with a non-cacheable pattern is left alone: no cache access, no fetch, no response from the worker. */
  lemma SkippedRequestUntouched(caches: Stores, req: Request, scope: Url, net: Outcome)
    requires !Handled(req)
    ensures OnFetch(caches, req, scope, net) == FetchStep(PassThrough, caches, false)
  {
  }

  /** The network is consulted exactly when the request is handled and is network-first or a cache miss. */
  lemma FetchesExactlyWhenGoingToNetwork(caches: Stores, req: Request, scope: Url, net: Outcome)
    ensures OnFetch(caches, req, scope, net).fetched <==> GoesToNetwork(caches, req, scope)
  {
  }

  /** Cache-first hit: the stored entry is served, nothing is fetched, the cache is unchanged. */
  lemma CacheFirstHitServedFromCache(caches: Stores, req: Request, scope: Url, net: Outcome)
    requires Handled(req) && !GoesToNetwork(caches, req, scope)
    ensures CACHE_NAME in caches && req.url in caches[CACHE_NAME]
    ensures OnFetch(caches, req, scope, net) == FetchStep(Respond(caches[CACHE_NAME][req.url]), caches, false)
  {
  }

  /**
   * Network-first or miss, fetch succeeds: the fetched response is served and
   * stored under the request; every other entry and every other store is as before.
   */
  lemma NetworkSuccessServedAndStored(caches: Stores, req: Request, scope: Url, response: Response)
    requires GoesToNetwork(caches, req, scope)
    ensures var step := OnFetch(caches, req, scope, Ok(response));
      && step.result == Respond(response)
      && step.fetched
      && CACHE_NAME in step.caches
      && step.caches[CACHE_NAME] == Current(caches)[req.url := response]
      && (forall n :: n in step.caches && n != CACHE_NAME <==> n in caches && n != CACHE_NAME)
      && (forall n :: n in caches && n != CACHE_NAME ==> step.caches[n] == caches[n])
  {
  }

  /** Fetch fails but an entry was cached: the stale entry is served and the cache is unchanged. */
  lemma NetworkFailureServesStaleEntry(caches: Stores, req: Request, scope: Url)
    requires GoesToNetwork(caches, req, scope) && req.url in Current(caches)
    ensures OnFetch(caches, req, scope, Fail) == FetchStep(Respond(caches[CACHE_NAME][req.url]), caches, true)
  {
  }

  /**
   * Fetch fails and nothing was cached: a navigation receives whatever the
   * cache holds for the offline page, every other mode receives nothing; the
   * only change to the cache is that the current generation now exists.
   */
  lemma NetworkFailureWithoutEntry(caches: Stores, req: Request, scope: Url)
    requires Handled(req) && req.url !in Current(caches)
    ensures var step := OnFetch(caches, req, scope, Fail);
      && step.caches == Opened(caches, CACHE_NAME)
      && step.fetched
      && step.result == (if req.mode == Navigate && OFFLINE_PAGE in Current(caches)
                         then Respond(Current(caches)[OFFLINE_PAGE])
                         else NoResponse)
  {
  }

  /**
   * The worker never invents a response: what it serves was either fetched
   * just now or was already in the current generation.
   */
  lemma ResponsesComeFromNetworkOrCache(caches: Stores, req: Request, scope: Url, net: Outcome)
    ensures var step := OnFetch(caches, req, scope, net);
      step.result.Respond? ==>
        (net.Ok? && step.fetched && step.result.response == net.response) ||
        step.result.response in Current(caches).Values
  {
  }

  /**
   * A handled request touches only its own entry of the current generation:
   * no entry is removed, and every other key keeps its value.
   */
  lemma HandledRequestTouchesOnlyItsEntry(caches: Stores, req: Request, scope: Url, net: Outcome)
    requires Handled(req)
    ensures var step := OnFetch(caches, req, scope, net);
      && CACHE_NAME in step.caches
      && Current(caches).Keys <= step.caches[CACHE_NAME].Keys
      && step.caches[CACHE_NAME].Keys <= Current(caches).Keys + {req.url}
      && (forall k :: k in Current(caches) && k != req.url ==> step.caches[CACHE_NAME][k] == Current(caches)[k])
  {
  }
}
