/**
 * The service worker with the host state it acts on. Cache Storage is the
 * field `caches`; the network is injected as the outcome of each request;
 * `sent` records every request the worker itself sends to the network. Each
 * event handler is a method that runs to completion.
 */
module Worker {
  import opened Config
  import Classifier
  import opened Storage
  import opened Resolver
  import opened Refresh

  class ServiceWorker {
    /** `registration.scope`, fixed by the host. */
    const scope: Url
    /** The origin's Cache Storage: store name to store. */
    var caches: Stores
    /** The requests this worker has sent to the network, oldest first. */
    var sent: seq<Url>

    constructor (scope: Url, caches: Stores)
      ensures this.scope == scope && this.caches == caches && sent == []
    {
      this.scope := scope;
      this.caches := caches;
      sent := [];
    }

    /** `caches.open(CACHE_NAME)`. */
    method OpenCache()
      modifies this`caches
      ensures caches == Opened(old(caches), CACHE_NAME)
    {
      caches := Opened(caches, CACHE_NAME);
    }

    /** `caches.delete(name)`: resolves to whether the store existed. */
    method DeleteStore(name: string) returns (deleted: bool)
      modifies this`caches
      ensures deleted <==> name in old(caches)
      ensures caches == old(caches) - {name}
    {
      deleted := name in caches;
      caches := caches - {name};
    }

    /** `cache.put(url, response)` on the opened current generation. */
    method Put(url: Url, response: Response)
      requires CACHE_NAME in caches
      modifies this`caches
      ensures caches == old(caches)[CACHE_NAME := old(caches)[CACHE_NAME][url := response]]
    {
      caches := caches[CACHE_NAME := caches[CACHE_NAME][url := response]];
    }

    /** `fetch(url)`: sends the request; `net` is what the network does with it. */
    method Fetch(url: Url, net: Outcome) returns (outcome: Outcome)
      modifies this`sent
      ensures sent == old(sent) + [url]
      ensures outcome == net
    {
      sent := sent + [url];
      outcome := net;
    }

    /** The `install` handler: opens the current generation (pre-population is not modelled). */
    method Install()
      modifies this`caches
      ensures caches == Opened(old(caches), CACHE_NAME)
      ensures CACHE_NAME in caches && caches[CACHE_NAME] == Current(old(caches))
    {
      OpenCache();
    }

    /** The `activate` handler: deletes every generation but the current one. */
    method Activate()
      modifies this`caches
      ensures caches == Reaped(old(caches), CACHE_NAME)
    {
      var names := Enumerate(caches.Keys);
      for i := 0 to |names|
        invariant forall n :: n in caches <==> n in old(caches) && (n == CACHE_NAME || n !in names[..i])
        invariant forall n :: n in caches ==> caches[n] == old(caches)[n]
      {
        if names[i] != CACHE_NAME {
          var _ := DeleteStore(names[i]);
        }
      }
      assert names[..|names|] == names;
      assert caches.Keys == Reaped(old(caches), CACHE_NAME).Keys;
    }

    /** `cleanCache()`: deletes every generation, the current one included. */
    method CleanCache()
      modifies this`caches
      ensures caches == map[]
    {
      var names := Enumerate(caches.Keys);
      for i := 0 to |names|
        invariant forall n :: n in caches <==> n in old(caches) && n !in names[..i]
      {
        var _ := DeleteStore(names[i]);
      }
      assert names[..|names|] == names;
      assert caches.Keys == {};
    }

    /** The `message` handler: only the wipe command does anything. */
    method OnMessage(data: string)
      modifies this`caches
      ensures data == CLEAN_COMMAND ==> caches == map[]
      ensures data != CLEAN_COMMAND ==> caches == old(caches)
    {
      if data == CLEAN_COMMAND {
        CleanCache();
      }
    }

    /** The `fetch` handler: classifies the request, then resolves it against the cache and the network. */
    method HandleFetch(req: Request, net: Outcome) returns (result: FetchResult)
      modifies this
      ensures var step := OnFetch(old(caches), req, scope, net);
        && result == step.result
        && caches == step.caches
        && sent == old(sent) + (if step.fetched then [req.url] else [])
    {
      var strategy := Classifier.Classify(req.url, scope);
      if strategy == Classifier.Skip {
        return PassThrough;
      }
      var goNetworkFirst := strategy == Classifier.NetworkFirst;

      OpenCache();
      var cachedResponse := Match(caches[CACHE_NAME], req.url);
      if cachedResponse.Some? && !goNetworkFirst {
        result := Respond(cachedResponse.value);
      } else {
        var outcome := Fetch(req.url, net);
        match outcome
        case Ok(response) =>
          Put(req.url, response);
          result := Respond(response);
        case Fail =>
          if cachedResponse.Some? {
            result := Respond(cachedResponse.value);
          } else if req.mode == Navigate {
            var errorResponse := Match(caches[CACHE_NAME], OFFLINE_PAGE);
            result := if errorResponse.Some? then Respond(errorResponse.value) else NoResponse;
          } else {
            result := NoResponse;
          }
      }
    }

    /**
     * `findCacheEntriesToBeRefreshed()`: the keys of the current generation
     * in which no no-refresh pattern occurs, in the order `cache.keys()`
     * listed them.
     */
    method FindCacheEntriesToBeRefreshed() returns (requests: seq<Url>, ghost keys: seq<Url>)
      modifies this`caches
      ensures caches == Opened(old(caches), CACHE_NAME)
      ensures NoDuplicates(keys) && forall u :: u in keys <==> u in Current(old(caches))
      ensures IsSubsequence(requests, keys)
      ensures NoDuplicates(requests)
      ensures forall u :: u in requests <==> u in Current(old(caches)) && !Protected(u)
    {
      OpenCache();
      var listing := Enumerate(caches[CACHE_NAME].Keys);
      requests := ToRefresh(listing);
      keys := listing;
    }

    /** `updateCachedContent()`: re-fetches each selected entry, keeping the old value when a fetch fails. */
    method UpdateCachedContent(net: Url -> Outcome)
      modifies this
      ensures RefreshedFrom(old(caches), caches, net)
      ensures |sent| >= |old(sent)| && sent[..|old(sent)|] == old(sent)
      ensures NoDuplicates(sent[|old(sent)|..])
      ensures forall u :: u in sent[|old(sent)|..] <==> u in Current(old(caches)) && !Protected(u)
    {
      var requests, keys := FindCacheEntriesToBeRefreshed();
      OpenCache();
      RefreshEntries(requests, net);
      assert sent[|old(sent)|..] == requests;
      RefetchingUnprotectedIsRefresh(old(caches), requests, net);
    }

    /**
     * The loop of `updateCachedContent()`: fetches each request in turn and
     * puts the response into the current generation when the fetch succeeds;
     * a failed fetch is swallowed and the entry kept.
     */
    method RefreshEntries(requests: seq<Url>, net: Url -> Outcome)
      requires CACHE_NAME in caches
      requires forall u :: u in requests ==> u in caches[CACHE_NAME]
      modifies this
      ensures caches == old(caches)[CACHE_NAME := Refetched(old(caches)[CACHE_NAME], requests, net)]
      ensures sent == old(sent) + requests
    {
      ghost var before := caches[CACHE_NAME];
      assert Refetched(before, requests[..0], net).Keys == before.Keys;
      assert Refetched(before, requests[..0], net) == before;
      for i := 0 to |requests|
        invariant caches == old(caches)[CACHE_NAME := Refetched(before, requests[..i], net)]
        invariant sent == old(sent) + requests[..i]
      {
        assert requests[..i + 1] == requests[..i] + [requests[i]];
        RefetchedExtend(before, requests[..i], requests[i], net);
        var outcome := Fetch(requests[i], net(requests[i]));
        if outcome.Ok? {
          Put(requests[i], outcome.response);
        }
      }
      assert requests[..|requests|] == requests;
    }

    /** The `periodicsync` handler: sweeps only for the refresh tag. */
    method OnPeriodicSync(tag: string, net: Url -> Outcome)
      modifies this
      ensures tag != REFRESH_TAG ==> caches == old(caches) && sent == old(sent)
      ensures tag == REFRESH_TAG ==> RefreshedFrom(old(caches), caches, net)
      ensures tag == REFRESH_TAG ==>
                && |sent| >= |old(sent)| && sent[..|old(sent)|] == old(sent)
                && NoDuplicates(sent[|old(sent)|..])
                && forall u :: u in sent[|old(sent)|..] <==> u in Current(old(caches)) && !Protected(u)
    {
      if tag == REFRESH_TAG {
        UpdateCachedContent(net);
      }
    }
  }
}
