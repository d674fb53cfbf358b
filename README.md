# Offline caching policy of the `mypwa` service worker, in Dafny

This project models the caching policy of a progressive web app's service
worker (`sw.js`): how each intercepted request is classified (skipped,
network-first or cache-first), how the fetch handler answers it from the
cache or the network and fills the cache, how `activate` reaps old cache
generations, how the `clean_cache` message wipes every cache, and how the
periodic sync re-fetches the cached entries that are not on the no-refresh
list.

The host is made explicit:

- **Cache Storage** is the field `caches: map<string, map<Url, Response>>` of
  `Worker.ServiceWorker`: store name (cache generation) to store, a store
  being request URL to response. `caches.open(name)` creates an empty store
  when it is absent (`Storage.Opened`).
- **The network** is an input: one `Outcome` (`Ok(response)` or `Fail`) for a
  fetch event, a function from URL to `Outcome` for the periodic sweep. A
  fetch that resolves counts as `Ok` whatever the HTTP status, because the
  worker never looks at the status, so a 404 or 500 page is cached like any
  other response.
- **Requests sent** by the worker are logged in the field `sent`, so "no
  network request is made" is a statement about `sent`.
- `registration.scope` is the constant `scope` given to the constructor.
- Each event handler is a method that runs to completion.

Modules: `Text` (the `includes`/`some` pattern tests), `Config` (the constant
tables), `Classifier`, `Storage` (store values, `open`, reaping, key
listing), `Resolver` (the fetch handler as a function, `OnFetch`, and its
properties), `Refresh` (the entry filter and the sweep's specification) and
`Worker` (the class with one method per handler).

Three behaviours of the code that its own comments or a quick reading
suggest otherwise, modelled as the code has them:

- The offline page `/offline/` is not part of `INITIAL_CACHED_RESOURCES`
  (`Config.InitialResourcesLayout`), so install does not pre-cache it; a
  failed navigation gets the offline page only if some earlier request put
  it in the cache, and otherwise no response at all.
- The comment at sw.js:63-64 describes a network-first fallback when periodic
  sync is unsupported; the code has no such branch, and neither has the model.
- A failed fetch with no cached entry yields no response for every mode other
  than `navigate`; the `cors` case is empty, exactly like the unlisted modes.

## Model

| member | source | states |
|---|---|---|
| Text.IncludesIsContains | sw.js:69 | `url.includes(pattern)` is true exactly when the pattern occurs at some offset of the URL |
| Text.IncludesAnyIsContainsAny | sw.js:69 | `patterns.some(p => url.includes(p))` is true exactly when some entry of the table occurs in the URL |
| Classifier.Classify | sw.js:68-74 | a request is skipped iff a non-cacheable pattern occurs in its URL; otherwise it is network-first iff its URL equals the scope or contains a network-first pattern, and cache-first otherwise |
| Config.CacheNameInjective | sw.js:2-3 | two version tags give the same store name only if they are equal, so a version bump always names a new generation |
| Config.InitialResourcesLayout | sw.js:36-38 | the initial resources are the network-first table followed by the no-refresh table, and the offline page is not among them |
| Storage.Opened | sw.js:79 | opening the current generation makes it present, creates it empty if it was absent and changes no other store |
| Storage.Reaped | sw.js:41-49 | after reaping, every remaining store is the current generation, which is present iff it was before and keeps its entries |
| Storage.VersionBumpReapsOldGeneration | sw.js:2-3 | after a version bump and an activation the old generation is gone and the new one is present iff it already existed |
| Storage.ReapedIdempotent | sw.js:44-48 | activating twice leaves the same stores as activating once |
| Storage.Enumerate | sw.js:43 | the key listing holds every store name exactly once and nothing else |
| Config.CacheName | sw.js:3 | the store name is the fixed prefix `mypwa-cache-v` followed by the version tag, so the tag can be read back from the name |
| Storage.Match | sw.js:82 | the lookup primitive `cache.match`: the stored response for a key when there is one, none otherwise |
| Resolver.OnFetch | sw.js:66-127 | the fetch handler as a function: it passes a request through (no fetch, no cache change) exactly when a non-cacheable pattern occurs in its URL, and otherwise opens the current generation; its branch-by-branch contract is the `Resolver` lemmas below |
| Resolver.SkippedRequestUntouched | sw.js:68-70 | a request with a non-cacheable pattern gets no worker response, sends nothing and leaves every store unchanged |
| Resolver.FetchesExactlyWhenGoingToNetwork | sw.js:84-95 | the network is asked exactly when the request is handled and is network-first or has no cached entry |
| Resolver.CacheFirstHitServedFromCache | sw.js:84-87 | a cache-first request with a cached entry is answered with that entry, without a fetch and without any change to the cache |
| Resolver.NetworkSuccessServedAndStored | sw.js:93-101 | when the network answers, that response is returned and stored under the request; all other entries and stores are unchanged |
| Resolver.NetworkFailureServesStaleEntry | sw.js:103-107 | when the fetch fails and an entry was cached, that entry is returned and the cache is unchanged |
| Resolver.NetworkFailureWithoutEntry | sw.js:109-122 | when the fetch fails and nothing was cached, a navigation gets the cached offline page (or nothing if it is not cached) and any other mode gets nothing; the cache only gains the opened generation |
| Resolver.ResponsesComeFromNetworkOrCache | sw.js:76-125 | every response the worker returns was fetched for this request or was already stored in the current generation |
| Resolver.HandledRequestTouchesOnlyItsEntry | sw.js:79-101 | a handled request removes no entry and changes no entry other than its own |
| Refresh.ToRefresh | sw.js:180-187 | the refresh list is an order-preserving subsequence of the cache keys, holds exactly the keys with no no-refresh pattern, and has no duplicate when the keys have none |
| Refresh.RefetchedExtend | sw.js:164-173 | one more loop step overwrites that key with the fetched response on success and leaves the store as it was on failure |
| Refresh.RefetchingUnprotectedIsRefresh | sw.js:159-187 | re-fetching exactly the unprotected keys keeps the key set, keeps every protected entry, and gives every other entry its new response or its old value |
| Worker.ServiceWorker.OpenCache | sw.js:79 | the storage afterwards is the storage with the current generation opened |
| Worker.ServiceWorker.DeleteStore | sw.js:46 | deleting a store removes exactly that name and reports whether it existed |
| Worker.ServiceWorker.Put | sw.js:98 | `cache.put` replaces or adds one entry of the current generation and nothing else |
| Worker.ServiceWorker.Fetch | sw.js:95 | a fetch appends the request to the sent log and yields the network's outcome |
| Worker.ServiceWorker.Install | sw.js:53-58 | install opens the current generation and leaves its entries and every other store as they were |
| Worker.ServiceWorker.Activate | sw.js:41-49 | after activation the storage is exactly the reaped storage: only the current generation may remain, unchanged |
| Worker.ServiceWorker.CleanCache | sw.js:130-135 | after the wipe no store is left |
| Worker.ServiceWorker.OnMessage | sw.js:138-149 | the `clean_cache` message empties the storage; every other message leaves it unchanged |
| Worker.ServiceWorker.HandleFetch | sw.js:66-127 | the response, the new storage and the sent log are those of `OnFetch`, whose properties are the `Resolver` lemmas above |
| Worker.ServiceWorker.FindCacheEntriesToBeRefreshed | sw.js:180-188 | returns the unprotected keys of the current generation, each once, as a subsequence of the key listing |
| Worker.ServiceWorker.UpdateCachedContent | sw.js:159-175 | the sweep leaves a refreshed storage (same keys, protected entries kept, others updated on success or kept on failure, other stores untouched) and sends each unprotected key exactly once |
| Worker.ServiceWorker.RefreshEntries | sw.js:164-173 | the loop sends every listed request once, in order, and leaves the current generation equal to its old contents with each successfully fetched key overwritten; other stores are untouched |
| Worker.ServiceWorker.OnPeriodicSync | sw.js:153-157 | only the `update-cached-content` tag triggers the sweep; any other tag changes nothing and sends nothing |

## Left out

- Event wiring (`addEventListener`, `waitUntil`, `respondWith`) is host plumbing; handlers are plain methods.
- Worker.ServiceWorker.Install: the `cache.addAll(INITIAL_CACHED_RESOURCES)` pre-population is not modelled; it is not awaited and its all-or-nothing batch behaviour is defined by the browser, so the method only opens the store.
- Asynchrony: `Promise.all`, the un-awaited `cache.put` in the fetch handler and the un-awaited `cleanCache()` in the message handler, and races between concurrent fetch, refresh and wipe events are not modelled; each handler runs atomically.
- Failures of the Cache Storage calls themselves (for example `cache.put` rejecting a non-GET request) are not modelled; every store operation succeeds.
- Request identity: a cache key is the request URL; the browser's request matching (method, `Vary`, query handling) and URL resolution (the relative `/offline/` against the worker's location) are not modelled, and URLs and the scope are opaque strings.
- Response bodies are immutable values, so the `clone()` before `cache.put` has no counterpart.
- The order in which `caches.keys()` and `cache.keys()` list names is the host's; `Storage.Enumerate` returns some duplicate-free listing.
- Message data is modelled as a string; a non-string message never equals `clean_cache` and behaves like any other unrecognised string.
