/**
 * Selection of the entries the periodic refresh re-fetches: every cached key
 * in which no no-refresh pattern occurs, in the order the cache lists them.
 */
module Refresh {
  import opened Text
  import opened Config
  import opened Storage

  /** `a` is `b` with some elements dropped, the rest kept in order. */
  ghost predicate IsSubsequence<T>(a: seq<T>, b: seq<T>)
    decreases |b|
  {
    a == [] ||
    (b != [] && ((a[0] == b[0] && IsSubsequence(a[1..], b[1..])) || IsSubsequence(a, b[1..])))
  }

  /** The refresh leaves this entry alone. */
  ghost predicate Protected(url: Url)
  {
    ContainsAny(url, DONT_UPDATE_RESOURCES)
  }

  /** `requests.filter(r => !DONT_UPDATE_RESOURCES.some(p => r.url.includes(p)))`. */
  function ToRefresh(keys: seq<Url>): (r: seq<Url>)
    ensures IsSubsequence(r, keys)
    ensures forall u :: u in r <==> u in keys && !Protected(u)
    ensures NoDuplicates(keys) ==> NoDuplicates(r)
    decreases |keys|
  {
    if keys == [] then []
    else
      var rest := ToRefresh(keys[1..]);
      assert keys == [keys[0]] + keys[1..];
      IncludesAnyIsContainsAny(keys[0], DONT_UPDATE_RESOURCES);
      if IncludesAny(keys[0], DONT_UPDATE_RESOURCES) then rest
      else
        assert NoDuplicates(keys) ==> keys[0] !in keys[1..];
        [keys[0]] + rest
  }

  /**
   * `after` is the Cache Storage once a refresh sweep over `before` has run:
   * the current generation exists and has the same keys as before; a
   * protected entry keeps its value; any other entry takes the response its
   * fetch produced, or keeps its value when that fetch failed; every other
   * generation is untouched.
   */
  ghost predicate RefreshedFrom(before: Stores, after: Stores, net: Url -> Outcome)
  {
    && CACHE_NAME in after
    && (forall n :: n != CACHE_NAME ==> (n in after <==> n in before))
    && (forall n :: n in before && n != CACHE_NAME ==> after[n] == before[n])
    && after[CACHE_NAME].Keys == Current(before).Keys
    && (forall k :: k in Current(before) ==>
          after[CACHE_NAME][k] ==
            if !Protected(k) && net(k).Ok? then net(k).response else Current(before)[k])
  }

  /** The store once each of `urls` has been re-fetched, a successful fetch overwriting its entry. */
  ghost function Refetched(store: Store, urls: seq<Url>, net: Url -> Outcome): Store
  {
    map k | k in store :: if k in urls && net(k).Ok? then net(k).response else store[k]
  }

  /** Re-fetching one more cached key is one more `cache.put` on success and nothing on failure. */
  lemma RefetchedExtend(store: Store, urls: seq<Url>, url: Url, net: Url -> Outcome)
    requires url in store
    ensures Refetched(store, urls + [url], net) ==
              if net(url).Ok? then Refetched(store, urls, net)[url := net(url).response]
              else Refetched(store, urls, net)
  {
  }

  /**
   * Re-fetching exactly the unprotected keys of the current generation, and
   * writing the result back, is a refresh sweep.
   */
  lemma RefetchingUnprotectedIsRefresh(before: Stores, urls: seq<Url>, net: Url -> Outcome)
    requires forall u :: u in urls <==> u in Current(before) && !Protected(u)
    ensures RefreshedFrom(before, Opened(before, CACHE_NAME)[CACHE_NAME := Refetched(Current(before), urls, net)], net)
  {
  }
}
