/**
 * The host's Cache Storage as values: named stores (cache generations), each
 * a map from request URL to a stored response, and the two operations on the
 * set of store names that the worker relies on, opening and reaping.
 */
module Storage {
  import opened Config

  /** A response snapshot; bodies are immutable values here. */
  datatype Response = Response(status: nat, body: string)

  /** One cache generation: request URL to the most recently stored response. */
  type Store = map<Url, Response>

  /** All generations, by store name (`caches.keys()` lists the names). */
  type Stores = map<string, Store>

  datatype Option<T> = None | Some(value: T)

  /** What the network did with one request: a response of any status, or a rejection. */
  datatype Outcome = Ok(response: Response) | Fail

  /** `cache.match(url)`: the stored response, or `undefined`. */
  function Match(store: Store, url: Url): (r: Option<Response>)
    ensures r.Some? <==> url in store
    ensures r.Some? ==> r.value == store[url]
  {
    if url in store then Some(store[url]) else None
  }

  /** `caches.open(name)`: the named store, created empty when absent. */
  function Opened(caches: Stores, name: string): (r: Stores)
    ensures name in r
    ensures name in caches ==> r == caches
    ensures name !in caches ==> r[name] == map[]
    ensures forall n :: n in r <==> n in caches || n == name
    ensures forall n :: n in caches ==> r[n] == caches[n]
  {
    if name in caches then caches else caches[name := map[]]
  }

  /** Contents of the current generation as the worker sees it after opening it. */
  function Current(caches: Stores): (store: Store)
    ensures CACHE_NAME in caches ==> store == caches[CACHE_NAME]
    ensures CACHE_NAME !in caches ==> store == map[]
  {
    Opened(caches, CACHE_NAME)[CACHE_NAME]
  }

  /** The store names left once every name other than `keep` is deleted. */
  function Reaped(caches: Stores, keep: string): (r: Stores)
    ensures forall n :: n in r ==> n == keep
    ensures keep in r <==> keep in caches
    ensures keep in r ==> r[keep] == caches[keep]
  {
    if keep in caches then map[keep := caches[keep]] else map[]
  }

  /**
   * Bumping the version between two activations: the old generation is gone,
   * the new one survives exactly when it was already created, and its
   * entries are the ones it already held.
   */
  lemma VersionBumpReapsOldGeneration(caches: Stores, old_version: string, new_version: string)
    requires old_version != new_version
    ensures CacheName(old_version) !in Reaped(caches, CacheName(new_version))
    ensures CacheName(new_version) in Reaped(caches, CacheName(new_version)) <==> CacheName(new_version) in caches
  {
  }

  /** Reaping twice is the same as reaping once. */
  lemma ReapedIdempotent(caches: Stores, keep: string)
    ensures Reaped(Reaped(caches, keep), keep) == Reaped(caches, keep)
  {
  }

  predicate NoDuplicates<T(==)>(s: seq<T>)
  {
    forall i, j :: 0 <= i < j < |s| ==> s[i] != s[j]
  }

  /**
   * `caches.keys()` / `cache.keys()`: lists every element of a finite set
   * once; the order is the host's and is left unspecified.
   */
  method Enumerate<T(==)>(s: set<T>) returns (listing: seq<T>)
    ensures NoDuplicates(listing)
    ensures forall x :: x in listing <==> x in s
  {
    listing := [];
    var rest := s;
    while rest != {}
      invariant rest <= s
      invariant forall x :: x in listing ==> x in s && x !in rest
      invariant forall x :: x in s ==> x in listing || x in rest
      invariant NoDuplicates(listing)
      decreases rest
    {
      var x :| x in rest;
      listing := listing + [x];
      rest := rest - {x};
    }
  }
}
