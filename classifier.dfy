/**
 * The fetch handler's first decision: whether the worker handles a request
 * at all, and if so whether it consults the network or the cache first.
 */
module Classifier {
  import opened Text
  import opened Config

  datatype Strategy = Skip | NetworkFirst | CacheFirst

  /**
   * Classifies a request URL against the rule tables; `scope` is the
   * registration scope handed in by the host.
   */
  function Classify(url: Url, scope: Url): (r: Strategy)
    ensures r == Skip <==> ContainsAny(url, NON_CACHABLE_PATTERNS)
    ensures r == NetworkFirst <==>
              !ContainsAny(url, NON_CACHABLE_PATTERNS) &&
              (url == scope || ContainsAny(url, NETWORK_FIRST_RESOURCES))
    ensures r == CacheFirst <==>
              !ContainsAny(url, NON_CACHABLE_PATTERNS) &&
              url != scope && !ContainsAny(url, NETWORK_FIRST_RESOURCES)
  {
    IncludesAnyIsContainsAny(url, NON_CACHABLE_PATTERNS);
    IncludesAnyIsContainsAny(url, NETWORK_FIRST_RESOURCES);
    if IncludesAny(url, NON_CACHABLE_PATTERNS) then Skip
    else if url == scope || IncludesAny(url, NETWORK_FIRST_RESOURCES) then NetworkFirst
    else CacheFirst
  }
}
