/**
 * The worker's compiled-in configuration: the cache version, the name of the
 * current cache generation, the three rule tables and the fixed strings of
 * the offline page, the periodic-sync tag and the wipe command.
 */
module Config {

  /** Request URLs, the registration scope and store names are opaque strings. */
  type Url = string

  /** Bumping this constant is the only upgrade path: it renames the cache. */
  const VERSION: string := "1"

  const CACHE_NAME_PREFIX: string := "mypwa-cache-v"

  /** The store name derived from a version tag, `mypwa-cache-v${version}`. */
  function CacheName(version: string): (name: string)
    ensures |name| == |CACHE_NAME_PREFIX| + |version|
    ensures name[..|CACHE_NAME_PREFIX|] == CACHE_NAME_PREFIX
    ensures name[|CACHE_NAME_PREFIX|..] == version
  {
    CACHE_NAME_PREFIX + version
  }

  /** The current generation. */
  const CACHE_NAME: string := CacheName(VERSION)

  /** Resources that change often: fetched from the network when online. */
  const NETWORK_FIRST_RESOURCES: seq<string> := ["/dashboard", "/news"]

  /** Cached resources the periodic refresh never re-fetches. */
  const DONT_UPDATE_RESOURCES: seq<string> := [
    "/css/style.css",
    "/css/colors/red.css",
    "/images/logo.png",
    "/js/vendor.js",
    "/js/bootstrap.js",
    "/js/app.js"
  ]

  /** Requests the worker never handles: authentication, sockets, analytics. */
  const NON_CACHABLE_PATTERNS: seq<string> := [
    "/login",
    "/logout",
    "socket.io",
    "google-analytics",
    "googletagmanager"
  ]

  /** The resources meant to be fetched into the cache at install time. */
  const INITIAL_CACHED_RESOURCES: seq<string> := NETWORK_FIRST_RESOURCES + DONT_UPDATE_RESOURCES

  /** Key of the placeholder page served to failed navigations. */
  const OFFLINE_PAGE: string := "/offline/"

  /** The only periodic-sync tag the worker acts on. */
  const REFRESH_TAG: string := "update-cached-content"

  /** The only message the worker acts on. */
  const CLEAN_COMMAND: string := "clean_cache"

  /** Different versions give different store names, so a bump never reuses a generation. */
  lemma CacheNameInjective(v: string, w: string)
    ensures CacheName(v) == CacheName(w) <==> v == w
  {
  }

  /**
   * The initial set is the network-first table followed by the no-refresh
   * table, and the offline page is in neither, so it is never pre-cached.
   */
  lemma InitialResourcesLayout()
    ensures |INITIAL_CACHED_RESOURCES| == |NETWORK_FIRST_RESOURCES| + |DONT_UPDATE_RESOURCES|
    ensures INITIAL_CACHED_RESOURCES[..|NETWORK_FIRST_RESOURCES|] == NETWORK_FIRST_RESOURCES
    ensures INITIAL_CACHED_RESOURCES[|NETWORK_FIRST_RESOURCES|..] == DONT_UPDATE_RESOURCES
    ensures OFFLINE_PAGE !in INITIAL_CACHED_RESOURCES
  {
  }
}
