/** The pure decisions of the filter: whether a request may be cached,
    whether debug mode switches the filter off, and the client cache header. */
module Policy {
  import opened Common
  import opened Text

  /** `HttpMethod` equality compares method names ordinally, ignoring case. */
  function IsGet(verb: string): (isGet: bool)
    ensures verb == "GET" || verb == "get" || verb == "Get" ==> isGet
    ensures |verb| != 3 ==> !isGet
  {
    Lower(verb) == "get"
  }

  /** `_isCachingTimeValid`: a positive lifetime, a GET, and not an
      authenticated caller when only anonymous callers are cached. */
  function Gate(ttl: Int32, verb: string, anonymousOnly: bool, isAuthenticated: bool): (eligible: bool)
    ensures eligible <==> ttl > 0 && IsGet(verb) && !(anonymousOnly && isAuthenticated)
  {
    if ttl > 0 then
      if anonymousOnly && isAuthenticated then false
      else IsGet(verb)
    else false
  }

  /** `CheckDebugModeDisability`: `DisableInDebugMode`, read only in a DEBUG build. */
  function DebugModeDisabled(debugBuild: bool, disableInDebugMode: bool): (disabled: bool)
    ensures disabled ==> debugBuild
    ensures debugBuild ==> disabled == disableInDebugMode
  {
    if debugBuild then disableInDebugMode else false
  }

  /** A `Cache-Control` header value: `max-age=<seconds>` and `must-revalidate`. */
  datatype CacheControl = CacheControl(maxAgeSeconds: int, mustRevalidate: bool)

  /** `SetClientCache`: the client may keep the response for the client lifetime
      and must revalidate it afterwards. */
  function ClientCacheControl(clientTimeSpan: Int32): (cc: CacheControl)
    ensures cc.maxAgeSeconds == clientTimeSpan as int
    ensures cc.mustRevalidate
  {
    CacheControl(clientTimeSpan as int, true)
  }
}
