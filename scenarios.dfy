/** Request sequences run against one filter and one fresh cache, as a host
    would drive them: each request's `OnActionExecuting`, then, when it did
    not short-circuit, its `OnActionExecuted`. */
module Scenarios {
  import opened Common
  import opened Text
  import opened Policy
  import opened Keys
  import opened Store
  import opened Filter

  /** A GET cached for `ttl` seconds: the first request runs the action and is
      recorded under its key, without a client header (the client lifetime is
      0); the same request before the entry expires is served from the cache. */
  method RepeatedGet(path: string, verb: string, accept: string, body: string, mediaType: string,
                     ttl: Int32, now: int, later: int)
    returns (first: Result<Option<Content>>, key: string, executed: Result<Response>,
             second: Result<Option<Content>>)
    requires IsGet(verb) && ttl > 0 && now <= later < now + ttl as int
    ensures first == Ok(None)
    ensures key == BuildKey(path, accept)
    ensures executed == Ok(Response(Some(Content(body, Some(mediaType))), None))
    ensures second == Ok(Some(Content(body, Some(mediaType))))
  {
    var filter := new OutputCacheFilter();
    filter.SetDuration(ttl);
    var store := new CacheStore();
    var request := Request(path, verb, Some(accept), false);
    var response := Response(Some(Content(body, Some(mediaType))), None);
    first := filter.OnActionExecuting(Some(request), store, now, false);
    key := filter.cacheKey;
    executed := filter.OnActionExecuted(request, response, store, now, false);
    RecordThenLookup(map[], key, ttl, body, mediaType, now, later);
    second := filter.OnActionExecuting(Some(request), store, later, false);
  }

  /** With `AnonymousOnly` set, an authenticated caller is never cached:
      both requests run the action and the cache stays empty. */
  method AnonymousOnlyAuthenticated(path: string, verb: string, accept: string, content: Content,
                                    ttl: Int32, now: int, later: int)
    returns (first: Result<Option<Content>>, second: Result<Option<Content>>, entries: Entries)
    ensures first == Ok(None) && second == Ok(None)
    ensures entries == map[]
  {
    var filter := new OutputCacheFilter();
    filter.SetDuration(ttl);
    filter.SetAnonymousOnly(true);
    var store := new CacheStore();
    var request := Request(path, verb, Some(accept), true);
    var response := Response(Some(content), None);
    first := filter.OnActionExecuting(Some(request), store, now, false);
    var executed := filter.OnActionExecuted(request, response, store, now, false);
    second := filter.OnActionExecuting(Some(request), store, later, false);
    executed := filter.OnActionExecuted(request, response, store, later, false);
    entries := store.entries;
  }

  /** The key is only set by eligible requests and never cleared: once a GET's
      entry has expired, any other request through the same filter, a POST
      say, is recorded under the GET's key, and the next GET is served that
      request's response. */
  method StaleKeyReuse(getPath: string, accept: string, getBody: string,
                       otherPath: string, otherVerb: string, otherAccept: string,
                       otherBody: string, otherType: string,
                       ttl: Int32, now: int, afterExpiry: int)
    returns (other: Result<Option<Content>>, keyAfterOther: string, served: Result<Option<Content>>)
    requires ttl > 0 && !IsGet(otherVerb) && afterExpiry >= now + ttl as int
    ensures other == Ok(None)
    ensures keyAfterOther == BuildKey(getPath, accept)
    ensures served == Ok(Some(Content(otherBody, Some(otherType))))
  {
    var filter := new OutputCacheFilter();
    filter.SetDuration(ttl);
    var store := new CacheStore();
    var get := Request(getPath, "GET", Some(accept), false);
    assert Lower("GET") == "get";
    var request := Request(otherPath, otherVerb, Some(otherAccept), false);
    var r := filter.OnActionExecuting(Some(get), store, now, false);
    var key := filter.cacheKey;
    ContentTypeKeyDiffers(key);
    var e := filter.OnActionExecuted(get, Response(Some(Content(getBody, Some(accept))), None), store, now, false);
    other := filter.OnActionExecuting(Some(request), store, afterExpiry, false);
    keyAfterOther := filter.cacheKey;
    var before := store.entries;
    e := filter.OnActionExecuted(request, Response(Some(Content(otherBody, Some(otherType))), None), store, afterExpiry, false);
    RecordThenLookup(before, key, ttl, otherBody, otherType, afterExpiry, afterExpiry);
    served := filter.OnActionExecuting(Some(get), store, afterExpiry, false);
  }

  /** A response without a content type is recorded without its paired entry
      (the second `Add` throws); the next request then takes its content type
      from the key, and with a ':' in the path that is the path's second field,
      whatever the Accept value. */
  method MissingContentType(path: string, verb: string, accept: string, body: string,
                            ttl: Int32, now: int, later: int)
    returns (executed: Result<Response>, served: Result<Option<Content>>)
    requires IsGet(verb) && ttl > 0 && now <= later < now + ttl as int
    requires ':' in path
    ensures executed == Err(NullContentType)
    ensures |Split(path, ':')| >= 2
    ensures served == Ok(Some(Content(body, Some(Split(path, ':')[1]))))
  {
    var filter := new OutputCacheFilter();
    filter.SetDuration(ttl);
    var store := new CacheStore();
    var request := Request(path, verb, Some(accept), false);
    var r := filter.OnActionExecuting(Some(request), store, now, false);
    var key := filter.cacheKey;
    ContentTypeKeyDiffers(key);
    executed := filter.OnActionExecuted(request, Response(Some(Content(body, None)), None), store, now, false);
    FallbackWithColonInPath(path, accept, accept);
    served := filter.OnActionExecuting(Some(request), store, later, false);
  }
}
