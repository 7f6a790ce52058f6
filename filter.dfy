/** `WebApiOutputCacheAttribute`: an action filter that serves repeated GET
    requests from the shared cache and records the responses it lets through. */
module Filter {
  import opened Common
  import opened Text
  import opened Policy
  import opened Profiles
  import opened Keys
  import opened Store

  /** What the hooks read of the request: `RequestUri.PathAndQuery`, the
      method, the first `Accept` value (`None` when there is none) and whether
      the current principal is authenticated. */
  datatype Request = Request(pathAndQuery: string, verb: string, accept: Option<string>, isAuthenticated: bool)

  /** The executed action's response: its content, if any, and its
      `Cache-Control` header, if any. */
  datatype Response = Response(content: Option<Content>, cacheControl: Option<CacheControl>)

  class OutputCacheFilter {
    /** `Duration`: server-side lifetime in seconds. */
    var timespan: Int32
    /** `ClientTimeSpan`: client-side lifetime in seconds. */
    var clientTimeSpan: Int32
    var anonymousOnly: bool
    /** The key computed by the last eligible `OnActionExecuting`. */
    var cacheKey: string
    var profile: Option<Profile>
    var disableInDebugMode: bool

    constructor ()
      ensures timespan == 0 && clientTimeSpan == 0 && !anonymousOnly
      ensures cacheKey == "" && profile == None && !disableInDebugMode
    {
      timespan, clientTimeSpan, anonymousOnly := 0, 0, false;
      cacheKey, profile, disableInDebugMode := "", None, false;
    }

    /** The fields a profile may change. */
    function ProfileConfig(): Config
      reads this
    {
      Config(timespan, clientTimeSpan, profile)
    }

    /** The `Duration` setter. */
    method SetDuration(seconds: Int32)
      modifies this`timespan
      ensures timespan == seconds
    {
      timespan := seconds;
    }

    /** The `ClientTimeSpan` setter. */
    method SetClientTimeSpan(seconds: Int32)
      modifies this`clientTimeSpan
      ensures clientTimeSpan == seconds
    {
      clientTimeSpan := seconds;
    }

    /** The `AnonymousOnly` setter. */
    method SetAnonymousOnly(value: bool)
      modifies this`anonymousOnly
      ensures anonymousOnly == value
    {
      anonymousOnly := value;
    }

    /** The `DisableInDebugMode` setter. */
    method SetDisableInDebugMode(value: bool)
      modifies this`disableInDebugMode
      ensures disableInDebugMode == value
    {
      disableInDebugMode := value;
    }

    /** `SetOutputCacheProfile`, run by the `CacheProfile` setter; `settings`
        is the configuration section, `None` when it is absent. */
    method SetCacheProfile(name: string, settings: Option<ProfileTable>) returns (outcome: Outcome)
      modifies this`timespan, this`clientTimeSpan, this`profile
      ensures ApplyProfile(old(ProfileConfig()), name, settings).Ok? ==>
        outcome == Pass && ProfileConfig() == ApplyProfile(old(ProfileConfig()), name, settings).value
      ensures ApplyProfile(old(ProfileConfig()), name, settings).Err? ==>
        outcome == Fail(ApplyProfile(old(ProfileConfig()), name, settings).error)
        && ProfileConfig() == old(ProfileConfig())
    {
      if profile.Some? && Lower(profile.value.name) == Lower(name) {
        return Pass;
      }
      if settings.None? {
        return Fail(ConfigurationMissing);
      }
      var table := settings.value;
      if name in table {
        profile := Some(Profile(name, table[name]));
        if timespan == 0 {
          timespan := profile.value.duration;
        }
        if clientTimeSpan == 0 {
          clientTimeSpan := profile.value.duration;
        }
        outcome := Pass;
      } else {
        outcome := Fail(ProfileNotFound(name));
      }
    }

    /** Before the action runs: `Ok(Some(c))` short-circuits the action with
        the cached content `c`, `Ok(None)` lets it run. */
    method OnActionExecuting(context: Option<Request>, store: CacheStore, now: int, debugBuild: bool)
      returns (r: Result<Option<Content>>)
      modifies this`cacheKey
      // switched off in debug mode: nothing is read or changed
      ensures DebugModeDisabled(debugBuild, disableInDebugMode) ==>
        r == Ok(None) && cacheKey == old(cacheKey)
      ensures !DebugModeDisabled(debugBuild, disableInDebugMode) && context.None? ==>
        r == Err(NullContext) && cacheKey == old(cacheKey)
      // an ineligible request keeps the previous key
      ensures !DebugModeDisabled(debugBuild, disableInDebugMode) && context.Some? &&
              !Gate(timespan, context.value.verb, anonymousOnly, context.value.isAuthenticated) ==>
        r == Ok(None) && cacheKey == old(cacheKey)
      ensures !DebugModeDisabled(debugBuild, disableInDebugMode) && context.Some? &&
              Gate(timespan, context.value.verb, anonymousOnly, context.value.isAuthenticated) &&
              context.value.accept.None? ==>
        r == Err(NullAcceptHeader) && cacheKey == old(cacheKey)
      // an eligible request sets the key and is answered by the cache lookup
      ensures !DebugModeDisabled(debugBuild, disableInDebugMode) && context.Some? &&
              Gate(timespan, context.value.verb, anonymousOnly, context.value.isAuthenticated) &&
              context.value.accept.Some? ==>
        cacheKey == BuildKey(context.value.pathAndQuery, context.value.accept.value)
        && r == Lookup(store.entries, cacheKey, now)
    {
      if DebugModeDisabled(debugBuild, disableInDebugMode) {
        return Ok(None);
      }
      if context.None? {
        return Err(NullContext);
      }
      var request := context.value;
      if Gate(timespan, request.verb, anonymousOnly, request.isAuthenticated) {
        if request.accept.None? {
          return Err(NullAcceptHeader);
        }
        cacheKey := BuildKey(request.pathAndQuery, request.accept.value);
        var present := store.Contains(cacheKey, now);
        if present {
          var cached := store.Get(cacheKey, now);
          if cached.Some? && cached.value.BodyText? {
            var typeEntry := store.Get(ContentTypeKey(cacheKey), now);
            var contentType: string;
            if typeEntry.None? {
              contentType := FallbackContentType(cacheKey);
            } else if typeEntry.value.BodyText? {
              return Err(ContentTypeCast);
            } else {
              contentType := typeEntry.value.name;
            }
            return Ok(Some(Content(cached.value.text, Some(contentType))));
          }
        }
      }
      return Ok(None);
    }

    /** After the action ran: record its response under the last computed key
        and, when the client lifetime is eligible, add the client cache header. */
    method OnActionExecuted(request: Request, response: Response, store: CacheStore, now: int, debugBuild: bool)
      returns (r: Result<Response>)
      modifies store
      // switched off in debug mode: nothing is read or changed
      ensures DebugModeDisabled(debugBuild, disableInDebugMode) ==>
        r == Ok(response) && store.entries == old(store.entries)
      // the write depends on the stored key only, not on this request's eligibility
      ensures !DebugModeDisabled(debugBuild, disableInDebugMode) ==>
        store.entries == Record(old(store.entries), cacheKey, timespan, response.content, now).entries
      ensures !DebugModeDisabled(debugBuild, disableInDebugMode) &&
              Record(old(store.entries), cacheKey, timespan, response.content, now).failure.Some? ==>
        r == Err(Record(old(store.entries), cacheKey, timespan, response.content, now).failure.value)
      // the header is set exactly when the client lifetime passes the gate
      ensures !DebugModeDisabled(debugBuild, disableInDebugMode) &&
              Record(old(store.entries), cacheKey, timespan, response.content, now).failure.None? ==>
        r == Ok(if Gate(clientTimeSpan, request.verb, anonymousOnly, request.isAuthenticated)
                then response.(cacheControl := Some(ClientCacheControl(clientTimeSpan)))
                else response)
    {
      if DebugModeDisabled(debugBuild, disableInDebugMode) {
        return Ok(response);
      }
      var present := store.Contains(cacheKey, now);
      if !present && !IsBlank(cacheKey) {
        if response.content.None? {
          return Err(NullResponseContent);
        }
        var content := response.content.value;
        var expiresAt := now + timespan as int;
        var bodyAdded := store.Add(cacheKey, BodyText(content.body), expiresAt, now);
        if content.contentType.None? {
          return Err(NullContentType);
        }
        var typeAdded := store.Add(ContentTypeKey(cacheKey), MediaType(content.contentType.value), expiresAt, now);
      }
      if Gate(clientTimeSpan, request.verb, anonymousOnly, request.isAuthenticated) {
        return Ok(response.(cacheControl := Some(ClientCacheControl(clientTimeSpan))));
      }
      return Ok(response);
    }
  }
}
