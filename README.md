# Output cache filter for ASP.NET Web API, modelled in Dafny

`WebApiOutputCacheAttribute` is a Web API action filter. Before an action
runs, it may answer a GET request from a process-wide `MemoryCache`. After
the action runs, it records the response body and content type in that
cache, and it may add a `Cache-Control: max-age=…, must-revalidate` header.
Its lifetimes are set inline (`Duration`, `ClientTimeSpan`) or from a named
`<outputCacheProfiles>` entry of the configuration.

The model has one module per concern:

- `Common`: `Option`, a 32-bit `Int32`, the filter's exceptions as `Failure`, and `Result`/`Outcome`.
- `Text`: the .NET string operations the filter relies on (`ToLower`, `IsNullOrWhiteSpace`, `Split`, `Join`).
- `Policy`: the pure decisions: the eligibility gate `_isCachingTimeValid`, the debug-mode check and the client cache header.
- `Profiles`: `SetOutputCacheProfile` as a function `ApplyProfile` over the three fields it changes.
- `Keys`: the cache key `PathAndQuery:Accept` and the content type read back from the key's second field.
- `Store`: the cache as a map from key to value and absolute expiry. An entry is visible (`Contains`/`Get`) until its expiry. `Add` never overwrites a visible entry. `Lookup` and `Record` are the read and the write of the two hooks. `CacheStore` is the shared instance, as a class.
- `Filter`: the class `OutputCacheFilter`, with the source's mutable fields and its two hooks. Each hook's `ensures` ties the new state and the result to the `Policy`, `Keys` and `Store` functions.
- `Scenarios`: request sequences run against a fresh filter and cache. They cover a repeated GET, an authenticated caller when `AnonymousOnly` is set, the reuse of a stale key, and the content-type fallback.

The inputs the filter reads from its environment are parameters:

- the configuration section is `Option<ProfileTable>`, where `None` means the section is absent;
- the request is a `Request` record holding path and query, method, first Accept value and whether the caller is authenticated;
- the clock is an integer `now`, in seconds;
- the `DEBUG` compilation symbol is `debugBuild`.

The model follows the code, which:

- builds the key without the caller's identity;
- throws on a missing Accept header (`NullAcceptHeader`);
- has no explicit disabled flag;
- does not merge a profile's `Enabled`;
- accepts a non-positive `Duration`;
- looks profile names up exactly, and ignores case only in the "already assigned" check;
- fills a lifetime from a profile only when it is exactly 0, so a negative lifetime is kept.

## Model

| member | source | states |
|---|---|---|
| Policy.Gate | WebApiOutputCacheAttribute.cs:39-51 | eligible exactly when ttl > 0, the method is GET (ignoring case) and not (anonymous-only and authenticated) |
| Policy.DebugModeDisabled | WebApiOutputCacheAttribute.cs:139-146 | true only in a DEBUG build, and there it equals `DisableInDebugMode` |
| Policy.ClientCacheControl | WebApiOutputCacheAttribute.cs:93-99 | the header's max-age is the client lifetime and must-revalidate is set |
| Text.EqualsIgnoreCase | WebApiOutputCacheAttribute.cs:103 | equal strings compare equal, and strings that compare equal have the same length |
| Text.IsWhiteSpace | WebApiOutputCacheAttribute.cs:187 | space, tab, line feed and carriage return are white space; letters, digits, ':' and '/' are not |
| Text.IsBlank | WebApiOutputCacheAttribute.cs:187 | the empty key is blank, and a key containing ':' is not |
| Text.Join | WebApiOutputCacheAttribute.cs:160 | the first field comes first, followed by the separator when more fields follow |
| Policy.IsGet | WebApiOutputCacheAttribute.cs:47 | "GET", "get" and "Get" count as GET, and a method name not three characters long does not |
| Text.Lower | WebApiOutputCacheAttribute.cs:103 | same length, each character lower-cased |
| Text.Split | WebApiOutputCacheAttribute.cs:170 | at least one field, and no field contains the separator |
| Text.SplitWithoutSeparator | WebApiOutputCacheAttribute.cs:170 | a string without the separator is its own single field |
| Text.SplitAppend | WebApiOutputCacheAttribute.cs:170 | splitting `x + sep + y` gives the fields of x followed by those of y |
| Text.SplitAtSeparator | WebApiOutputCacheAttribute.cs:170 | a string containing the separator has at least two fields, so index 1 exists |
| Text.JoinSplit | WebApiOutputCacheAttribute.cs:160-170 | joining the fields of a split gives back the string |
| Text.SplitJoin | WebApiOutputCacheAttribute.cs:160-170 | splitting a join of separator-free fields gives back the fields |
| Profiles.IsCurrentProfile | WebApiOutputCacheAttribute.cs:103 | holds only when a profile is assigned, and holds when the assigned profile has exactly the requested name |
| Profiles.ApplyProfile | WebApiOutputCacheAttribute.cs:101-123 | the assigned profile's name (ignoring case) is a no-op; it fails only when the section is absent or the exact name is missing, and each failure is named; on success the profile is assigned, and each lifetime takes the duration only if it was 0 |
| Profiles.ApplyProfileIdempotent | WebApiOutputCacheAttribute.cs:103-117 | after a successful assignment, assigning the same name again changes nothing |
| Profiles.ProfileNameCaseAsymmetry | WebApiOutputCacheAttribute.cs:103-121 | "short" is refused when only "Short" is configured, but accepted as a no-op once "Short" is assigned |
| Keys.BuildKey | WebApiOutputCacheAttribute.cs:160 | the key, the join of the path and the Accept value with ':', contains ':' and is never blank |
| Keys.KeyText | WebApiOutputCacheAttribute.cs:160 | the key is the path, a ':' and the Accept value |
| Keys.KeyRoundTrip | WebApiOutputCacheAttribute.cs:160 | with no ':' in either part, splitting the key gives back the path and the Accept value |
| Keys.KeyFields | WebApiOutputCacheAttribute.cs:160 | the key's fields are the path's fields followed by the Accept value's |
| Keys.KeyExample | WebApiOutputCacheAttribute.cs:160 | "/items?page=1" with Accept "application/json" has key "/items?page=1:application/json" |
| Keys.ContentTypeKey | WebApiOutputCacheAttribute.cs:168 | the content-type key is the body key extended |
| Keys.FallbackContentType | WebApiOutputCacheAttribute.cs:170 | the fallback is one field of the key, without ':' |
| Keys.FallbackWithPlainPath | WebApiOutputCacheAttribute.cs:160-170 | with no ':' in the path, the fallback is the Accept value up to its first ':', and equals the whole Accept value exactly when that has no ':' |
| Keys.FallbackWithColonInPath | WebApiOutputCacheAttribute.cs:160-170 | with a ':' in the path, the fallback is the path's second field, whatever the Accept value |
| Keys.FallbackWrongSegmentExample | WebApiOutputCacheAttribute.cs:170 | for "/files/a:b" with Accept "text/plain" the fallback is "b" |
| Keys.KeyInjective | WebApiOutputCacheAttribute.cs:160 | with no ':' in either path, equal keys mean equal path and Accept value |
| Keys.KeyCollision | WebApiOutputCacheAttribute.cs:160 | for arbitrary texts, the path `path:field` with Accept `accept` and the path `path` with Accept `field:accept` give the same key |
| Store.Live | WebApiOutputCacheAttribute.cs:162 | a missing key is not present, an entry is present before its expiry and gone from its expiry on |
| Store.ValueAt | WebApiOutputCacheAttribute.cs:164-168 | a value exactly for a live entry, and then the stored one |
| Store.AddIfAbsent | WebApiOutputCacheAttribute.cs:190-191 | adds the key, keeps a live entry, replaces an expired one, touches no other key |
| Store.Lookup | WebApiOutputCacheAttribute.cs:162-177 | a miss exactly when no live string is under the key; a hit serves that string with the paired entry's type, or else the key's second field; a cast error exactly when the paired entry is a string |
| Store.Record | WebApiOutputCacheAttribute.cs:187-192 | nothing is written under a live or blank key; otherwise it writes the body, then the content type, both expiring at now + ttl; it fails on missing content or a missing type, and with a missing type only the body entry is written; no live entry is overwritten and no other key is touched |
| Store.RecordThenLookup | WebApiOutputCacheAttribute.cs:162-191 | a response recorded under a fresh key is served back, body and type, until it expires |
| Store.RecordExpires | WebApiOutputCacheAttribute.cs:162-190 | after now + ttl the recorded key is a miss again |
| Store.FirstWriterWins | WebApiOutputCacheAttribute.cs:187-191 | a second write while the first is live leaves the cache unchanged |
| Store.ContentTypeKeyDiffers | WebApiOutputCacheAttribute.cs:168 | the content-type entry never shares the body entry's key |
| Store.CacheStore.constructor | WebApiOutputCacheAttribute.cs:33 | the cache starts empty |
| Store.CacheStore.Contains | WebApiOutputCacheAttribute.cs:162 | true exactly for a live entry |
| Store.CacheStore.Get | WebApiOutputCacheAttribute.cs:164 | the live entry's value, or none |
| Store.CacheStore.Add | WebApiOutputCacheAttribute.cs:190 | stores only when no live entry is there, and says whether it did |
| Filter.OutputCacheFilter.constructor | WebApiOutputCacheAttribute.cs:17-30 | lifetimes 0, not anonymous-only, empty key, no profile |
| Filter.OutputCacheFilter.SetDuration | WebApiOutputCacheAttribute.cs:75-79 | the server lifetime becomes the value |
| Filter.OutputCacheFilter.SetClientTimeSpan | WebApiOutputCacheAttribute.cs:69-73 | the client lifetime becomes the value |
| Filter.OutputCacheFilter.SetAnonymousOnly | WebApiOutputCacheAttribute.cs:57-61 | the anonymous-only flag becomes the value |
| Filter.OutputCacheFilter.SetDisableInDebugMode | WebApiOutputCacheAttribute.cs:87 | the debug-mode switch becomes the value |
| Filter.OutputCacheFilter.SetCacheProfile | WebApiOutputCacheAttribute.cs:101-123 | the three fields become `ApplyProfile`'s result; on failure they stay as they were and the failure is returned |
| Filter.OutputCacheFilter.OnActionExecuting | WebApiOutputCacheAttribute.cs:150-180 | when disabled in debug mode, nothing changes; a null context or a missing Accept throws; an ineligible request keeps the old key; an eligible one sets the key and is answered by `Lookup` |
| Filter.OutputCacheFilter.OnActionExecuted | WebApiOutputCacheAttribute.cs:182-196 | when disabled in debug mode, nothing changes; the cache becomes `Record` under the stored key, whatever this request's eligibility; the header is set exactly when the client lifetime passes the gate |
| Scenarios.RepeatedGet | WebApiOutputCacheAttribute.cs:150-196 | a GET runs once, is recorded without a client header, and is served from the cache while its entry lives |
| Scenarios.AnonymousOnlyAuthenticated | WebApiOutputCacheAttribute.cs:39-51 | an authenticated caller under anonymous-only is never cached |
| Scenarios.StaleKeyReuse | WebApiOutputCacheAttribute.cs:158-192 | after a GET's entry expires, a non-GET request is recorded under the GET's key, and the next GET is served that response |
| Scenarios.MissingContentType | WebApiOutputCacheAttribute.cs:168-191 | a response without a content type is stored without its paired entry; it is then served with the path's second field as its type |

## Left out

- `MemoryCache` internals: memory limits, eviction and its sweep are not modelled. An entry is visible until its absolute expiry and invisible afterwards, whatever the reason.
- Time is an integer number of seconds, and each hook reads the clock once: one `now` serves every cache call of that hook. The source's cache checks the clock again in each `Contains` and `Get` (:162, :164, :168), and the filter reads `DateTime.Now` again for each `Add` (:190, :191). An `AddSeconds` result outside the `DateTime` range is not modelled.
- Configuration loading (`WebConfigurationManager.GetSection`, the `OutputCacheProfile` classes) is replaced by an optional map from profile name to `duration`. Profile attributes other than `duration` are not read by the filter.
- The current principal is the `isAuthenticated` field of the request. A principal or identity that is null is not modelled.
- HTTP objects are plain records: `CreateResponse`, `StringContent` and `CacheControlHeaderValue`. The header is not rendered as text.
- `MediaTypeHeaderValue` parsing is left out. The fallback content type is the text of the key's second field. The `FormatException` that the constructor raises for text that is not a media type is not modelled.
- `ReadAsStringAsync().Result` is the body string of the response content.
- An executed context with no response (the action threw) is not modelled. Neither is a null `cacheProfileName` or a null context passed to `OnActionExecuted`.
- Concurrency on the shared cache and on the shared `_cachekey` field is left out: the model is sequential.
- Whether the host calls `OnActionExecuted` after a short-circuit is host behaviour. The scenarios call it only when the action ran.
- The `Enabled` property only throws `NotImplementedException`, and it is not modelled. The commented-out `SetTimeSpan` is not modelled either.
- `#if DEBUG` is the `debugBuild` parameter.
- The property getters just read the fields, which the model exposes directly.
- Keys.KeyCollision: the Accept value is unconstrained text here. The media-type grammar of a parsed Accept header is not modelled, and it would rule out the Accept values this collision needs.
- Text.Lower: folds only the ASCII letters. .NET's culture-sensitive `ToLower`, and the case-insensitive method comparison in `Policy.IsGet`, also fold other letters.
