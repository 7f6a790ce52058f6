/** The shared `MemoryCache`: entries with an absolute expiry, read and
    written by the filter's two hooks. */
module Store {
  import opened Common
  import opened Text
  import opened Keys

  /** What the filter caches: a response body (a `string`) or a content type
      (a `MediaTypeHeaderValue`, kept here as its text). */
  datatype CachedValue = BodyText(text: string) | MediaType(name: string)

  datatype Entry = Entry(value: CachedValue, expiresAt: int)

  type Entries = map<string, Entry>

  /** A response's content: its body and its `Content-Type`, if any. */
  datatype Content = Content(body: string, contentType: Option<string>)

  /** `Contains`: the key holds an entry that has not yet expired. */
  function Live(entries: Entries, key: string, now: int): (live: bool)
    ensures key !in entries ==> !live
    // an entry is gone from its expiry on
    ensures key in entries && entries[key].expiresAt <= now ==> !live
    ensures key in entries && now < entries[key].expiresAt ==> live
  {
    key in entries && now < entries[key].expiresAt
  }

  /** `Get`: the value of a live entry, null otherwise. */
  function ValueAt(entries: Entries, key: string, now: int): (v: Option<CachedValue>)
    ensures v.Some? <==> Live(entries, key, now)
    ensures v.Some? ==> v.value == entries[key].value
  {
    if Live(entries, key, now) then Some(entries[key].value) else None
  }

  /** `Add`: store the entry unless a live one is there; an expired entry is
      replaced. */
  function AddIfAbsent(entries: Entries, key: string, value: CachedValue, expiresAt: int, now: int): (r: Entries)
    ensures r.Keys == entries.Keys + {key}
    ensures forall k :: k in entries && k != key ==> r[k] == entries[k]
    ensures Live(entries, key, now) ==> r[key] == entries[key]
    ensures !Live(entries, key, now) ==> r[key] == Entry(value, expiresAt)
  {
    if Live(entries, key, now) then entries else entries[key := Entry(value, expiresAt)]
  }

  /** The read of `OnActionExecuting`: `Ok(None)` is a miss, `Ok(Some(c))` the
      cached response to serve. */
  function Lookup(entries: Entries, key: string, now: int): (r: Result<Option<Content>>)
    requires ':' in key
    // a miss exactly when no live string is stored under the key
    ensures r == Ok(None) <==> !(Live(entries, key, now) && entries[key].value.BodyText?)
    // a hit serves the stored body with a content type
    ensures r.Ok? && r.value.Some? ==>
      && Live(entries, key, now) && entries[key].value.BodyText?
      && r.value.value.body == entries[key].value.text
      && r.value.value.contentType.Some?
    // the content type is the paired entry's, or else the key's second field
    ensures r.Ok? && r.value.Some? && !Live(entries, ContentTypeKey(key), now) ==>
      r.value.value.contentType == Some(FallbackContentType(key))
    ensures r.Ok? && r.value.Some? && Live(entries, ContentTypeKey(key), now) ==>
      entries[ContentTypeKey(key)].value.MediaType? &&
      r.value.value.contentType == Some(entries[ContentTypeKey(key)].value.name)
    // a string stored as the paired entry cannot be cast to a media type
    ensures r.Err? <==>
      && Live(entries, key, now) && entries[key].value.BodyText?
      && Live(entries, ContentTypeKey(key), now) && entries[ContentTypeKey(key)].value.BodyText?
    ensures r.Err? ==> r.error == ContentTypeCast
  {
    match ValueAt(entries, key, now)
    case None => Ok(None)
    case Some(MediaType(_)) => Ok(None)
    case Some(BodyText(body)) =>
      match ValueAt(entries, ContentTypeKey(key), now)
      case None => Ok(Some(Content(body, Some(FallbackContentType(key)))))
      case Some(MediaType(m)) => Ok(Some(Content(body, Some(m))))
      case Some(BodyText(_)) => Err(ContentTypeCast)
  }

  /** The entries after the write of `OnActionExecuted`, and the exception it
      raised, if any. */
  datatype Recorded = Recorded(entries: Entries, failure: Option<Failure>)

  /** The write of `OnActionExecuted`: under a non-blank key that holds no live
      entry, the body and then the content type, both expiring `ttl` seconds
      from `now`. */
  function Record(entries: Entries, key: string, ttl: Int32, content: Option<Content>, now: int): (r: Recorded)
    // nothing is written under a live or blank key
    ensures Live(entries, key, now) || IsBlank(key) ==> r == Recorded(entries, None)
    ensures !Live(entries, key, now) && !IsBlank(key) && content.None? ==>
      r == Recorded(entries, Some(NullResponseContent))
    // otherwise the body is written; the content type too, when there is one
    ensures !Live(entries, key, now) && !IsBlank(key) && content.Some? ==>
      && key in r.entries
      && r.entries[key] == Entry(BodyText(content.value.body), now + ttl as int)
      && (content.value.contentType.None? ==>
            r.failure == Some(NullContentType)
            && r.entries == entries[key := Entry(BodyText(content.value.body), now + ttl as int)])
      && (content.value.contentType.Some? ==> r.failure == None && ContentTypeKey(key) in r.entries)
      && (content.value.contentType.Some? && !Live(entries, ContentTypeKey(key), now) ==>
            r.entries[ContentTypeKey(key)] == Entry(MediaType(content.value.contentType.value), now + ttl as int))
    // no live entry is ever overwritten
    ensures forall k :: Live(entries, k, now) ==> k in r.entries && r.entries[k] == entries[k]
    // no other key is touched
    ensures forall k :: k != key && k != ContentTypeKey(key) ==>
      (k in r.entries <==> k in entries) && (k in entries ==> r.entries[k] == entries[k])
  {
    if Live(entries, key, now) || IsBlank(key) then Recorded(entries, None)
    else if content.None? then Recorded(entries, Some(NullResponseContent))
    else
      var expiresAt := now + ttl as int;
      var withBody := AddIfAbsent(entries, key, BodyText(content.value.body), expiresAt, now);
      if content.value.contentType.None? then Recorded(withBody, Some(NullContentType))
      else Recorded(AddIfAbsent(withBody, ContentTypeKey(key), MediaType(content.value.contentType.value), expiresAt, now), None)
  }

  /** A response recorded under a fresh key is served back, with its content
      type, until it expires. */
  lemma RecordThenLookup(entries: Entries, key: string, ttl: Int32, body: string, mediaType: string, now: int, later: int)
    requires ':' in key
    requires !Live(entries, key, now) && !Live(entries, ContentTypeKey(key), now)
    requires now <= later < now + ttl as int
    ensures var r := Record(entries, key, ttl, Some(Content(body, Some(mediaType))), now);
      r.failure == None && Lookup(r.entries, key, later) == Ok(Some(Content(body, Some(mediaType))))
  {
    ContentTypeKeyDiffers(key);
  }

  /** Once the recorded response has expired, the key is a miss again. */
  lemma RecordExpires(entries: Entries, key: string, ttl: Int32, content: Content, now: int, later: int)
    requires ':' in key
    requires !Live(entries, key, now)
    requires later >= now + ttl as int
    ensures Lookup(Record(entries, key, ttl, Some(content), now).entries, key, later) == Ok(None)
  {
  }

  /** First writer wins: a second response recorded under the key while the
      first is live leaves the cache as the first left it. */
  lemma FirstWriterWins(entries: Entries, key: string, ttl1: Int32, first: Content, now1: int,
                        ttl2: Int32, second: Option<Content>, now2: int)
    requires ':' in key
    requires !Live(entries, key, now1)
    requires now1 <= now2 < now1 + ttl1 as int
    ensures var r1 := Record(entries, key, ttl1, Some(first), now1);
      Record(r1.entries, key, ttl2, second, now2) == Recorded(r1.entries, None)
  {
  }

  /** A key and its content-type key are different entries. */
  lemma ContentTypeKeyDiffers(key: string)
    ensures ContentTypeKey(key) != key
  {
    assert |ContentTypeKey(key)| > |key|;
  }

  /** The shared cache instance. */
  class CacheStore {
    var entries: Entries

    constructor ()
      ensures entries == map[]
    {
      entries := map[];
    }

    method Contains(key: string, now: int) returns (present: bool)
      ensures present == Live(entries, key, now)
    {
      present := key in entries && now < entries[key].expiresAt;
    }

    method Get(key: string, now: int) returns (v: Option<CachedValue>)
      ensures v == ValueAt(entries, key, now)
    {
      if key in entries && now < entries[key].expiresAt {
        v := Some(entries[key].value);
      } else {
        v := None;
      }
    }

    /** Returns whether the entry was stored. */
    method Add(key: string, value: CachedValue, expiresAt: int, now: int) returns (added: bool)
      modifies this
      ensures added == !Live(old(entries), key, now)
      ensures entries == AddIfAbsent(old(entries), key, value, expiresAt, now)
    {
      added := !(key in entries && now < entries[key].expiresAt);
      if added {
        entries := entries[key := Entry(value, expiresAt)];
      }
    }
  }
}
