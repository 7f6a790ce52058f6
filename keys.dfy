/** The cache key and the content type read back out of it. */
module Keys {
  import opened Text

  /** The key joins the request's path and query with its first Accept value. */
  function BuildKey(pathAndQuery: string, accept: string): (key: string)
    ensures ':' in key
    ensures !IsBlank(key)
  {
    Join([pathAndQuery, accept], ':')
  }

  /** The key is the path and query, a ':' and the Accept value. */
  lemma KeyText(pathAndQuery: string, accept: string)
    ensures BuildKey(pathAndQuery, accept) == pathAndQuery + [':'] + accept
  {
    var fields := [pathAndQuery, accept];
    assert fields[0] == pathAndQuery && fields[1..] == [accept];
    assert Join(fields[1..], ':') == accept;
  }

  /** The fields of a key are those of its path followed by those of its
      Accept value. */
  lemma KeyFields(pathAndQuery: string, accept: string)
    ensures Split(BuildKey(pathAndQuery, accept), ':') == Split(pathAndQuery, ':') + Split(accept, ':')
  {
    KeyText(pathAndQuery, accept);
    SplitAppend(pathAndQuery, accept, ':');
  }

  /** With no ':' in either part, splitting the key gives back the path and
      the Accept value. */
  lemma KeyRoundTrip(pathAndQuery: string, accept: string)
    requires ':' !in pathAndQuery && ':' !in accept
    ensures Split(BuildKey(pathAndQuery, accept), ':') == [pathAndQuery, accept]
  {
    SplitJoin([pathAndQuery, accept], ':');
  }

  /** The request "/items?page=1" with Accept "application/json". */
  lemma KeyExample()
    ensures BuildKey("/items?page=1", "application/json") == "/items?page=1:application/json"
  {
  }

  /** The key of the entry holding a cached response's content type. */
  function ContentTypeKey(key: string): (ctKey: string)
    ensures |ctKey| > |key| && ctKey[..|key|] == key
  {
    key + ":response-ct"
  }

  /** `key.Split(':')[1]`: the second field of the key. */
  function FallbackContentType(key: string): (mediaType: string)
    requires ':' in key
    ensures ':' !in mediaType
  {
    SplitAtSeparator(key, ':');
    Split(key, ':')[1]
  }

  /** With no ':' in the path, the fallback is the Accept value up to its
      first ':', so the whole Accept value exactly when it holds no ':'. */
  lemma FallbackWithPlainPath(pathAndQuery: string, accept: string)
    requires ':' !in pathAndQuery
    ensures FallbackContentType(BuildKey(pathAndQuery, accept)) == Split(accept, ':')[0]
    ensures FallbackContentType(BuildKey(pathAndQuery, accept)) == accept <==> ':' !in accept
  {
    KeyFields(pathAndQuery, accept);
    SplitWithoutSeparator(pathAndQuery, ':');
    var fallback := FallbackContentType(BuildKey(pathAndQuery, accept));
    if ':' !in accept {
      SplitWithoutSeparator(accept, ':');
    } else {
      assert ':' !in fallback;
    }
  }

  /** With a ':' in the path, the fallback is the path's second field: it
      does not depend on the Accept value at all. */
  lemma FallbackWithColonInPath(pathAndQuery: string, accept: string, otherAccept: string)
    requires ':' in pathAndQuery
    ensures |Split(pathAndQuery, ':')| >= 2
    ensures FallbackContentType(BuildKey(pathAndQuery, accept)) == Split(pathAndQuery, ':')[1]
    ensures FallbackContentType(BuildKey(pathAndQuery, accept))
         == FallbackContentType(BuildKey(pathAndQuery, otherAccept))
  {
    KeyFields(pathAndQuery, accept);
    KeyFields(pathAndQuery, otherAccept);
    SplitAtSeparator(pathAndQuery, ':');
  }

  /** For the request "/files/a:b" with Accept "text/plain" the fallback is "b". */
  lemma FallbackWrongSegmentExample()
    ensures FallbackContentType(BuildKey("/files/a:b", "text/plain")) == "b"
  {
    assert "/files/a:b" == "/files/a" + [':'] + "b";
    SplitAppend("/files/a", "b", ':');
    SplitWithoutSeparator("/files/a", ':');
    SplitWithoutSeparator("b", ':');
    FallbackWithColonInPath("/files/a:b", "text/plain", "text/plain");
  }

  /** Without a ':' in either path, equal keys mean equal requests. */
  lemma KeyInjective(path1: string, accept1: string, path2: string, accept2: string)
    requires ':' !in path1 && ':' !in path2
    requires BuildKey(path1, accept1) == BuildKey(path2, accept2)
    ensures path1 == path2 && accept1 == accept2
  {
    SplitWithoutSeparator(path1, ':');
    SplitWithoutSeparator(path2, ':');
    KeyFields(path1, accept1);
    KeyFields(path2, accept2);
    var fields1 := Split(BuildKey(path1, accept1), ':');
    assert fields1[0] == path1;
    var key := BuildKey(path1, accept1);
    KeyText(path1, accept1);
    KeyText(path2, accept2);
    assert accept1 == key[|path1| + 1..];
  }

  /** A ':' in the path lets two different requests share a key: moving the
      path's last field into the Accept value gives the same key. */
  lemma KeyCollision(path: string, field: string, accept: string)
    ensures path + [':'] + field != path
    ensures BuildKey(path + [':'] + field, accept) == BuildKey(path, field + [':'] + accept)
  {
    assert |path + [':'] + field| > |path|;
    KeyText(path + [':'] + field, accept);
    KeyText(path, field + [':'] + accept);
    assert (path + [':'] + field) + [':'] + accept == path + [':'] + (field + [':'] + accept);
  }
}
