/** What one `_make_request` call promises: the headers and body it sends,
    the quota it decrements, the cache it reads and writes, and what it
    returns. Each lemma is about the functions `BuildRequest` and `Call`
    that the class's methods are proved to follow. */
module ClientProperties {
  import opened Wrappers
  import opened Strings
  import opened Json
  import opened Utf8
  import opened JsonDumps
  import opened Faults
  import opened RateLimits
  import opened Errors
  import opened Decipher
  import opened Client

  /** Every request identifies the requester, carries the bearer token and
      asks for JSON, and goes to the resolved URL with the caller's verb. */
  lemma RequestIdentifiesClient(requester: string, token: string, cache: Option<Cache>,
                                verb: string, url: string, data: Payload)
    ensures var r := BuildRequest(requester, token, cache, verb, url, data);
      && r.verb == verb && r.url == FormatUrl(url)
      && "user-agent" in r.headers && r.headers["user-agent"] == requester
      && "authorization" in r.headers && r.headers["authorization"] == "bearer " + token
      && "accept" in r.headers && r.headers["accept"] == "application/json"
  {
  }

  /** No body: an empty body, `content-length: 0` and no `content-type`. */
  lemma EmptyBodyRequest(requester: string, token: string, cache: Option<Cache>, verb: string, url: string)
    ensures var r := BuildRequest(requester, token, cache, verb, url, NoBody);
      && r.body == []
      && "content-length" in r.headers && r.headers["content-length"] == "0"
      && "content-type" !in r.headers
  {
  }

  /** A JSON body: the UTF-8 bytes of `json.dumps(data)`, one per character,
      announced as JSON in UTF-8 with a `content-length` that reads back as
      the byte count; such a request is never conditional. */
  lemma JsonBodyRequest(requester: string, token: string, cache: Option<Cache>, verb: string, url: string, j: Json)
    ensures var r := BuildRequest(requester, token, cache, verb, url, Data(j));
      && r.body == Encode(Dumps(j)) && |r.body| == |Dumps(j)|
      && "content-type" in r.headers && r.headers["content-type"] == JsonContentType
      && "content-length" in r.headers && r.headers["content-length"] == IntToString(|r.body|)
      && ParseInt(r.headers["content-length"]) == Some(|r.body|)
      && "if-none-match" !in r.headers && "if-modified-since" !in r.headers
  {
    ParseIntOfIntToString(|Encode(Dumps(j))|);
  }

  /** The conditional headers are present exactly when a cacheable request
      hits an entry that stored the corresponding value, and carry it. */
  lemma ConditionalHeaders(requester: string, token: string, cache: Option<Cache>,
                           verb: string, url: string, data: Payload)
    ensures var r := BuildRequest(requester, token, cache, verb, url, data);
      var hit := CacheHit(verb, data, cache, r.url);
      && ("if-none-match" in r.headers <==> hit.Some? && hit.value.etag.Some?)
      && ("if-none-match" in r.headers ==> r.headers["if-none-match"] == hit.value.etag.value)
      && ("if-modified-since" in r.headers <==> hit.Some? && hit.value.lastModified.Some?)
      && ("if-modified-since" in r.headers ==> r.headers["if-modified-since"] == hit.value.lastModified.value)
  {
  }

  /** The request carries these headers and no others. */
  lemma RequestHeaderNames(requester: string, token: string, cache: Option<Cache>,
                           verb: string, url: string, data: Payload)
    ensures var r := BuildRequest(requester, token, cache, verb, url, data);
      var hit := CacheHit(verb, data, cache, r.url);
      r.headers.Keys
        == {"user-agent", "authorization", "accept", "content-length"}
         + (if data.Data? then {"content-type"} else {})
         + (if hit.Some? && hit.value.etag.Some? then {"if-none-match"} else {})
         + (if hit.Some? && hit.value.lastModified.Some? then {"if-modified-since"} else {})
  {
  }

  /** Resolving a URL that is already resolved changes nothing. */
  lemma FormatUrlIdempotent(url: string)
    ensures FormatUrl(FormatUrl(url)) == FormatUrl(url)
  {
  }

  /** The transport's answer to the request the call builds. */
  function ResponseFor(send: Transport, requester: string, token: string, cache: Option<Cache>,
                       verb: string, url: string, data: Payload): (r: Result<Response, Fault>)
  {
    send(BuildRequest(requester, token, cache, verb, url, data))
  }

  /** The cache entry the call's request finds, if any. */
  function HitFor(cache: Option<Cache>, verb: string, url: string, data: Payload): (hit: Option<CacheEntry>) {
    CacheHit(verb, data, cache, FormatUrl(url))
  }

  /** The call is answered 304 and found a cache entry, so it returns the
      entry's body without deciphering the response. */
  predicate ServedFromCache(send: Transport, requester: string, token: string, cache: Option<Cache>,
                            verb: string, url: string, data: Payload)
  {
    var answer := ResponseFor(send, requester, token, cache, verb, url, data);
    answer.Success? && answer.value.status == NotModified && HitFor(cache, verb, url, data).Some?
  }

  /** An exception of the session propagates unchanged; the snapshot stays
      decremented and the cache as it was. */
  lemma TransportFailure(phrases: PhraseTable, requester: string, token: string,
                         rateLimit: Option<RateLimit>, cache: Option<Cache>,
                         verb: string, url: string, data: Payload, send: Transport, now: int)
    requires ResponseFor(send, requester, token, cache, verb, url, data).Failure?
    ensures Call(phrases, requester, token, rateLimit, cache, verb, url, data, send, now)
         == Outcome(Decremented(rateLimit), cache,
                    Failure(Unhandled(ResponseFor(send, requester, token, cache, verb, url, data).error)))
  {
  }

  /** A 304 to a request that found a cache entry returns the cached body,
      whatever the response's body, leaves the cache as it was and keeps the
      decremented snapshot. */
  lemma NotModifiedServesCache(phrases: PhraseTable, requester: string, token: string,
                               rateLimit: Option<RateLimit>, cache: Option<Cache>,
                               verb: string, url: string, data: Payload, send: Transport, now: int)
    requires HitFor(cache, verb, url, data).Some?
    requires var answer := ResponseFor(send, requester, token, cache, verb, url, data);
      answer.Success? && answer.value.status == NotModified
    ensures var o := Call(phrases, requester, token, rateLimit, cache, verb, url, data, send, now);
      && o.result == Success(cache.value[FormatUrl(url)].body)
      && o.cache == cache
      && o.rateLimit == Decremented(rateLimit)
  {
  }

  /** A 304 without a cache entry is deciphered: its body, usually empty,
      fails to decode (JSONDecodeError); a 304 carrying a JSON body raises
      RedirectionException with status 304 (or ValueError if the status
      table lacks 304). */
  lemma NotModifiedWithoutEntry(phrases: PhraseTable, requester: string, token: string,
                                rateLimit: Option<RateLimit>, cache: Option<Cache>,
                                verb: string, url: string, data: Payload, send: Transport, now: int)
    requires HitFor(cache, verb, url, data).None?
    requires var answer := ResponseFor(send, requester, token, cache, verb, url, data);
      answer.Success? && answer.value.status == NotModified
    ensures var body := ResponseFor(send, requester, token, cache, verb, url, data).value.body;
      var o := Call(phrases, requester, token, rateLimit, cache, verb, url, data, send, now);
      && o.result.Failure? && o.cache == cache && o.rateLimit == Decremented(rateLimit)
      && (body.None? ==> o.result.error == Unhandled(JSONDecodeError))
      && (body.Some? && phrases(NotModified).Some? ==>
            o.result.error.IsRedirection() && o.result.error.Status() == NotModified)
      && (body.Some? && phrases(NotModified).None? ==> o.result.error == Unhandled(ValueError))
  {
  }

  /** A response whose body is not a JSON document (the empty body of a
      204, say) raises JSONDecodeError whatever its status, unless it is a
      304 served from the cache; the snapshot stays decremented. */
  lemma UndecodableBody(phrases: PhraseTable, requester: string, token: string,
                        rateLimit: Option<RateLimit>, cache: Option<Cache>,
                        verb: string, url: string, data: Payload, send: Transport, now: int)
    requires var answer := ResponseFor(send, requester, token, cache, verb, url, data);
      answer.Success? && answer.value.body.None?
    requires !ServedFromCache(send, requester, token, cache, verb, url, data)
    ensures Call(phrases, requester, token, rateLimit, cache, verb, url, data, send, now)
         == Outcome(Decremented(rateLimit), cache, Failure(Unhandled(JSONDecodeError)))
  {
  }

  /** Apart from a 304 served from the cache, an answered call returns
      exactly what deciphering the response gives: the decoded body
      unchanged, or the error. */
  lemma ResultIsDeciphered(phrases: PhraseTable, requester: string, token: string,
                           rateLimit: Option<RateLimit>, cache: Option<Cache>,
                           verb: string, url: string, data: Payload, send: Transport, now: int)
    requires ResponseFor(send, requester, token, cache, verb, url, data).Success?
    requires !ServedFromCache(send, requester, token, cache, verb, url, data)
    ensures var response := ResponseFor(send, requester, token, cache, verb, url, data).value;
      var d := DecipherResponse(phrases, response.status, response.headers, response.body, now);
      var o := Call(phrases, requester, token, rateLimit, cache, verb, url, data, send, now);
      && (o.result.Success? <==> d.Success?)
      && (o.result.Success? ==> response.body.Some? && o.result.value == response.body.value)
      && (o.result.Failure? ==> o.result.error == d.error)
  {
  }

  /** The snapshot after a call: replaced by the one read from the response
      headers (possibly none) on success; on any exception, or on a 304
      served from the cache, the pre-decremented snapshot stays. */
  lemma RateLimitAfterCall(phrases: PhraseTable, requester: string, token: string,
                           rateLimit: Option<RateLimit>, cache: Option<Cache>,
                           verb: string, url: string, data: Payload, send: Transport, now: int)
    ensures var answer := ResponseFor(send, requester, token, cache, verb, url, data);
      var servedFromCache := ServedFromCache(send, requester, token, cache, verb, url, data);
      var o := Call(phrases, requester, token, rateLimit, cache, verb, url, data, send, now);
      && (servedFromCache || o.result.Failure? ==> o.rateLimit == Decremented(rateLimit))
      && (!servedFromCache && o.result.Success? ==>
            answer.Success? && o.rateLimit == FromHttp(answer.value.headers).value)
  {
  }

  /** A call never configures or removes the cache, changes it only after a
      successful cacheable request whose response carries `etag` or
      `last-modified`, and then only by (over)writing the entry of the
      resolved URL with the response's validators and decoded body. */
  lemma CacheWrites(phrases: PhraseTable, requester: string, token: string,
                    rateLimit: Option<RateLimit>, cache: Option<Cache>,
                    verb: string, url: string, data: Payload, send: Transport, now: int)
    ensures var o := Call(phrases, requester, token, rateLimit, cache, verb, url, data, send, now);
      o.cache.Some? == cache.Some?
    ensures var answer := ResponseFor(send, requester, token, cache, verb, url, data);
      var o := Call(phrases, requester, token, rateLimit, cache, verb, url, data, send, now);
      o.cache != cache ==>
        && answer.Success? && IsCacheable(verb, data, cache) && o.result.Success?
        && HasCacheDetails(answer.value.headers)
        && o.cache.value == cache.value[FormatUrl(url) := CacheEntry(HeaderGet(answer.value.headers, "etag"),
                                                         HeaderGet(answer.value.headers, "last-modified"),
                                                         o.result.value)]
    ensures var answer := ResponseFor(send, requester, token, cache, verb, url, data);
      var o := Call(phrases, requester, token, rateLimit, cache, verb, url, data, send, now);
      IsCacheable(verb, data, cache) && !ServedFromCache(send, requester, token, cache, verb, url, data)
      && o.result.Success? && HasCacheDetails(answer.value.headers) ==>
        o.cache == Some(cache.value[FormatUrl(url) := CacheEntry(HeaderGet(answer.value.headers, "etag"),
                                                                HeaderGet(answer.value.headers, "last-modified"),
                                                                o.result.value)])
  {
  }

  /** Only a bodyless GET can touch the cache: a POST, PATCH, PUT or DELETE,
      or a GET with a body, leaves it as it was. */
  lemma UncacheableLeavesCache(phrases: PhraseTable, requester: string, token: string,
                               rateLimit: Option<RateLimit>, cache: Option<Cache>,
                               verb: string, url: string, data: Payload, send: Transport, now: int)
    requires verb != "GET" || data.Data?
    ensures Call(phrases, requester, token, rateLimit, cache, verb, url, data, send, now).cache == cache
  {
  }

  /** Conditional GET across two calls: a GET whose 200/201/204 response
      carries a JSON body and an `etag` stores the body; a following GET of
      the same URL sends that etag as `if-none-match` and, answered 304
      (with any body, typically none), returns the stored body. */
  lemma RevalidationServesStoredBody(phrases: PhraseTable, requester: string, token: string,
                                     rateLimit: Option<RateLimit>, cache: Cache, url: string,
                                     first: Transport, second: Transport, now1: int, now2: int)
    requires var answer := ResponseFor(first, requester, token, Some(cache), "GET", url, NoBody);
      && answer.Success?
      && !ServedFromCache(first, requester, token, Some(cache), "GET", url, NoBody)
      && IsSuccess(answer.value.status) && FromHttp(answer.value.headers).Success?
      && answer.value.body.Some? && "etag" in answer.value.headers
    requires var o1 := Call(phrases, requester, token, rateLimit, Some(cache), "GET", url, NoBody, first, now1);
      var again := ResponseFor(second, requester, token, o1.cache, "GET", url, NoBody);
      again.Success? && again.value.status == NotModified
    ensures var response := ResponseFor(first, requester, token, Some(cache), "GET", url, NoBody).value;
      var o1 := Call(phrases, requester, token, rateLimit, Some(cache), "GET", url, NoBody, first, now1);
      var sentAgain := BuildRequest(requester, token, o1.cache, "GET", url, NoBody);
      var o2 := Call(phrases, requester, token, o1.rateLimit, o1.cache, "GET", url, NoBody, second, now2);
      && o1.result == Success(response.body.value)
      && "if-none-match" in sentAgain.headers && sentAgain.headers["if-none-match"] == response.headers["etag"]
      && o2.result == Success(response.body.value)
      && o2.cache == o1.cache
  {
    var response := ResponseFor(first, requester, token, Some(cache), "GET", url, NoBody).value;
    var o1 := Call(phrases, requester, token, rateLimit, Some(cache), "GET", url, NoBody, first, now1);
    ResultIsDeciphered(phrases, requester, token, rateLimit, Some(cache), "GET", url, NoBody, first, now1);
    CacheWrites(phrases, requester, token, rateLimit, Some(cache), "GET", url, NoBody, first, now1);
    var entry := CacheEntry(Some(response.headers["etag"]), HeaderGet(response.headers, "last-modified"),
                            response.body.value);
    assert o1.cache == Some(cache[FormatUrl(url) := entry]);
    ConditionalHeaders(requester, token, o1.cache, "GET", url, NoBody);
    NotModifiedServesCache(phrases, requester, token, o1.rateLimit, o1.cache, "GET", url, NoBody, second, now2);
  }
}
