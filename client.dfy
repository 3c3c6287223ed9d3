/** `GitterAPI`: builds each request (URL, headers, body), consults the
    conditional-GET cache, pre-decrements the quota snapshot, calls the
    transport, deciphers the response and updates the cache. The pure
    functions below say what one call does; the class performs it step by
    step on its own state. */
module Client {
  import opened Wrappers
  import opened Strings
  import opened Json
  import opened Utf8
  import opened JsonDumps
  import opened Faults
  import opened RateLimits
  import opened Errors
  import opened Decipher

  const GitterDomain := "https://api.gitter.im"
  const JsonContentType := "application/json; charset=utf-8"
  const NotModified := 304

  /** The `data` argument: the `b""` sentinel for "no body", or a JSON value. */
  datatype Payload = NoBody | Data(value: Json)

  datatype Request = Request(verb: string, url: string, headers: Headers, body: seq<byte>)

  /** What the transport returns: status, headers and what `json.loads`
      makes of the body's bytes, None when they are not a JSON document (as
      the empty body of a typical 204 or 304). */
  datatype Response = Response(status: int, headers: Headers, body: Option<Json>)

  /** A cached response: its `etag` and `last-modified` headers and its body. */
  datatype CacheEntry = CacheEntry(etag: Option<string>, lastModified: Option<string>, body: Json)

  /** The conditional-GET cache, keyed by resolved URL. */
  type Cache = map<string, CacheEntry>

  /** The HTTP session: the response the server gives to a request, or the
      exception the session raises instead. */
  type Transport = Request -> Result<Response, Fault>

  predicate StartsWith(s: string, prefix: string) {
    |prefix| <= |s| && s[..|prefix|] == prefix
  }

  predicate IsAbsolute(url: string) {
    StartsWith(url, "https://") || StartsWith(url, "http://")
  }

  /** `format_url`: `urljoin` of `url` onto the API domain, which has no path. */
  function FormatUrl(url: string): (r: string)
    ensures IsAbsolute(r)
    ensures IsAbsolute(url) ==> r == url
    ensures url != [] && url[0] == '/' && !StartsWith(url, "//") ==> r == GitterDomain + url
  {
    if url == "" then GitterDomain
    else if IsAbsolute(url) then url
    else if StartsWith(url, "//") then "https:" + url
    else if url[0] == '/' || url[0] == '?' || url[0] == '#' then GitterDomain + url
    else GitterDomain + "/" + url
  }

  /** `create_request_headers`: identity, bearer token and the JSON media type. */
  function CreateRequestHeaders(requester: string, token: string): (h: Headers)
    ensures h.Keys == {"user-agent", "authorization", "accept"}
  {
    map["user-agent" := requester, "authorization" := "bearer " + token, "accept" := "application/json"]
  }

  /** `json.dumps(data).encode("utf-8")`. */
  function EncodeBody(data: Json): (body: seq<byte>)
    ensures |body| == |Dumps(data)|
  {
    DumpsAscii(data);
    EncodeAscii(Dumps(data));
    Encode(Dumps(data))
  }

  /** A bodyless GET while a cache is configured. */
  predicate IsCacheable(verb: string, data: Payload, cache: Option<Cache>) {
    data.NoBody? && verb == "GET" && cache.Some?
  }

  /** The cached entry a cacheable request finds for its resolved URL. */
  function CacheHit(verb: string, data: Payload, cache: Option<Cache>, url: string): (hit: Option<CacheEntry>)
    ensures hit.Some? ==> IsCacheable(verb, data, cache) && url in cache.value && hit.value == cache.value[url]
    ensures IsCacheable(verb, data, cache) && url in cache.value ==> hit.Some?
  {
    if IsCacheable(verb, data, cache) && url in cache.value then Some(cache.value[url]) else None
  }

  /** `if-none-match` / `if-modified-since` from a cache hit, each only when stored. */
  function WithConditionalHeaders(headers: Headers, hit: Option<CacheEntry>): (h: Headers) {
    match hit
    case None => headers
    case Some(entry) =>
      var h := if entry.etag.Some? then headers["if-none-match" := entry.etag.value] else headers;
      if entry.lastModified.Some? then h["if-modified-since" := entry.lastModified.value] else h
  }

  /** The request `_make_request` hands to the transport. */
  function BuildRequest(requester: string, token: string, cache: Option<Cache>,
                        verb: string, url: string, data: Payload): (r: Request)
  {
    var filledUrl := FormatUrl(url);
    var headers := CreateRequestHeaders(requester, token);
    match data
    case NoBody =>
      Request(verb, filledUrl,
              WithConditionalHeaders(headers["content-length" := "0"], CacheHit(verb, data, cache, filledUrl)),
              [])
    case Data(j) =>
      var body := EncodeBody(j);
      Request(verb, filledUrl,
              headers["content-type" := JsonContentType]["content-length" := IntToString(|body|)],
              body)
  }

  /** The speculative `rate_limit.remaining -= 1` before sending. */
  function Decremented(rateLimit: Option<RateLimit>): (r: Option<RateLimit>)
    ensures r.Some? <==> rateLimit.Some?
    ensures r.Some? ==> r.value.remaining == rateLimit.value.remaining - 1
    ensures r.Some? ==> r.value.limit == rateLimit.value.limit && r.value.resetMs == rateLimit.value.resetMs
  {
    match rateLimit
    case None => None
    case Some(rl) => Some(rl.(remaining := rl.remaining - 1))
  }

  /** `headers.get(name)`. */
  function HeaderGet(headers: Headers, name: string): (v: Option<string>) {
    if name in headers then Some(headers[name]) else None
  }

  predicate HasCacheDetails(headers: Headers) {
    "etag" in headers || "last-modified" in headers
  }

  /** The client's state after a call, and what the call returned or raised. */
  datatype Outcome = Outcome(rateLimit: Option<RateLimit>, cache: Option<Cache>, result: Result<Json, Error>)

  /** What `_make_request(verb, url, data)` does, given the client's
      state, the transport and the clock reading of the 403 branch. */
  function Call(phrases: PhraseTable, requester: string, token: string,
                rateLimit: Option<RateLimit>, cache: Option<Cache>,
                verb: string, url: string, data: Payload, send: Transport, now: int): (o: Outcome)
  {
    var request := BuildRequest(requester, token, cache, verb, url, data);
    var hit := CacheHit(verb, data, cache, request.url);
    var quota := Decremented(rateLimit);
    match send(request)
    case Failure(f) => Outcome(quota, cache, Failure(Unhandled(f)))
    case Success(response) =>
    if response.status == NotModified && hit.Some? then
      Outcome(quota, cache, Success(hit.value.body))
    else
      match DecipherResponse(phrases, response.status, response.headers, response.body, now)
      case Failure(e) => Outcome(quota, cache, Failure(e))
      case Success((body, rl)) =>
        if IsCacheable(verb, data, cache) && HasCacheDetails(response.headers) then
          var entry := CacheEntry(HeaderGet(response.headers, "etag"), HeaderGet(response.headers, "last-modified"), body);
          Outcome(rl, Some(cache.value[request.url := entry]), Success(body))
        else
          Outcome(rl, cache, Success(body))
  }

  class GitterApi {
    const requester: string
    const oauthToken: string
    /** The standard library's status table, read when an error is raised. */
    const phrases: PhraseTable
    /** None when no cache was configured; never switches between the two. */
    var cache: Option<Cache>
    var rateLimit: Option<RateLimit>

    constructor (requester: string, oauthToken: string, cache: Option<Cache>, phrases: PhraseTable)
      ensures this.requester == requester && this.oauthToken == oauthToken && this.phrases == phrases
      ensures this.cache == cache && this.rateLimit == None
    {
      this.requester := requester;
      this.oauthToken := oauthToken;
      this.phrases := phrases;
      this.cache := cache;
      this.rateLimit := None;
    }

    /** The first half of `_make_request`: resolve the URL, build the
        headers and body, and look the URL up in the cache. `cached` says
        whether an entry was found and `fallback` is its body. */
    method PrepareRequest(verb: string, url: string, data: Payload)
      returns (request: Request, cacheable: bool, cached: bool, fallback: Json)
      ensures request == BuildRequest(requester, oauthToken, cache, verb, url, data)
      ensures cacheable == IsCacheable(verb, data, cache)
      ensures cached <==> CacheHit(verb, data, cache, request.url).Some?
      ensures cached ==> fallback == CacheHit(verb, data, cache, request.url).value.body
    {
      var filledUrl := FormatUrl(url);
      var requestHeaders := CreateRequestHeaders(requester, oauthToken);
      cached, cacheable := false, false;
      fallback := JNull;
      var body: seq<byte>;
      if data.NoBody? {
        body := [];
        requestHeaders := requestHeaders["content-length" := "0"];
        if verb == "GET" && cache.Some? {
          cacheable := true;
          if filledUrl in cache.value {
            var entry := cache.value[filledUrl];
            cached := true;
            fallback := entry.body;
            if entry.etag.Some? {
              requestHeaders := requestHeaders["if-none-match" := entry.etag.value];
            }
            if entry.lastModified.Some? {
              requestHeaders := requestHeaders["if-modified-since" := entry.lastModified.value];
            }
          }
        }
      } else {
        body := EncodeBody(data.value);
        requestHeaders := requestHeaders["content-type" := JsonContentType];
        requestHeaders := requestHeaders["content-length" := IntToString(|body|)];
      }
      request := Request(verb, filledUrl, requestHeaders, body);
    }

    /** `_make_request`: `sent` is the request the transport received and
        `quotaAtSend` the snapshot at that moment. */
    method MakeRequest(verb: string, url: string, data: Payload, now: int, send: Transport)
      returns (result: Result<Json, Error>, ghost sent: Request, ghost quotaAtSend: Option<RateLimit>)
      modifies this
      ensures sent == BuildRequest(requester, oauthToken, old(cache), verb, url, data)
      ensures quotaAtSend == Decremented(old(rateLimit))
      ensures Outcome(rateLimit, cache, result)
           == Call(phrases, requester, oauthToken, old(rateLimit), old(cache), verb, url, data, send, now)
    {
      var request, cacheable, cached, fallback := PrepareRequest(verb, url, data);
      if rateLimit.Some? {
        rateLimit := Some(rateLimit.value.(remaining := rateLimit.value.remaining - 1));
      }
      sent, quotaAtSend := request, rateLimit;
      var answer := send(request);
      if answer.Failure? {
        return Failure(Unhandled(answer.error)), sent, quotaAtSend;
      }
      var response := answer.value;
      if !(response.status == NotModified && cached) {
        var deciphered := DecipherResponse(phrases, response.status, response.headers, response.body, now);
        if deciphered.Failure? {
          return Failure(deciphered.error), sent, quotaAtSend;
        }
        var (decoded, snapshot) := deciphered.value;
        rateLimit := snapshot;
        if cache.Some? && cacheable && HasCacheDetails(response.headers) {
          var etag := HeaderGet(response.headers, "etag");
          var lastModified := HeaderGet(response.headers, "last-modified");
          cache := Some(cache.value[request.url := CacheEntry(etag, lastModified, decoded)]);
        }
        result := Success(decoded);
      } else {
        result := Success(fallback);
      }
    }

    /** `getitem`: a GET without a body, the one verb that can be cached. */
    method GetItem(url: string, now: int, send: Transport) returns (result: Result<Json, Error>)
      modifies this
      ensures Outcome(rateLimit, cache, result)
           == Call(phrases, requester, oauthToken, old(rateLimit), old(cache), "GET", url, NoBody, send, now)
    {
      ghost var sent, quota;
      result, sent, quota := MakeRequest("GET", url, NoBody, now, send);
    }

    method Post(url: string, data: Payload, now: int, send: Transport) returns (result: Result<Json, Error>)
      modifies this
      ensures Outcome(rateLimit, cache, result)
           == Call(phrases, requester, oauthToken, old(rateLimit), old(cache), "POST", url, data, send, now)
    {
      ghost var sent, quota;
      result, sent, quota := MakeRequest("POST", url, data, now, send);
    }

    method Patch(url: string, data: Payload, now: int, send: Transport) returns (result: Result<Json, Error>)
      modifies this
      ensures Outcome(rateLimit, cache, result)
           == Call(phrases, requester, oauthToken, old(rateLimit), old(cache), "PATCH", url, data, send, now)
    {
      ghost var sent, quota;
      result, sent, quota := MakeRequest("PATCH", url, data, now, send);
    }

    method Put(url: string, data: Payload, now: int, send: Transport) returns (result: Result<Json, Error>)
      modifies this
      ensures Outcome(rateLimit, cache, result)
           == Call(phrases, requester, oauthToken, old(rateLimit), old(cache), "PUT", url, data, send, now)
    {
      ghost var sent, quota;
      result, sent, quota := MakeRequest("PUT", url, data, now, send);
    }

    /** `delete`: bodyless but never cacheable, so it leaves the cache alone. */
    method Delete(url: string, now: int, send: Transport) returns (result: Result<Json, Error>)
      modifies this
      ensures Outcome(rateLimit, cache, result)
           == Call(phrases, requester, oauthToken, old(rateLimit), old(cache), "DELETE", url, NoBody, send, now)
      ensures cache == old(cache)
    {
      ghost var sent, quota;
      result, sent, quota := MakeRequest("DELETE", url, NoBody, now, send);
    }
  }
}
