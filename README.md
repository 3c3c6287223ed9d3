# Gitter API client and feed filter, modelled in Dafny

This project models the core of a small bot that relays new entries of a
syndication feed to a Gitter chat room:

- the Gitter API client `GitterAPI` (`cron/gitter_api.py`): request
  construction (URL resolution, identity and bearer-token headers, JSON body
  encoding), the optional conditional-GET cache keyed by resolved URL, the
  speculative decrement of the quota snapshot before each request, the
  classification of responses into a body plus `RateLimit` snapshot or one of
  the exceptions `GitterBroken`, `BadRequest`, `RateLimitExceeded`,
  `InvalidField`, `RedirectionException` and `HTTPException`, and the verb
  methods `getitem`, `post`, `patch`, `put`, `delete`;
- the `RateLimit` snapshot read from the `x-ratelimit-*` headers and its
  truthiness ("has capacity") rule;
- `RSSReader.read_feed` (`cron/rss_reader.py`), whose first entry gates the
  whole feed and is never yielded itself.

Layout, one module per concern:

| file | module | what it holds |
|---|---|---|
| wrappers.dfy | Wrappers | `Option`, `Result` |
| strings.dfy | Strings | `str(int)`, `int(str)`, hex digits, `join` |
| json.dfy | Json | decoded JSON values, Python truthiness, dict lookup |
| utf8.dfy | Utf8 | `str.encode("utf-8")` |
| pyrepr.dfy | PyRepr | Python `repr`/`str` of decoded JSON |
| dumps.dfy | JsonDumps | `json.dumps` with its default settings |
| faults.dfy | Faults | Python exceptions outside the HTTP taxonomy |
| ratelimit.dfy | RateLimits | `RateLimit`, `from_http`, `__bool__` |
| errors.dfy | Errors | the exception hierarchy |
| decipher.dfy | Decipher | `decipher_response` |
| client.dfy | Client | request construction, one call as a function, the `GitterApi` class |
| client_props.dfy | ClientProperties | what one call promises |
| scenarios.dfy | Scenarios | concrete exchanges worked through the model |
| rss_reader.dfy | RssReader | `read_feed` |

Conventions of the model:

- Timestamps are integer milliseconds. The clock that the 403 branch reads
  (`datetime.now`) is a parameter `now`.
- The HTTP session is a parameter `send: Request -> Result<Response, Fault>`
  of each call. A failure stands for an exception raised by the session,
  which the call lets propagate. A response carries what `json.loads` makes
  of its body: a JSON value, or None when the bytes are not a JSON document
  (an empty body, say). None raises JSONDecodeError.
- The status-phrase table of Python's `http.HTTPStatus` is a parameter
  `PhraseTable`. An unknown code maps to None, which stands for the
  ValueError that `HTTPStatus(code)` raises. The table differs between
  Python versions, so the model does not fix one.
- Exceptions are values. `Error` holds the HTTP taxonomy. Its `Unhandled`
  case holds the ValueError, KeyError, TypeError and AttributeError that the
  code lets escape.
- An exception's message is its single argument, a JSON value. When the body
  supplies no truthy `message`, it is the status phrase.
- `BuildRequest` and `Call` are pure functions saying what one
  `_make_request` does. `GitterApi.MakeRequest` performs the call step by
  step on the object's `rateLimit` and `cache` fields. It is proved to end
  in the state and result that `Call` gives.

Behaviour of the code that is easy to misread, which the model keeps:

- A 403 becomes `RateLimitExceeded` only when the snapshot is truthy and
  `remaining == 0`. With zero remaining, a snapshot is truthy only after its
  reset instant (`cron/gitter_api.py:82-88`, `:223`). So a 403 with no
  requests left and a reset still ahead is a plain `BadRequest`
  (`Decipher.Forbidden403`, `Scenarios.QuotaExhaustedBeforeReset`).
- A non-numeric rate-limit header is not absorbed: `int()` raises ValueError
  and `from_http` catches only KeyError (`:101-106`). Headers are read in
  the order limit, remaining, reset. So a garbled limit header raises even
  when a later header is missing.
- With status 422 and a falsy `errors`, the message is `data["message"]` as
  it is. A body without `message` then raises KeyError (`:231`). With a
  truthy `errors`, a missing message is rendered `None` in
  `"<message> for <fields>"`.
- `RateLimitExceeded` always gets the message argument, even when it is
  None. So its default text "rate limit exceeded" is never used here
  (`:44-48`, `:224`).
- The body is decoded before the status is examined (`:208`). So a 204,
  which usually has an empty body, raises JSONDecodeError instead of
  succeeding, and so does a `delete` answered that way
  (`ClientProperties.UndecodableBody`). A 304 served from the cache is not
  decoded and returns the stored body.
- A 304 for a request without a cache entry goes through deciphering. With
  an empty body it raises JSONDecodeError. With a JSON body it raises
  `RedirectionException` (`ClientProperties.NotModifiedWithoutEntry`).
- The quota snapshot is decremented before sending (`:171-172`). It stays
  decremented when the session raises or the response is an error
  (`ClientProperties.TransportFailure`, `ClientProperties.RateLimitAfterCall`).
- The reset header is divided by 1000, so it is read as milliseconds.
  The docstring says seconds (`:74`, `:79`).

## Model

| member | source | states |
|---|---|---|
| Strings.ParseIntOfIntToString | cron/gitter_api.py:102-104 | `int(str(i)) == i`: a number written in decimal, as `content-length` and the rate-limit headers are, parses back to itself |
| Strings.ParseInt | cron/gitter_api.py:102-104 | `int(s)` on a header value: a result exactly when the text is an optional `-` or `+` followed by at least one ASCII digit, and then the decimal value of those digits, negated after `-`; `ParseIntOfIntToString` states that it reads back every `str(i)` |
| Strings.IntToString | cron/gitter_api.py:170 | `str(i)` is non-empty ASCII, so it is as many bytes as characters |
| Json.Find | cron/gitter_api.py:213-215 | `d[key]` finds the value of the last member with that key, as in the dict `json.loads` builds, and fails exactly when no member has it |
| Utf8.EncodeAscii | cron/gitter_api.py:168-170 | ASCII text encodes to one byte per character, equal to the character's code |
| JsonDumps.Dumps | cron/gitter_api.py:168 | `json.dumps(data)`; `DumpsAscii` states that it is pure ASCII, `DumpsPlainString` what it writes for plain strings, `Scenarios.DumpsChatMessage` a whole chat message |
| JsonDumps.DumpsAscii | cron/gitter_api.py:168 | `json.dumps` with `ensure_ascii` yields pure ASCII for every JSON value |
| JsonDumps.DumpsPlainString | cron/gitter_api.py:168 | a string of printable ASCII without `"` or `\` serialises to itself in double quotes |
| PyRepr.Repr | cron/gitter_api.py:228 | `repr(v)`, never empty; `ReprPlainString` states what it writes for a string that needs no escaping |
| PyRepr.ReprPlainString | cron/gitter_api.py:228 | `repr` of a string that needs no escaping is the string between single quotes |
| RateLimits.RateLimit.HasCapacity | cron/gitter_api.py:82-88 | `RateLimit.__bool__`; `ExhaustedSnapshot` states when an exhausted snapshot is truthy and `Decipher.Forbidden403` what that means for a 403 |
| RateLimits.FromHttp | cron/gitter_api.py:94-109 | `RateLimit.from_http`; `FromHttpPresent`, `FromHttpNone`, `FromHttpFails`, `FromHttpWithoutHeaders` and `FromHttpRoundTrip` state its result for every header map |
| RateLimits.NumericHeader | cron/gitter_api.py:101-106 | a header gives no value exactly when absent, its integer when numeric, and ValueError otherwise |
| RateLimits.FromHttpPresent | cron/gitter_api.py:101-109 | with all three headers numeric, the snapshot holds exactly their values |
| RateLimits.FromHttpNone | cron/gitter_api.py:101-106 | `from_http` returns None exactly when a header is missing and every header read before it is numeric |
| RateLimits.FromHttpFails | cron/gitter_api.py:101-106 | `from_http` raises exactly when a present header is non-numeric and every header before it is numeric, and then it raises ValueError |
| RateLimits.FromHttpWithoutHeaders | cron/gitter_api.py:101-106 | without the limit header there is no snapshot, whatever else the headers hold |
| RateLimits.FromHttpRoundTrip | cron/gitter_api.py:101-109 | headers written with `str(n)` give back a snapshot of the very numbers |
| RateLimits.ExhaustedSnapshot | cron/gitter_api.py:82-88 | with nothing remaining, the snapshot has capacity exactly when `now` is strictly after the reset instant |
| Decipher.MessageOf | cron/gitter_api.py:212-215 | a message other than None is the value of the body's last `message` member, so the body is a dict; a dict with no `message` member gives None |
| Decipher.FieldReprs | cron/gitter_api.py:228 | the field reprs of all `errors` items in list order, or the fault of the first item that is not a dict with `field` |
| Decipher.FieldList | cron/gitter_api.py:228 | `", ".join(repr(e["field"]) for e in errors)`; `FieldListFaults` states when it succeeds and which exception it raises otherwise |
| Decipher.HttpFailure | cron/gitter_api.py:233-243 | `exc_type(*args)` with the status phrase; `Classification`, `ErrorMessage` and `UnknownStatus` state the class, message and ValueError it gives |
| Decipher.InvalidFieldError | cron/gitter_api.py:225-232 | the 422 branch; `Unprocessable422` and `MessagelessValidation` state when it raises InvalidField, with which message, and what escapes otherwise |
| Decipher.DecipherResponse | cron/gitter_api.py:185-243 | an undecodable body raises JSONDecodeError whatever the status; otherwise success exactly for 200, 201 and 204 with readable rate-limit headers, returning the body unchanged and `from_http(headers)`; a non-numeric header on those raises ValueError; every HTTP error carries the response's status |
| Decipher.Classification | cron/gitter_api.py:216-243 | other known statuses raise GitterBroken for 5XX, BadRequest for 4XX, RedirectionException for 3XX and HTTPException otherwise, each with the status |
| Decipher.ErrorMessage | cron/gitter_api.py:212-243 | an error's message is the body's `message` when truthy and the status phrase otherwise; RateLimitExceeded carries the body's message as it is |
| Decipher.UnknownStatus | cron/gitter_api.py:237 | a status unknown to `HTTPStatus` raises ValueError instead of an HTTP error |
| Decipher.ErrorFamilies | cron/gitter_api.py:25-67 | a deciphered HTTP error is a BadRequest exactly for 4XX, a GitterBroken exactly for 5XX and a RedirectionException exactly for 3XX |
| Decipher.Forbidden403 | cron/gitter_api.py:221-224 | a 403 with a non-numeric rate-limit header raises ValueError; otherwise it is RateLimitExceeded, carrying the snapshot, exactly when there is a snapshot with zero remaining and `now` is past its reset, and a BadRequest in every other case |
| Decipher.NoRateLimitExceededBeforeReset | cron/gitter_api.py:221-224 | a negative remaining count or a reset still ahead never yields RateLimitExceeded |
| Decipher.Unprocessable422 | cron/gitter_api.py:225-232 | a 422 raises InvalidField with the body's `errors` exactly when the body is a dict and either its truthy `errors` list every field (message `"<message> for <fields>"`) or its falsy `errors` come with a `message` (used as it is); otherwise AttributeError for a non-dict body, the fault of the first bad `errors` item, or KeyError for the missing message |
| Decipher.FieldListFaults | cron/gitter_api.py:228 | a truthy `errors` that is not a list raises TypeError; a list lists its fields exactly when every item is a dict with `field`, and otherwise the first bad item raises TypeError (not a dict) or KeyError (no `field`) |
| Decipher.MessagelessValidation | cron/gitter_api.py:212-229 | a 422 with well-formed `errors` and no `message` has the message `"None for <fields>"` |
| Client.FormatUrl | cron/gitter_api.py:139-140 | the resolved URL is absolute, an absolute URL is kept, and a path is appended to the API domain |
| Client.CreateRequestHeaders | cron/gitter_api.py:132-136 | the base headers are exactly `user-agent`, `authorization` and `accept` |
| Client.EncodeBody | cron/gitter_api.py:167-170 | the encoded body has as many bytes as `json.dumps` has characters |
| Client.CacheHit | cron/gitter_api.py:154-160 | a request finds a cache entry exactly when it is cacheable and its resolved URL is cached |
| Client.Decremented | cron/gitter_api.py:171-172 | the snapshot sent with a request has one less remaining and the same limit and reset; no snapshot stays none |
| Client.BuildRequest | cron/gitter_api.py:147-170 | the request `_make_request` sends; `RequestIdentifiesClient`, `EmptyBodyRequest`, `JsonBodyRequest`, `ConditionalHeaders` and `RequestHeaderNames` state its URL, headers and body, and `GitterApi.PrepareRequest` is proved to build it |
| Client.Call | cron/gitter_api.py:143-182 | one `_make_request` as a function of the client's state; the `ClientProperties` lemmas state its result, snapshot and cache, and `GitterApi.MakeRequest` is proved to follow it |
| Client.GitterApi.constructor | cron/gitter_api.py:115-122 | a new client has the given identity, token and cache, and no snapshot |
| Client.GitterApi.PrepareRequest | cron/gitter_api.py:147-170 | the headers and body built step by step are the request `BuildRequest` describes, and the cache lookup finds exactly the entry `CacheHit` gives |
| Client.GitterApi.MakeRequest | cron/gitter_api.py:143-182 | the request sent is `BuildRequest`, the snapshot at sending is the decremented one, and the new snapshot, cache and result are those of `Call` |
| Client.GitterApi.GetItem | cron/gitter_api.py:246-250 | `getitem` is a bodyless GET call |
| Client.GitterApi.Post | cron/gitter_api.py:252-254 | `post` is a POST call with the caller's data |
| Client.GitterApi.Patch | cron/gitter_api.py:256-258 | `patch` is a PATCH call with the caller's data |
| Client.GitterApi.Put | cron/gitter_api.py:260-262 | `put` is a PUT call with the caller's data |
| Client.GitterApi.Delete | cron/gitter_api.py:264-266 | `delete` is a bodyless DELETE call and leaves the cache unchanged |
| ClientProperties.RequestIdentifiesClient | cron/gitter_api.py:132-148 | every request goes to the resolved URL with the caller's verb, the requester's `user-agent`, `bearer <token>` and `accept: application/json` |
| ClientProperties.EmptyBodyRequest | cron/gitter_api.py:151-153 | no data: an empty body, `content-length: 0` and no `content-type` |
| ClientProperties.JsonBodyRequest | cron/gitter_api.py:166-170 | JSON data: the UTF-8 bytes of `json.dumps`, `content-type: application/json; charset=utf-8`, a `content-length` reading back as the byte count, and no conditional headers |
| ClientProperties.ConditionalHeaders | cron/gitter_api.py:154-165 | `if-none-match` and `if-modified-since` are sent exactly when a cacheable request hits an entry storing that value, and carry it |
| ClientProperties.RequestHeaderNames | cron/gitter_api.py:132-170 | the request carries exactly the base headers, `content-length`, `content-type` for a body, and the conditional headers of a hit |
| ClientProperties.FormatUrlIdempotent | cron/gitter_api.py:139-140 | resolving a resolved URL changes nothing |
| ClientProperties.TransportFailure | cron/gitter_api.py:171-173 | an exception of the session propagates unchanged, with the snapshot decremented and the cache as it was |
| ClientProperties.UndecodableBody | cron/gitter_api.py:174-175 | a response whose body is not JSON, such as an empty 204, raises JSONDecodeError unless it is a 304 served from the cache; the snapshot stays decremented |
| ClientProperties.NotModifiedServesCache | cron/gitter_api.py:174-182 | a 304 to a request with a cache hit returns the cached body whatever the response body, keeps the cache and keeps the decremented snapshot |
| ClientProperties.NotModifiedWithoutEntry | cron/gitter_api.py:174-175 | a 304 without a cache hit raises JSONDecodeError for an empty body and RedirectionException 304 for a JSON body, and changes neither cache nor snapshot |
| ClientProperties.ResultIsDeciphered | cron/gitter_api.py:174-182 | apart from a 304 served from cache, a call returns the decoded body unchanged exactly when deciphering succeeds, and otherwise raises the deciphered error |
| ClientProperties.RateLimitAfterCall | cron/gitter_api.py:171-175 | after success the snapshot is the one read from the response (maybe none); after any exception or a 304 served from cache the decremented snapshot stays |
| ClientProperties.CacheWrites | cron/gitter_api.py:174-181 | the cache is changed only by a successful cacheable call whose response has `etag` or `last-modified`, which (over)writes the resolved URL's entry with those headers and the body |
| ClientProperties.UncacheableLeavesCache | cron/gitter_api.py:154 | a call other than a bodyless GET never changes the cache |
| ClientProperties.RevalidationServesStoredBody | cron/gitter_api.py:154-182 | a GET that stores an etag makes the next GET of the URL send it as `if-none-match`, and a 304 then returns the stored body |
| Scenarios.ValidationFailed | cron/gitter_api.py:225-232 | a 422 with body `{"message": "Validation Failed", "errors": [{"field": "name"}]}` raises InvalidField with message `Validation Failed for 'name'` and the one-item list |
| Scenarios.QuotaExhausted | cron/gitter_api.py:221-224 | a 403 with `x-ratelimit-remaining: 0` after the reset instant raises RateLimitExceeded with the snapshot of the headers |
| Scenarios.QuotaExhaustedBeforeReset | cron/gitter_api.py:221-224 | the same 403 before or at the reset instant is a plain BadRequest |
| Scenarios.DumpsChatMessage | cron/gitter_api.py:168 | `json.dumps({"text": "hi"})` is the 14 characters `{"text": "hi"}` |
| Scenarios.PostChatMessage | cron/gitter_api.py:166-170 | posting `{"text": "hi"}` sends `content-type: application/json; charset=utf-8` and `content-length: 14` |
| RssReader.NewerEntries | cron/rss_reader.py:10-20 | the entries `read_feed` yields; `EmptyFeed`, `StaleFirstEntry`, `FreshFirstEntry` and `OutputShape` state them, and `ReadFeed` is proved to yield them |
| RssReader.ReadFeed | cron/rss_reader.py:10-20 | the loop yields nothing when the first entry is older than `newer_than`, and otherwise exactly the entries after the first, in order |
| RssReader.EmptyFeed | cron/rss_reader.py:13 | an empty feed yields nothing |
| RssReader.StaleFirstEntry | cron/rss_reader.py:16-18 | a first entry published strictly before `newer_than` stops the whole feed |
| RssReader.FreshFirstEntry | cron/rss_reader.py:16-20 | a first entry at or after `newer_than` lets through every later entry, in feed order, whatever its own date |
| RssReader.OutputShape | cron/rss_reader.py:13-20 | the output is empty or all but the first entry: a suffix of the feed, shorter than a non-empty feed |

## Left out

- The aiohttp transport `_request` (`cron/gitter_api.py:124-129`) and the async structure. Each call takes the session's answer, a response or an exception, as a function of the request. Calls are sequential.
- Decoding the response body (`body.decode("utf-8")`, `json.loads`). A response carries the decoded value or None. Invalid UTF-8 raises UnicodeDecodeError in the source; the model folds it into JSONDecodeError.
- Objects with a repeated key: lookup takes the last occurrence, as the dict built by `json.loads` does. A dict request body cannot repeat a key, but the model's `Dumps` writes every member it is given.
- PyRepr.Repr: like `Dumps`, writes every member of an object with a repeated key, while `repr` of the dict that `json.loads` builds shows each key once, with its last value. Field lists are built from such dicts only through `Find`, which takes the last occurrence.
- Request bodies are JSON values only (`Payload`). Data that `json.dumps` cannot serialise (bytes other than `b""`, sets, arbitrary objects) raises TypeError at `cron/gitter_api.py:168`, before the pre-decrement at line 172 and before any request is sent; the model has no such data and so no such path.
- JSON numbers that are not integers (Python floats) are not modelled; JSON numbers are integers.
- `int()` and `float()` of header values accept surrounding whitespace, underscores and, for `float`, fractions, exponents, `inf` and `nan`. The model accepts an optional sign followed by ASCII digits. The reset value is an integer number of milliseconds.
- `datetime.fromtimestamp(reset / 1000)` and `datetime.now`: floating-point conversion, microsecond resolution and the OverflowError on out-of-range values are not modelled. Instants are integer milliseconds compared directly.
- The `http.HTTPStatus` table is a parameter rather than a fixed list of codes and phrases.
- Client.FormatUrl: models `urllib.parse.urljoin` onto the fixed domain, which has no path, only for URLs that are empty, start with lower-case `https://` or `http://`, `//`, `/`, `?` or `#`, or are plain relative paths. These `urljoin` behaviours are not modelled, so on such inputs its clauses "an absolute URL is kept" and "a `/path` is appended to the domain" describe the model, not `urljoin`:
  - lower-casing the scheme: `HTTPS://x.y/z` becomes `https://x.y/z`;
  - returning URLs of other schemes, or with any other `name:` prefix, unchanged;
  - removing `.` and `..` segments;
  - dropping empty segments of a relative path: `v1//rooms` becomes `/v1/rooms`;
  - the `;params` part;
  - dropping an empty `?` or `#`: `/x?` becomes `https://api.gitter.im/x` and `https://x.y/z?` becomes `https://x.y/z`, and a bare `?` or `#` gives the domain;
  - resolving an empty authority to the API domain: `https://` and `//` give `https://api.gitter.im`.
  - deleting tab, CR and LF anywhere in the URL, and stripping leading C0 control characters and spaces;
  - the ValueError "Invalid IPv6 URL" for an unbalanced `[` or `]` in the host.

  More generally, any other normalisation or validation that `urlsplit` applies (control characters and whitespace, bracketed hosts, the NFKC check of the network location) is not modelled, nor is the ValueError it raises.
- PyRepr.Repr: Python `repr` escapes non-printable non-ASCII characters, but the model writes every character from U+0080 up as it is. `PlainText`, the premise of `ReprPlainString`, admits only printable ASCII, so that lemma holds for `repr` itself.
- Header mappings are case-insensitive and may repeat a name. The model uses single-valued maps keyed by lower-case names.
- Aliasing: the source decrements `remaining` on the `RateLimit` object itself and writes into a cache mapping owned by the caller. The model keeps both as values held by the client. So it does not capture another holder of those objects seeing the change.
- Concurrent calls sharing one client are not modelled.
- `RateLimit.__str__` (display only) and the unused base class `GitterException` as a separate value.
- `read_feed`'s feed download and parsing (`feedparser.parse`, `datetime.fromisoformat`) are not modelled. Entries come with an already parsed publication instant. The ValueError that a malformed date on a later entry raises mid-stream is not modelled. The generator is modelled by the full sequence it yields.
- `cron/__main__.py` (environment, session, message formatting) is not part of this model.
