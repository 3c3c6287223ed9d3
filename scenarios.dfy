/** Concrete exchanges with the Gitter API, worked through the model. */
module Scenarios {
  import opened Wrappers
  import opened Strings
  import opened Json
  import opened Faults
  import opened PyRepr
  import opened JsonDumps
  import opened RateLimits
  import opened Errors
  import opened Decipher
  import opened Client
  import opened ClientProperties

  /** `{"message": "Validation Failed", "errors": [{"field": "name"}]}`. */
  const ValidationBody := JObject([
    Member("message", JString("Validation Failed")),
    Member("errors", JArray([JObject([Member("field", JString("name"))])]))])

  /** A 422 names the invalid fields after the message and keeps the raw list. */
  lemma ValidationFailed(phrases: PhraseTable, headers: Headers, now: int)
    ensures var r := DecipherResponse(phrases, UnprocessableEntity, headers, Some(ValidationBody), now);
      && r == Failure(InvalidField(JArray([JObject([Member("field", JString("name"))])]),
                                   JString("Validation Failed for 'name'")))
      && |r.error.errors.items| == 1
  {
    var item := JObject([Member("field", JString("name"))]);
    ReprPlainString("name");
    assert Repr(JString("name")) == "'name'";
    assert Find(item.members, "field") == Some(JString("name"));
    assert FieldRepr(item) == Success("'name'");
    assert FieldReprs([item]) == Success(["'name'"]) by {
      var items := [item];
      assert items[0] == item && items[1..] == [];
      assert FieldRepr(items[0]) == Success("'name'");
      assert FieldReprs(items[1..]) == Success([]);
      assert ["'name'"] + [] == ["'name'"];
    }
    assert Join(["'name'"], ", ") == "'name'";
    assert FieldList(JArray([item])) == Success("'name'");
    assert Str(JString("Validation Failed")) + " for " + "'name'" == "Validation Failed for 'name'";
  }

  /** Headers reporting `limit` requests, none left, and the reset instant `reset`. */
  function ExhaustedHeaders(limit: int, reset: int): (h: Headers) {
    map[LimitHeader := IntToString(limit), RemainingHeader := "0", ResetHeader := IntToString(reset)]
  }

  /** A 403 whose headers report no requests left and a reset that has
      passed is RateLimitExceeded with that snapshot. */
  lemma QuotaExhausted(phrases: PhraseTable, data: Json, limit: int, reset: int, now: int)
    requires now > reset
    ensures var r := DecipherResponse(phrases, Forbidden, ExhaustedHeaders(limit, reset), Some(data), now);
      && r.Failure? && r.error.RateLimitExceeded?
      && r.error.rateLimit == RateLimit(limit, 0, reset)
      && r.error.Status() == Forbidden
  {
    assert IntToString(0) == "0";
    FromHttpRoundTrip(ExhaustedHeaders(limit, reset), limit, 0, reset);
  }

  /** The same 403 before or at the reset instant is a plain BadRequest. */
  lemma QuotaExhaustedBeforeReset(phrases: PhraseTable, data: Json, limit: int, reset: int, now: int)
    requires now <= reset && phrases(Forbidden).Some?
    ensures var r := DecipherResponse(phrases, Forbidden, ExhaustedHeaders(limit, reset), Some(data), now);
      r.Failure? && r.error.HttpError? && r.error.kind == BadRequest && r.error.status == Forbidden
  {
    assert IntToString(0) == "0";
    FromHttpRoundTrip(ExhaustedHeaders(limit, reset), limit, 0, reset);
  }

  /** `{"text": "hi"}`, the shape of a chat message. */
  const ChatMessage := JObject([Member("text", JString("hi"))])

  /** `json.dumps({"text": "hi"})` is the 14 characters `{"text": "hi"}`. */
  lemma DumpsChatMessage()
    ensures Dumps(ChatMessage) == "{\"text\": \"hi\"}"
    ensures |Dumps(ChatMessage)| == 14
  {
    DumpsPlainString("text");
    DumpsPlainString("hi");
    var parts := seq(1, k requires 0 <= k < 1 =>
                   DumpsString(ChatMessage.members[k].key) + ": " + Dumps(ChatMessage.members[k].value));
    assert parts[0] == "\"text\": \"hi\"";
    assert Join(parts, ", ") == "\"text\": \"hi\"";
  }

  /** `post(url, {"text": "hi"})` announces a 14-byte JSON body. */
  lemma PostChatMessage(requester: string, token: string, cache: Option<Cache>, url: string)
    ensures var r := BuildRequest(requester, token, cache, "POST", url, Data(ChatMessage));
      && "content-type" in r.headers && r.headers["content-type"] == "application/json; charset=utf-8"
      && "content-length" in r.headers && r.headers["content-length"] == "14"
  {
    var r := BuildRequest(requester, token, cache, "POST", url, Data(ChatMessage));
    DumpsChatMessage();
    JsonBodyRequest(requester, token, cache, "POST", url, ChatMessage);
    assert |r.body| == 14;
    FourteenString();
  }

  lemma FourteenString()
    ensures IntToString(14) == "14"
  {
    assert NatToString(1) == "1";
    assert NatToString(14) == NatToString(1) + [DigitChar(4)];
  }

  /** A client whose last response reported 5 requests left sends its next
      request believing 4 are left; a DELETE then answered 204 with an empty
      body raises JSONDecodeError and leaves the snapshot decremented. */
  method PreDecrementScenario(phrases: PhraseTable, reset: int, now: int)
  {
    var headers := map[LimitHeader := IntToString(100), RemainingHeader := IntToString(5),
                       ResetHeader := IntToString(reset)];
    FromHttpRoundTrip(headers, 100, 5, reset);
    var api := new GitterApi("trio-gitter-bot", "token", None, phrases);
    var answer: Transport := _ => Success(Response(200, headers, Some(JArray([]))));
    ResultIsDeciphered(phrases, "trio-gitter-bot", "token", None, None, "GET", "/v1/rooms", NoBody, answer, now);
    RateLimitAfterCall(phrases, "trio-gitter-bot", "token", None, None, "GET", "/v1/rooms", NoBody, answer, now);
    var result, sent, quota := api.MakeRequest("GET", "/v1/rooms", NoBody, now, answer);
    assert quota == None;
    assert result == Success(JArray([]));
    assert api.rateLimit == Some(RateLimit(100, 5, reset));
    result, sent, quota := api.MakeRequest("GET", "/v1/rooms", NoBody, now, answer);
    assert quota == Some(RateLimit(100, 4, reset));
    var noContent: Transport := _ => Success(Response(204, headers, None));
    UndecodableBody(phrases, "trio-gitter-bot", "token", api.rateLimit, api.cache, "DELETE", "/v1/rooms/1", NoBody,
                    noContent, now);
    result := api.Delete("/v1/rooms/1", now, noContent);
    assert result == Failure(Unhandled(JSONDecodeError));
    assert api.rateLimit == Some(RateLimit(100, 4, reset));
  }
}
