/** `GitterAPI.decipher_response`: turns a response's status, headers and
    decoded body into the body with a rate-limit snapshot, or an error. */
module Decipher {
  import opened Wrappers
  import opened Strings
  import opened Json
  import opened Faults
  import opened RateLimits
  import opened Errors
  import opened PyRepr

  /** `http.HTTPStatus(code).phrase` for the codes the standard library
      knows; None for a code it does not know (`HTTPStatus(code)` raises
      ValueError). */
  type PhraseTable = int -> Option<string>

  predicate IsSuccess(status: int) {
    status == 200 || status == 201 || status == 204
  }

  /** `data["message"]`, with None when the body is not a dict (TypeError)
      or has no such key (KeyError). JSON null is Python's None. */
  function MessageOf(data: Json): (m: Json)
    ensures m != JNull ==>
      && data.JObject?
      && exists k :: 0 <= k < |data.members| && data.members[k] == Member("message", m)
                  && forall j :: k < j < |data.members| ==> data.members[j].key != "message"
    ensures data.JObject? && (forall k :: 0 <= k < |data.members| ==> data.members[k].key != "message") ==>
      m == JNull
    ensures data.JObject? ==>
      forall k :: 0 <= k < |data.members| && data.members[k].key == "message"
                  && (forall j :: k < j < |data.members| ==> data.members[j].key != "message") ==>
        m == data.members[k].value
  {
    match data
    case JObject(members) => GetOr(members, "message", JNull)
    case _ => JNull
  }

  /** `exc_type(HTTPStatus(status), message)` or `exc_type(HTTPStatus(status))`. */
  function HttpFailure(phrases: PhraseTable, kind: HttpKind, status: int, message: Json): (e: Error)
  {
    match phrases(status)
    case None => Unhandled(ValueError)
    case Some(phrase) => HttpError(kind, status, if Truthy(message) then message else JString(phrase))
  }

  /** `repr(e["field"])` for one item of the 422 `errors` list. */
  function FieldRepr(e: Json): (r: Result<string, Fault>)
  {
    match e
    case JObject(members) =>
      (match Find(members, "field")
       case Some(v) => Success(Repr(v))
       case None => Failure(KeyError))
    case _ => Failure(TypeError)
  }

  /** The field reprs of all items, in order; the first item that fails
      decides the exception. */
  function FieldReprs(items: seq<Json>): (r: Result<seq<string>, Fault>)
    ensures r.Success? <==> forall k :: 0 <= k < |items| ==> FieldRepr(items[k]).Success?
    ensures r.Success? ==> |r.value| == |items|
    ensures r.Success? ==> forall k :: 0 <= k < |items| ==> r.value[k] == FieldRepr(items[k]).value
    ensures r.Failure? ==> exists k :: 0 <= k < |items| && FieldRepr(items[k]) == Failure(r.error)
                                 && forall m :: 0 <= m < k ==> FieldRepr(items[m]).Success?
    decreases |items|
  {
    if items == [] then Success([])
    else match FieldRepr(items[0])
      case Failure(f) => Failure(f)
      case Success(first) =>
        var rest := FieldReprs(items[1..]);
        assert forall k :: 1 <= k < |items| ==> items[k] == items[1..][k - 1];
        match rest
        case Failure(f) =>
          assert exists k :: 1 <= k < |items| && FieldRepr(items[k]) == Failure(f)
                   && forall m :: 0 <= m < k ==> FieldRepr(items[m]).Success? by {
            var k :| 0 <= k < |items[1..]| && FieldRepr(items[1..][k]) == Failure(f)
                     && forall m :: 0 <= m < k ==> FieldRepr(items[1..][m]).Success?;
            assert FieldRepr(items[k + 1]) == Failure(f);
          }
          Failure(f)
        case Success(others) => Success([first] + others)
  }

  /** `", ".join(repr(e["field"]) for e in errors)` for a truthy `errors`:
      only a list can be iterated into dicts; iterating a non-empty dict or
      string gives strings, and a number or True is not iterable, all
      TypeErrors. */
  function FieldList(errors: Json): (r: Result<string, Fault>)
  {
    match errors
    case JArray(items) =>
      (match FieldReprs(items)
       case Success(reprs) => Success(Join(reprs, ", "))
       case Failure(f) => Failure(f))
    case _ => Failure(TypeError)
  }

  /** The 422 branch: `InvalidField(errors, message)`, where a truthy
      `errors` lists its fields after the message and a falsy one takes
      `data["message"]` as it is. */
  function InvalidFieldError(data: Json, message: Json): (e: Error)
  {
    match data
    case JObject(members) =>
      var errors := GetOr(members, "errors", JNull);
      if Truthy(errors) then
        (match FieldList(errors)
         case Success(fields) => InvalidField(errors, JString(Str(message) + " for " + fields))
         case Failure(f) => Unhandled(f))
      else
        (match Find(members, "message")
         case Some(m) => InvalidField(errors, m)
         case None => Unhandled(KeyError))
    case _ => Unhandled(AttributeError)
  }

  /** `decipher_response(status_code, headers, body)`. `body` is what
      `json.loads` makes of the response's bytes: None when they are not a
      JSON document (an empty body, say), which raises before the status is
      looked at. `now` is the instant (ms) the 403 branch reads the clock. */
  function DecipherResponse(phrases: PhraseTable, status: int, headers: Headers, body: Option<Json>, now: int)
    : (r: Result<(Json, Option<RateLimit>), Error>)
    ensures body.None? ==> r == Failure(Unhandled(JSONDecodeError))
    ensures r.Success? <==> body.Some? && IsSuccess(status) && FromHttp(headers).Success?
    ensures r.Success? ==> r.value == (body.value, FromHttp(headers).value)
    ensures body.Some? && IsSuccess(status) && FromHttp(headers).Failure? ==>
      r == Failure(Unhandled(FromHttp(headers).error))
    ensures r.Failure? && r.error.IsHttpException() ==> r.error.Status() == status
  {
    if body.None? then Failure(Unhandled(JSONDecodeError))
    else
    var data := body.value;
    if IsSuccess(status) then
      match FromHttp(headers)
      case Success(rl) => Success((data, rl))
      case Failure(f) => Failure(Unhandled(f))
    else
      var message := MessageOf(data);
      if status >= 500 then Failure(HttpFailure(phrases, GitterBroken, status, message))
      else if status >= 400 then
        if status == Forbidden then
          match FromHttp(headers)
          case Failure(f) => Failure(Unhandled(f))
          case Success(rl) =>
            if rl.Some? && rl.value.HasCapacity(now) && rl.value.remaining == 0 then
              Failure(RateLimitExceeded(rl.value, message))
            else
              Failure(HttpFailure(phrases, BadRequest, status, message))
        else if status == UnprocessableEntity then Failure(InvalidFieldError(data, message))
        else Failure(HttpFailure(phrases, BadRequest, status, message))
      else if status >= 300 then Failure(HttpFailure(phrases, RedirectionException, status, message))
      else Failure(HttpFailure(phrases, HTTPException, status, message))
  }

  /** The status ranges: every status other than 200, 201, 204, 403 and 422
      with a known phrase raises the exception class of its range. */
  lemma Classification(phrases: PhraseTable, status: int, headers: Headers, data: Json, now: int)
    requires !IsSuccess(status) && status != Forbidden && status != UnprocessableEntity
    requires phrases(status).Some?
    ensures var r := DecipherResponse(phrases, status, headers, Some(data), now);
      && r.Failure? && r.error.HttpError? && r.error.status == status
      && (status >= 500 <==> r.error.kind == GitterBroken)
      && (400 <= status < 500 <==> r.error.kind == BadRequest)
      && (300 <= status < 400 <==> r.error.kind == RedirectionException)
      && (status < 300 <==> r.error.kind == HTTPException)
  {
  }

  /** The message argument: the body's `message` when truthy, else the phrase. */
  lemma ErrorMessage(phrases: PhraseTable, status: int, headers: Headers, data: Json, now: int)
    requires !IsSuccess(status) && status != UnprocessableEntity
    ensures var r := DecipherResponse(phrases, status, headers, Some(data), now);
      r.Failure? && r.error.HttpError? ==>
        r.error.message == if Truthy(MessageOf(data)) then MessageOf(data) else JString(phrases(status).value)
    ensures var r := DecipherResponse(phrases, status, headers, Some(data), now);
      r.Failure? && r.error.RateLimitExceeded? ==> r.error.message == MessageOf(data)
  {
  }

  /** An unknown status code fails with the ValueError of `HTTPStatus(code)`,
      unless it is a success code or 403 with an exhausted snapshot. */
  lemma UnknownStatus(phrases: PhraseTable, status: int, headers: Headers, data: Json, now: int)
    requires !IsSuccess(status) && status != UnprocessableEntity && phrases(status).None?
    requires status == Forbidden ==> FromHttp(headers) == Success(None)
    ensures DecipherResponse(phrases, status, headers, Some(data), now) == Failure(Unhandled(ValueError))
  {
  }

  /** The exception classes partition the statuses: a deciphered HTTP error
      is a BadRequest exactly for 4XX, a GitterBroken exactly for 5XX and a
      RedirectionException exactly for 3XX. */
  lemma ErrorFamilies(phrases: PhraseTable, status: int, headers: Headers, data: Json, now: int)
    ensures var r := DecipherResponse(phrases, status, headers, Some(data), now);
      r.Failure? && r.error.IsHttpException() ==>
        && (r.error.IsBadRequest() <==> 400 <= status < 500)
        && (r.error.IsGitterBroken() <==> status >= 500)
        && (r.error.IsRedirection() <==> 300 <= status < 400)
  {
  }

  /** 403 becomes RateLimitExceeded, carrying the snapshot, exactly when the
      headers give a snapshot with zero remaining whose reset instant is
      before `now`; any other 403 with known phrase is a plain BadRequest;
      a non-numeric rate-limit header raises ValueError instead. */
  lemma Forbidden403(phrases: PhraseTable, headers: Headers, data: Json, now: int)
    ensures var r := DecipherResponse(phrases, Forbidden, headers, Some(data), now);
      FromHttp(headers).Failure? ==> r == Failure(Unhandled(FromHttp(headers).error))
    ensures var r := DecipherResponse(phrases, Forbidden, headers, Some(data), now);
      var rl := FromHttp(headers);
      rl.Success? ==>
        r.Failure? && (r.error.RateLimitExceeded? <==>
                         rl.value.Some? && rl.value.value.remaining == 0 && now > rl.value.value.resetMs)
    ensures var r := DecipherResponse(phrases, Forbidden, headers, Some(data), now);
      r.Failure? && r.error.RateLimitExceeded? ==>
        FromHttp(headers).Success? && FromHttp(headers).value == Some(r.error.rateLimit)
    ensures var r := DecipherResponse(phrases, Forbidden, headers, Some(data), now);
      var rl := FromHttp(headers);
      phrases(Forbidden).Some? && rl.Success?
      && !(rl.value.Some? && rl.value.value.remaining == 0 && now > rl.value.value.resetMs) ==>
        r.Failure? && r.error.HttpError? && r.error.kind == BadRequest
  {
  }

  /** A negative remaining count or a reset still ahead never yields
      RateLimitExceeded. */
  lemma NoRateLimitExceededBeforeReset(phrases: PhraseTable, headers: Headers, data: Json, now: int)
    requires FromHttp(headers).Success? && FromHttp(headers).value.Some?
    requires FromHttp(headers).value.value.remaining != 0 || now <= FromHttp(headers).value.value.resetMs
    ensures !DecipherResponse(phrases, Forbidden, headers, Some(data), now).error.RateLimitExceeded?
  {
  }

  /** 422 raises InvalidField, carrying the body's `errors`, exactly when
      the body is a dict and either its truthy `errors` list every item's
      `field`, or its `errors` are falsy and it has a `message`. Otherwise
      an unclassified exception escapes: AttributeError for a body that is
      not a dict, the TypeError or KeyError of the first bad `errors` item,
      or the KeyError of the missing `message`. */
  lemma Unprocessable422(phrases: PhraseTable, headers: Headers, data: Json, now: int)
    ensures var r := DecipherResponse(phrases, UnprocessableEntity, headers, Some(data), now);
      !data.JObject? ==> r == Failure(Unhandled(AttributeError))
    ensures var r := DecipherResponse(phrases, UnprocessableEntity, headers, Some(data), now);
      data.JObject? ==>
        var errors := GetOr(data.members, "errors", JNull);
        && r.Failure?
        && (r.error.InvalidField? <==>
              (Truthy(errors) && FieldList(errors).Success?)
              || (!Truthy(errors) && Find(data.members, "message").Some?))
        && (r.error.InvalidField? ==> r.error.errors == errors)
        && (Truthy(errors) && FieldList(errors).Success? ==>
              r.error == InvalidField(errors, JString(Str(MessageOf(data)) + " for " + FieldList(errors).value)))
        && (Truthy(errors) && FieldList(errors).Failure? ==> r.error == Unhandled(FieldList(errors).error))
        && (!Truthy(errors) && Find(data.members, "message").Some? ==>
              r.error == InvalidField(errors, Find(data.members, "message").value))
        && (!Truthy(errors) && Find(data.members, "message").None? ==> r.error == Unhandled(KeyError))
  {
  }

  /** Why a truthy `errors` cannot be listed: anything but a list iterates
      to non-dicts or not at all (TypeError); in a list, the first item that
      is not a dict raises TypeError and the first dict without `field`
      raises KeyError. */
  lemma FieldListFaults(errors: Json)
    ensures !errors.JArray? ==> FieldList(errors) == Failure(TypeError)
    ensures errors.JArray? ==>
      var items := errors.items;
      && (FieldList(errors).Success? <==>
            forall k :: 0 <= k < |items| ==> items[k].JObject? && Find(items[k].members, "field").Some?)
      && (FieldList(errors).Failure? ==>
            exists k :: 0 <= k < |items|
              && (forall m :: 0 <= m < k ==> FieldRepr(items[m]).Success?)
              && (!items[k].JObject? ==> FieldList(errors).error == TypeError)
              && (items[k].JObject? ==> Find(items[k].members, "field").None? && FieldList(errors).error == KeyError))
  {
    if errors.JArray? && FieldList(errors).Failure? {
      var items := errors.items;
      var k :| 0 <= k < |items| && FieldRepr(items[k]) == Failure(FieldReprs(items).error)
               && forall m :: 0 <= m < k ==> FieldRepr(items[m]).Success?;
      assert !items[k].JObject? ==> FieldList(errors).error == TypeError;
    }
  }

  /** A 422 whose dict body lists well-formed `errors` but has no `message`
      renders the missing message as Python's `None`. */
  lemma MessagelessValidation(phrases: PhraseTable, headers: Headers, members: seq<Member>, now: int)
    requires forall k :: 0 <= k < |members| ==> members[k].key != "message"
    requires Truthy(GetOr(members, "errors", JNull)) && FieldList(GetOr(members, "errors", JNull)).Success?
    ensures var errors := GetOr(members, "errors", JNull);
      DecipherResponse(phrases, UnprocessableEntity, headers, Some(JObject(members)), now)
        == Failure(InvalidField(errors, JString("None for " + FieldList(errors).value)))
  {
    var fields := FieldList(GetOr(members, "errors", JNull)).value;
    assert MessageOf(JObject(members)) == JNull;
    assert Str(JNull) + " for " + fields == "None for " + fields;
  }
}
