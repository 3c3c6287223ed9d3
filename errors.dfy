/** The client's exception hierarchy. `GitterException` is the root;
    `HTTPException` carries a status and one message argument, and its
    subclasses are the kinds below; `RateLimitExceeded` and `InvalidField`
    are `BadRequest`s with a fixed status. Anything raised that is not an
    `HTTPException` is an `Unhandled` Python fault. */
module Errors {
  import opened Json
  import opened Faults
  import opened RateLimits

  const Forbidden := 403
  const UnprocessableEntity := 422

  /** The plain `HTTPException` classes, by the status range they stand for. */
  datatype HttpKind =
    | HTTPException         // any status outside 300..599
    | RedirectionException  // 3XX
    | BadRequest            // 4XX
    | GitterBroken          // 5XX

  /** `message` is the exception's single argument: the body's message, or
      the status phrase when the body gives none. */
  datatype Error =
    | HttpError(kind: HttpKind, status: int, message: Json)
    | RateLimitExceeded(rateLimit: RateLimit, message: Json)
    | InvalidField(errors: Json, message: Json)
    | Unhandled(fault: Fault)
  {
    /** `isinstance(e, HTTPException)`. */
    predicate IsHttpException() {
      !Unhandled?
    }

    /** The `status_code` attribute every `HTTPException` carries. */
    function Status(): (s: int)
      requires IsHttpException()
    {
      match this
      case HttpError(_, status, _) => status
      case RateLimitExceeded(_, _) => Forbidden
      case InvalidField(_, _) => UnprocessableEntity
    }

    /** `isinstance(e, BadRequest)`. */
    predicate IsBadRequest() {
      (HttpError? && kind == BadRequest) || RateLimitExceeded? || InvalidField?
    }

    /** `isinstance(e, RedirectionException)`. */
    predicate IsRedirection() {
      HttpError? && kind == RedirectionException
    }

    /** `isinstance(e, GitterBroken)`. */
    predicate IsGitterBroken() {
      HttpError? && kind == GitterBroken
    }
  }
}
