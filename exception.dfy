/**
 * The error classes thrown by the service. `ApiError` carries a code and a
 * message; its three subclasses fix the code and answer with the matching
 * response constructor.
 */
module Exception {
  import opened Wrappers
  import opened Common

  datatype ApiError =
    | Generic(code: HttpCode, message: string)    // `new ApiError(code, message)`
    | BadRequestError(message: string)            // `new BadRequestApiError(message)`
    | NotFoundError(message: string)              // `new NotFoundApiError(message)`
    | UnauthorizedError(message: string)          // `new UnauthorizedApiError(message)`
  {
    /** The `code` field as each constructor sets it. */
    function Code(): (c: HttpCode)
      ensures BadRequestError? ==> c == BadRequest
      ensures NotFoundError? ==> c == NotFound
      ensures UnauthorizedError? ==> c == Unauthorized
      ensures Generic? ==> c == code
    {
      match this
      case Generic(c, _) => c
      case BadRequestError(_) => BadRequest
      case NotFoundError(_) => NotFound
      case UnauthorizedError(_) => Unauthorized
    }

    /** `toResponse()`, with each subclass's override. */
    function ToResponse(): (r: BaseResponse<Null>)
      ensures r == MessageResponse(Code(), message)
    {
      match this
      case Generic(c, m) => BaseResponse(c, m, Null)
      case BadRequestError(m) => BadRequestResponse(m)
      case NotFoundError(m) => NotFoundResponse(m)
      case UnauthorizedError(m) => UnauthorizedResponse(m)
    }

    /** `statusCode()`: `Number.parseInt` of the code's string value. */
    function StatusCode(): (n: int)
      ensures n in {200, 400, 401, 403, 404, 500}
      ensures StatusOf(n) == Some(Code())
    {
      CodeNumberIsStatus(Code());
      ParseDecimal(Code().Value())
    }
  }

  predicate IsDigit(c: char) {
    '0' <= c <= '9'
  }

  /** `Number.parseInt` of a string made of decimal digits only. */
  function ParseDecimal(s: string): (n: nat)
    requires forall i :: 0 <= i < |s| ==> IsDigit(s[i])
    ensures n < Pow10(|s|)
  {
    if |s| == 0 then 0
    else
      assert IsDigit(s[|s| - 1]);
      ParseDecimal(s[..|s| - 1]) * 10 + DigitValue(s[|s| - 1])
  }

  /** `10` to the power `k`. */
  function Pow10(k: nat): (p: nat)
    ensures p >= 1
  {
    if k == 0 then 1 else 10 * Pow10(k - 1)
  }

  function DigitValue(c: char): (d: int)
    ensures IsDigit(c) ==> 0 <= d <= 9
  {
    c as int - '0' as int
  }

  lemma {:induction false} ThreeDigits(s: string)
    requires |s| == 3 && forall i :: 0 <= i < 3 ==> IsDigit(s[i])
    ensures ParseDecimal(s) == 100 * DigitValue(s[0]) + 10 * DigitValue(s[1]) + DigitValue(s[2])
  {
    assert s[..2][..1] == s[..1] && s[..2][1] == s[1];
    assert s[..1][..0] == [] && s[..1][0] == s[0];
    assert ParseDecimal(s[..1]) == DigitValue(s[0]);
    assert ParseDecimal(s[..2]) == ParseDecimal(s[..1]) * 10 + DigitValue(s[1]);
    assert ParseDecimal(s) == ParseDecimal(s[..2]) * 10 + DigitValue(s[2]);
  }

  /** The member whose numeric value is `n`, the inverse of `statusCode()`. */
  function StatusOf(n: int): (r: Option<HttpCode>)
    ensures r.Some? <==> n in {200, 400, 401, 403, 404, 500}
  {
    if n == 200 then Some(Ok)
    else if n == 400 then Some(BadRequest)
    else if n == 401 then Some(Unauthorized)
    else if n == 403 then Some(Forbidden)
    else if n == 404 then Some(NotFound)
    else if n == 500 then Some(InternalServerError)
    else None
  }

  lemma CodeNumberIsStatus(c: HttpCode)
    ensures forall i :: 0 <= i < |c.Value()| ==> IsDigit(c.Value()[i])
    ensures ParseDecimal(c.Value()) in {200, 400, 401, 403, 404, 500}
    ensures StatusOf(ParseDecimal(c.Value())) == Some(c)
  {
    ThreeDigits(c.Value());
  }

  /** `statusCode()` tells the codes apart: two errors share it only if they share a code. */
  lemma StatusCodeInjective(e1: ApiError, e2: ApiError)
    ensures e1.StatusCode() == e2.StatusCode() <==> e1.Code() == e2.Code()
  {
    assert StatusOf(e1.StatusCode()) == Some(e1.Code());
    assert StatusOf(e2.StatusCode()) == Some(e2.Code());
  }

  /** Each subclass answers exactly as the matching response constructor does. */
  lemma SubclassResponses(m: string)
    ensures BadRequestError(m).ToResponse() == BadRequestResponse(m)
    ensures BadRequestError(m).ToResponse() == Generic(BadRequest, m).ToResponse()
    ensures NotFoundError(m).ToResponse() == NotFoundResponse(m)
    ensures UnauthorizedError(m).ToResponse() == UnauthorizedResponse(m)
    ensures BadRequestError(m).StatusCode() == 400
    ensures NotFoundError(m).StatusCode() == 404
    ensures UnauthorizedError(m).StatusCode() == 401
  {
  }
}

/**
 * The failure hook `zValidator` hands to the request validator: it does
 * nothing when the request parsed and otherwise throws a bad-request error
 * carrying the first issue's message.
 */
module RequestValidator {
  import opened Wrappers
  import opened Common
  import opened Exception

  /** The outcome of zod's `safeParse`, with the failure's issue messages in order. */
  datatype SafeParseResult<T> = Parsed(data: T) | Issues(messages: seq<string>)

  /** `None` when the hook returns normally, `Some(e)` when it throws `e`. */
  function ValidationHook<T>(result: SafeParseResult<T>): (thrown: Option<ApiError>)
    requires result.Issues? ==> |result.messages| > 0
    ensures thrown.None? <==> result.Parsed?
    ensures thrown.Some? ==> thrown.value == BadRequestError(result.messages[0])
    ensures thrown.Some? ==> thrown.value.ToResponse() == BadRequestResponse(result.messages[0])
  {
    match result
    case Parsed(_) => None
    case Issues(messages) => Some(BadRequestError(messages[0]))
  }
}
