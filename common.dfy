/**
 * The response envelope shared by every endpoint: an `HttpCode`, a message
 * and a `data` payload, and the constructors that build it.
 */
module Common {
  import opened Wrappers

  /** The closed set of codes a response can carry. */
  datatype HttpCode = Ok | BadRequest | Unauthorized | Forbidden | NotFound | InternalServerError
  {
    /** The enum member's string value. */
    function Value(): string {
      match this
      case Ok => "200"
      case BadRequest => "400"
      case Unauthorized => "401"
      case Forbidden => "403"
      case NotFound => "404"
      case InternalServerError => "500"
    }
  }

  const AllCodes: seq<HttpCode> := [Ok, BadRequest, Unauthorized, Forbidden, NotFound, InternalServerError]

  /** `z.nativeEnum(HttpCode)` read as a parser: the member whose value is `s`. */
  function ParseCode(s: string): (r: Option<HttpCode>)
    ensures r.Some? ==> r.value.Value() == s
    ensures r.None? ==> forall c: HttpCode :: c.Value() != s
  {
    if s == "200" then Some(Ok)
    else if s == "400" then Some(BadRequest)
    else if s == "401" then Some(Unauthorized)
    else if s == "403" then Some(Forbidden)
    else if s == "404" then Some(NotFound)
    else if s == "500" then Some(InternalServerError)
    else None
  }

  /** The string values are exactly '200', '400', '401', '403', '404', '500', one per member. */
  lemma CodeValues()
    ensures forall c: HttpCode :: c.Value() in {"200", "400", "401", "403", "404", "500"}
    ensures forall c: HttpCode :: ParseCode(c.Value()) == Some(c)
    ensures forall c: HttpCode :: c in AllCodes
    ensures |AllCodes| == 6 && forall i, j :: 0 <= i < j < 6 ==> AllCodes[i].Value() != AllCodes[j].Value()
  {
    forall c: HttpCode ensures c in AllCodes {
      match c
      case Ok => assert AllCodes[0] == c;
      case BadRequest => assert AllCodes[1] == c;
      case Unauthorized => assert AllCodes[2] == c;
      case Forbidden => assert AllCodes[3] == c;
      case NotFound => assert AllCodes[4] == c;
      case InternalServerError => assert AllCodes[5] == c;
    }
  }

  /** JavaScript's `null`, the payload of message-only responses. */
  datatype Null = Null

  datatype BaseResponse<T> = BaseResponse(code: HttpCode, message: string, data: T)

  /** `ok(data)`. */
  function OkResponse<T>(data: T): (r: BaseResponse<T>)
    ensures r.code == Ok && r.message == "ok" && r.data == data
  {
    BaseResponse(Ok, "ok", data)
  }

  /** `okMessage(message)`. */
  function OkMessage(message: string): (r: BaseResponse<Null>)
    ensures r == MessageResponse(Ok, message)
  {
    BaseResponse(Ok, message, Null)
  }

  /** The shape shared by every message-only response: the code, the message verbatim, null data. */
  function MessageResponse(code: HttpCode, message: string): BaseResponse<Null> {
    BaseResponse(code, message, Null)
  }

  /** `badRequest(message)`. */
  function BadRequestResponse(message: string): (r: BaseResponse<Null>)
    ensures r == MessageResponse(BadRequest, message)
  {
    BaseResponse(BadRequest, message, Null)
  }

  /** `unauthorized(message)`. */
  function UnauthorizedResponse(message: string): (r: BaseResponse<Null>)
    ensures r == MessageResponse(Unauthorized, message)
  {
    BaseResponse(Unauthorized, message, Null)
  }

  /** `forbidden(message)`. */
  function ForbiddenResponse(message: string): (r: BaseResponse<Null>)
    ensures r == MessageResponse(Forbidden, message)
  {
    BaseResponse(Forbidden, message, Null)
  }

  /** `notFound(message)`. */
  function NotFoundResponse(message: string): (r: BaseResponse<Null>)
    ensures r == MessageResponse(NotFound, message)
  {
    BaseResponse(NotFound, message, Null)
  }

  /** `internalServerError(message)`. */
  function InternalServerErrorResponse(message: string): (r: BaseResponse<Null>)
    ensures r == MessageResponse(InternalServerError, message)
  {
    BaseResponse(InternalServerError, message, Null)
  }

  /**
   * The message-only constructors lose nothing: the code tells which
   * constructor built a response and the message is the one given.
   */
  lemma MessageResponsesDistinguishable(m1: string, m2: string)
    ensures BadRequestResponse(m1) == BadRequestResponse(m2) <==> m1 == m2
    ensures OkMessage(m1) != BadRequestResponse(m2)
    ensures BadRequestResponse(m1) != UnauthorizedResponse(m2)
    ensures UnauthorizedResponse(m1) != ForbiddenResponse(m2)
    ensures ForbiddenResponse(m1) != NotFoundResponse(m2)
    ensures NotFoundResponse(m1) != InternalServerErrorResponse(m2)
    ensures BadRequestResponse(m1).message == m1 && NotFoundResponse(m1).message == m1
  {
  }
}
