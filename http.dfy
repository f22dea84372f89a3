/** The request/response vocabulary shared by the middlewares, the handlers and
    the exception filter: the server's `HTTPError`, thrown values, the recorded
    effect of one middleware step, the request object and the JWT oracles. */
module Http {
  import opened Wrappers
  import opened Json

  /** `new HTTPError(statusCode, message, context?)`. */
  datatype HttpError = HttpError(statusCode: int, message: string, context: Option<string>)

  /** A thrown value: the server's own `HTTPError`, or any other `Error`
      (a `TypeError`, a Mongoose `ValidationError`, ...) with its name and message. */
  datatype Thrown = HttpErr(err: HttpError) | OtherErr(name: string, message: string)

  /** `String(e)` for an `Error` object (`Error.prototype.toString`). */
  function ErrorString(name: string, message: string): string {
    if message == "" then name
    else if name == "" then message
    else name + ": " + message
  }

  /** The TypeError a property read on `undefined` raises. */
  function ReadOfUndefined(property: string): Thrown {
    OtherErr("TypeError", "Cannot read properties of undefined (reading '" + property + "')")
  }

  /** The TypeError a destructuring pattern `{ property }` raises when the value
      it destructures, written `source`, is `undefined`. */
  function DestructureOfUndefined(property: string, source: string): Thrown {
    OtherErr("TypeError", "Cannot destructure property '" + property + "' of '" + source + "' as it is undefined.")
  }

  /** A JSON document, plain text, or the `Location` of a redirect. */
  datatype Body = JsonBody(json: Json) | TextBody(text: string) | RedirectTo(location: string)

  /** What was written to `res`: the status, the content type and the body. */
  datatype Response = Response(status: int, contentType: string, body: Body)

  const ApplicationJson: string := "application/json"

  /** `res.status(status).send(obj)`/`.json(obj)` with an object: a JSON response. */
  function JsonResponse(status: int, j: Json): (r: Response)
    ensures r.status == status && r.contentType == ApplicationJson && r.body == JsonBody(j)
  {
    Response(status, ApplicationJson, JsonBody(j))
  }

  /** What one pipeline step did with the request:
      `next()` (Continue), `next(err)` (Forward), a synchronous throw that
      Express hands to the error handlers (Raise), a response written without
      calling `next` (Reply), or neither a response nor a `next` call (Stall). */
  datatype Step =
    | Continue
    | Forward(err: Thrown)
    | Raise(thrown: Thrown)
    | Reply(response: Response)
    | Stall

  /** `req.authUser`: the claims copied from a verified token. A claim missing
      from the token's payload is `undefined`. */
  datatype RequestUser = RequestUser(email: Option<string>, role: Option<string>, id: Option<string>)

  /** The Express request: the `Authorization` and `Origin` headers and the parsed
      JSON body are fixed; `authUser` is the one field middleware writes. */
  class Request {
    const authorization: Option<string>
    const origin: Option<string>
    const body: Json
    var authUser: Option<RequestUser>

    constructor(authorization: Option<string>, origin: Option<string>, body: Json)
      ensures this.authorization == authorization && this.origin == origin && this.body == body
      ensures authUser == None
    {
      this.authorization := authorization;
      this.origin := origin;
      this.body := body;
      authUser := None;
    }
  }

  /** The claim object a token carries (any of the three may be missing). */
  datatype Claims = Claims(email: Option<string>, role: Option<string>, id: Option<string>)

  /** A verified token decodes to an object payload or to something else
      (a string payload). */
  datatype Decoded = ObjectPayload(claims: Claims) | OtherPayload

  datatype VerifyOutcome = VerifyFailed | Verified(decoded: Decoded)

  /** `jsonwebtoken.sign(payload, secret, {expiresIn?})`, HS256, as an oracle. */
  type SignFn = (Claims, Option<string>, Option<string>) -> string

  /** `jsonwebtoken.verify(token, secret)` as an oracle; the token itself may
      be `undefined`. Signature and expiry checking are the library's. */
  type VerifyFn = (Option<string>, Option<string>) -> VerifyOutcome
}
