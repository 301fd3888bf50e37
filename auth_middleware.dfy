/** server/middleware/auth.ts: the gate in front of every private route. It
    reads the `x-auth-token` header, decodes it with the configured secret,
    and either attaches the token's user to the request and passes control
    on, or answers 401 and stops. */
module AuthMiddleware {
  import opened Js
  import opened Http
  import opened Accounts

  const NoTokenError := Err("No token, authorization denied.")

  /** The payload jwt.verify returns; its `user` may be missing. */
  datatype Payload = Payload(user: Option<Identity>)

  /** `E.tryCatch(() => jwt.verify(token, secret), E.toError)` as a function
      of (token, secret): the payload, or the error the library threw. */
  type Verifier = (string, string) -> Either<Error, Payload>

  /** `getToken`: an absent or falsy (empty) header is a Left; anything else
      is the token itself. */
  function GetToken(header: Option<string>): (e: Either<Error, string>)
    ensures e.Left? <==> header.None? || header.value == ""
    ensures e.Left? ==> e.left == NoTokenError
    ensures e.Right? ==> header == Some(e.right)
  {
    if header.None? || header.value == "" then Left(NoTokenError) else Right(header.value)
  }

  /** `decode(secret)(token)`. */
  function Decode(verify: Verifier, secret: string, token: string): Either<Error, Payload>
  {
    verify(token, secret)
  }

  /** `handleDecode`: a Left passes through without decoding; a token is
      decoded with `secret`, and the decoder's Either is the result. */
  function HandleDecode(verify: Verifier, secret: string, e: Either<Error, string>): (r: Either<Error, Payload>)
    ensures e.Left? ==> r == Left(e.left)
    ensures e.Right? ==> r == verify(e.right, secret)
  {
    match e
    case Left(err) => Left(err)
    case Right(token) => Decode(verify, secret, token)
  }

  /** `flow(getToken, handleDecode)`: what the gate decides for a header. A
      missing or empty header is refused whatever the decoder would say, so
      the decoder is not consulted; otherwise the decoder decides. */
  function Gate(verify: Verifier, secret: string, header: Option<string>): (r: Either<Error, Payload>)
    ensures header.None? || header == Some("") ==> r == Left(NoTokenError)
    ensures header.Some? && header.value != "" ==> r == verify(header.value, secret)
  {
    HandleDecode(verify, secret, GetToken(header))
  }

  /** The request as the gate sees it: the `x-auth-token` header, `req.user`,
      and how often `next()` has been called. */
  class Request {
    var header: Option<string>
    var user: Option<Identity>
    var nextCalls: nat

    constructor (header: Option<string>)
      ensures this.header == header && user.None? && nextCalls == 0
    {
      this.header := header;
      user := None;
      nextCalls := 0;
    }
  }

  /** The operational log `console.error` writes to. */
  class Console {
    var errors: seq<string>

    constructor ()
      ensures errors == []
    {
      errors := [];
    }

    method Error(msg: string)
      modifies this
      ensures errors == old(errors) + [msg]
    {
      errors := errors + [msg];
    }
  }

  /** `setReq`: `req.user = payload.user; next()`. */
  method SetReq(req: Request, payload: Payload)
    modifies req
    ensures req.user == payload.user
    ensures req.nextCalls == old(req.nextCalls) + 1
    ensures req.header == old(req.header)
  {
    req.user := payload.user;
    req.nextCalls := req.nextCalls + 1;
  }

  /** `sendErrorRes(res, code)(err)`: writes the error envelope and hands the
      error on. */
  method SendErrorRes<T>(res: Response<T>, code: int, err: Error) returns (e: Error)
    modifies res
    ensures res.status == code && res.body == Some(Errors([Msg(err.message)]))
    ensures e == err
  {
    res.SetStatus(code);
    res.Json(Errors([Msg(err.message)]));
    e := err;
  }

  /** `logError`: the message alone goes to the log. */
  method LogError(console: Console, err: Error)
    modifies console
    ensures console.errors == old(console.errors) + [err.message]
  {
    console.Error(err.message);
  }

  /** `respond(res)`: answer 401, then log. */
  method Respond<T>(res: Response<T>, console: Console, err: Error)
    modifies res, console
    ensures res.Snapshot() == ErrorReply(401, err.message)
    ensures console.errors == old(console.errors) + [err.message]
  {
    var e := SendErrorRes(res, 401, err);
    LogError(console, e);
  }

  /** `handleResponse`: fold the decision into the request or the response. */
  method HandleResponse<T>(req: Request, res: Response<T>, console: Console, e: Either<Error, Payload>)
    modifies req, res, console
    ensures req.header == old(req.header)
    ensures e.Right? ==> req.user == e.right.user && req.nextCalls == old(req.nextCalls) + 1
    ensures e.Right? ==> res.Snapshot() == old(res.Snapshot()) && console.errors == old(console.errors)
    ensures e.Left? ==> res.Snapshot() == ErrorReply(401, e.left.message)
    ensures e.Left? ==> console.errors == old(console.errors) + [e.left.message]
    ensures e.Left? ==> req.user == old(req.user) && req.nextCalls == old(req.nextCalls)
  {
    match e
    case Left(err) => Respond(res, console, err);
    case Right(payload) => SetReq(req, payload);
  }

  /** `checkToken`: the gate as a middleware, with `secret` the process's
      `JWT_SECRET`. On success the request carries the token's user, `next`
      has been called exactly once and nothing is written or logged; on
      failure the response is 401 with the error's own message, that message
      is logged once, and `next` is not called. */
  method CheckToken<T>(verify: Verifier, config: Config, req: Request, res: Response<T>, console: Console)
    modifies req, res, console
    ensures req.header == old(req.header)
    ensures var g := Gate(verify, config.jwtSecret, old(req.header));
      g.Right? ==> (req.user == g.right.user && req.nextCalls == old(req.nextCalls) + 1
                    && res.Snapshot() == old(res.Snapshot()) && console.errors == old(console.errors))
    ensures var g := Gate(verify, config.jwtSecret, old(req.header));
      g.Left? ==> (res.Snapshot() == ErrorReply(401, g.left.message)
                   && console.errors == old(console.errors) + [g.left.message]
                   && req.user == old(req.user) && req.nextCalls == old(req.nextCalls))
  {
    var token := GetToken(req.header);
    var decoded := HandleDecode(verify, config.jwtSecret, token);
    HandleResponse(req, res, console, decoded);
  }

  /** Without a token the answer is always 401 "No token, authorization
      denied.", whichever decoder is configured. */
  lemma NoTokenIsRefused(verify: Verifier, other: Verifier, secret: string, header: Option<string>)
    requires header.None? || header == Some("")
    ensures Gate(verify, secret, header) == Gate(other, secret, header) == Left(NoTokenError)
    ensures Gate(verify, secret, header).left.message == "No token, authorization denied."
  {
  }
}
