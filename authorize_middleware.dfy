/** `AuthorizeMiddleware`: picks the token (a `Bearer` Authorization header,
    else the `token` cookie), decodes it, fetches its user, and either attaches
    `{token, user}` to the request and calls `next`, or writes one error
    response. Token decoding (`stringToServiceToken`) is the oracle `decode`. */
module AuthorizeMiddleware {
  import opened Wrappers
  import opened JsValues
  import opened ServiceErrors
  import opened Models
  import opened Http
  import UserService

  /** The scheme prefix matched, case-sensitively, by `startsWith("Bearer ")`. */
  const BearerPrefix: string := "Bearer "

  /** Where the token comes from. */
  datatype TokenSource = BearerHeader(token: string) | TokenCookie(token: string) | NoToken

  /** `token && token.startsWith("Bearer ")` on the Authorization header. */
  predicate IsBearer(header: Option<string>)
  {
    header.Some? && header.value != "" && BearerPrefix <= header.value
  }

  /** The header wins when it is a Bearer header (its first 7 characters cut
      off); otherwise a truthy `token` cookie; otherwise there is no token. */
  function SelectToken(header: Option<string>, cookie: Option<string>): (source: TokenSource)
  {
    if IsBearer(header) then BearerHeader(header.value[|BearerPrefix|..])
    else if cookie.Some? && cookie.value != "" then TokenCookie(cookie.value)
    else NoToken
  }

  /** Decode a token and fetch the user it names. */
  function Resolve(token: string, decode: string -> Result<ServiceToken, Thrown>, users: UserService.UserDao)
    : (r: Result<Authorization, Thrown>)
    ensures r.Success? <==> decode(token).Success? && UserService.FetchUser(users, decode(token).value.userId).Success?
    ensures r.Success? ==> r.value == Authorization(decode(token).value, UserService.FetchUser(users, decode(token).value.userId).value)
  {
    match decode(token)
    case Failure(e) => Failure(e)
    case Success(parsed) =>
      match UserService.FetchUser(users, parsed.userId)
      case Failure(e) => Failure(e)
      case Success(user) => Success(Authorization(parsed, user))
  }

  /** The error response: a JSON envelope, or the rendered `serviceError` view. */
  function ErrorReply(returnAsJson: bool, status: int, message: string): (reply: Reply)
  {
    if returnAsJson then Reply(status, Json(ErrorEnvelope(message)))
    else Reply(status, View("serviceError", message))
  }

  /** How a request leaves the middleware: `next()` (with the identity it
      attached, if any) or one written response. */
  datatype Outcome = Proceed(attached: Option<Authorization>) | Reject(reply: Reply)

  /** Outcome once a token was found. */
  function ResolveOutcome(returnAsJson: bool, token: string, decode: string -> Result<ServiceToken, Thrown>,
                          users: UserService.UserDao): (outcome: Outcome)
  {
    match Resolve(token, decode, users)
    case Success(auth) => Proceed(Some(auth))
    case Failure(e) => Reject(ErrorReply(returnAsJson, MiddlewareStatus(e), e.message))
  }

  /** Outcome of the middleware returned by `authorize(returnAsJson)`. */
  function AuthorizeOutcome(returnAsJson: bool, header: Option<string>, cookie: Option<string>,
                            decode: string -> Result<ServiceToken, Thrown>, users: UserService.UserDao): (outcome: Outcome)
  {
    var source := SelectToken(header, cookie);
    if source.NoToken? then Reject(ErrorReply(returnAsJson, 401, "Unauthorized"))
    else ResolveOutcome(returnAsJson, source.token, decode, users)
  }

  /** Outcome of `loadToken`: like `authorize(true)`, but without a token it
      proceeds with no identity. */
  function LoadTokenOutcome(header: Option<string>, cookie: Option<string>,
                            decode: string -> Result<ServiceToken, Thrown>, users: UserService.UserDao): (outcome: Outcome)
  {
    var source := SelectToken(header, cookie);
    if source.NoToken? then Proceed(None)
    else ResolveOutcome(true, source.token, decode, users)
  }

  /** The middleware returned by `authorize(returnAsJson)`, run on one request. */
  method Authorize(returnAsJson: bool, users: UserService.UserDao, decode: string -> Result<ServiceToken, Thrown>,
                   req: Request, res: Response)
    returns (calledNext: bool)
    modifies req, res
    ensures match AuthorizeOutcome(returnAsJson, req.authorizationHeader, req.tokenCookie, decode, users)
      case Proceed(attached) =>
        calledNext && attached.Some? && req.authorization == attached && res.sent == old(res.sent)
      case Reject(reply) =>
        !calledNext && req.authorization == old(req.authorization) && res.sent == old(res.sent) + [reply]
  {
    var token := req.authorizationHeader;
    if token.Some? && token.value != "" && BearerPrefix <= token.value {
      calledNext := AttachOrReject(returnAsJson, token.value[7..], users, decode, req, res);
    } else if req.tokenCookie.Some? && req.tokenCookie.value != "" {
      calledNext := AttachOrReject(returnAsJson, req.tokenCookie.value, users, decode, req, res);
    } else {
      res.Send(ErrorReply(returnAsJson, 401, "Unauthorized"));
      calledNext := false;
    }
  }

  /** `loadToken`, run on one request. */
  method LoadToken(users: UserService.UserDao, decode: string -> Result<ServiceToken, Thrown>,
                   req: Request, res: Response)
    returns (calledNext: bool)
    modifies req, res
    ensures match LoadTokenOutcome(req.authorizationHeader, req.tokenCookie, decode, users)
      case Proceed(attached) =>
        calledNext && req.authorization == (if attached.Some? then attached else old(req.authorization))
        && res.sent == old(res.sent)
      case Reject(reply) =>
        !calledNext && req.authorization == old(req.authorization) && res.sent == old(res.sent) + [reply]
  {
    var token := req.authorizationHeader;
    if token.Some? && token.value != "" && BearerPrefix <= token.value {
      calledNext := AttachOrReject(true, token.value[7..], users, decode, req, res);
      return;
    }
    if req.tokenCookie.Some? && req.tokenCookie.value != "" {
      calledNext := AttachOrReject(true, req.tokenCookie.value, users, decode, req, res);
      return;
    }
    calledNext := true;
  }

  /** The `try` block shared by both token branches and its `catch`. */
  method AttachOrReject(returnAsJson: bool, token: string, users: UserService.UserDao,
                        decode: string -> Result<ServiceToken, Thrown>, req: Request, res: Response)
    returns (calledNext: bool)
    modifies req, res
    ensures match ResolveOutcome(returnAsJson, token, decode, users)
      case Proceed(attached) =>
        calledNext && req.authorization == attached && res.sent == old(res.sent)
      case Reject(reply) =>
        !calledNext && req.authorization == old(req.authorization) && res.sent == old(res.sent) + [reply]
  {
    var parsedToken := decode(token);
    if parsedToken.Failure? {
      var e := parsedToken.error;
      res.Send(ErrorReply(returnAsJson, MiddlewareStatus(e), e.message));
      return false;
    }
    var user := UserService.FetchUser(users, parsedToken.value.userId);
    if user.Failure? {
      var e := user.error;
      res.Send(ErrorReply(returnAsJson, MiddlewareStatus(e), e.message));
      return false;
    }
    req.authorization := Some(Authorization(parsedToken.value, user.value));
    return true;
  }

  /** A Bearer header decides alone: the token is the header without its
      first 7 characters and the cookie is never consulted. */
  lemma BearerHeaderTakesPrecedence(t: string, cookie: Option<string>)
    ensures SelectToken(Some(BearerPrefix + t), cookie) == BearerHeader(t)
  {
    assert BearerPrefix <= BearerPrefix + t;
    assert (BearerPrefix + t)[|BearerPrefix|..] == t;
  }

  /** A header that does not start with "Bearer " (any other scheme, or the
      scheme in another case) is ignored: the request is treated as if it had
      no header. */
  lemma NonBearerHeaderIgnored(header: string, cookie: Option<string>)
    requires !(BearerPrefix <= header)
    ensures SelectToken(Some(header), cookie) == SelectToken(None, cookie)
    ensures SelectToken(Some("bearer "), cookie) == SelectToken(None, cookie)
  {
    assert "bearer "[0] != BearerPrefix[0];
  }

  /** Without a Bearer header and without a `token` cookie, `authorize`
      answers 401 "Unauthorized", in either response mode, without calling
      `next`; `loadToken` calls `next` and attaches nothing. */
  lemma NoTokenOutcomes(returnAsJson: bool, header: Option<string>, cookie: Option<string>,
                        decode: string -> Result<ServiceToken, Thrown>, users: UserService.UserDao)
    requires !IsBearer(header) && (cookie.None? || cookie.value == "")
    ensures AuthorizeOutcome(returnAsJson, header, cookie, decode, users) == Reject(ErrorReply(returnAsJson, 401, "Unauthorized"))
    ensures ErrorReply(returnAsJson, 401, "Unauthorized").status == 401
    ensures LoadTokenOutcome(header, cookie, decode, users) == Proceed(None)
  {
  }

  /** Once a token is found, it is accepted exactly when it decodes and its
      user exists, and then `{token: parsed, user}` is attached. */
  lemma TokenAcceptedIffResolved(returnAsJson: bool, header: Option<string>, cookie: Option<string>,
                                 decode: string -> Result<ServiceToken, Thrown>, users: UserService.UserDao)
    requires !SelectToken(header, cookie).NoToken?
    ensures var token := SelectToken(header, cookie).token;
      (AuthorizeOutcome(returnAsJson, header, cookie, decode, users).Proceed? <==>
         decode(token).Success? && users.findOne(decode(token).value.userId).Success?
         && users.findOne(decode(token).value.userId).value.Found?)
    ensures var token := SelectToken(header, cookie).token;
      AuthorizeOutcome(returnAsJson, header, cookie, decode, users).Proceed? ==>
        AuthorizeOutcome(returnAsJson, header, cookie, decode, users).attached
          == Some(Authorization(decode(token).value, users.findOne(decode(token).value.userId).value.user))
  {
  }

  /** A token naming a user the DAO does not find is answered with 500, not
      404: the `ServiceError(404)` raised by the user lookup carries no
      `httpStatusCode`. */
  lemma MissingUserAnswers500(returnAsJson: bool, header: Option<string>, cookie: Option<string>,
                              decode: string -> Result<ServiceToken, Thrown>, users: UserService.UserDao)
    requires !SelectToken(header, cookie).NoToken?
    requires decode(SelectToken(header, cookie).token).Success?
    requires var found := users.findOne(decode(SelectToken(header, cookie).token).value.userId);
      found.Success? && !found.value.Found?
    ensures AuthorizeOutcome(returnAsJson, header, cookie, decode, users)
         == Reject(ErrorReply(returnAsJson, 500, "Not found"))
    ensures LoadTokenOutcome(header, cookie, decode, users)
         == Reject(ErrorReply(true, 500, "Not found"))
  {
  }

  /** A rejected token is answered with `e.httpStatusCode || 500` and the
      error's message. */
  lemma RejectionStatus(returnAsJson: bool, token: string,
                        decode: string -> Result<ServiceToken, Thrown>, users: UserService.UserDao)
    requires Resolve(token, decode, users).Failure?
    ensures var e := Resolve(token, decode, users).error;
      ResolveOutcome(returnAsJson, token, decode, users) == Reject(ErrorReply(returnAsJson, MiddlewareStatus(e), e.message))
      && (e.httpStatusCode.None? ==> ResolveOutcome(returnAsJson, token, decode, users).reply.status == 500)
  {
  }

  /** `returnAsJson` only chooses the envelope: the decision, the status and
      the message are the same in both modes. */
  lemma ModeOnlyChoosesEnvelope(header: Option<string>, cookie: Option<string>,
                                decode: string -> Result<ServiceToken, Thrown>, users: UserService.UserDao)
    ensures var asJson := AuthorizeOutcome(true, header, cookie, decode, users);
      var asView := AuthorizeOutcome(false, header, cookie, decode, users);
      asJson.Proceed? == asView.Proceed?
      && (asJson.Proceed? ==> asJson == asView)
      && (asJson.Reject? ==>
            asJson.reply.status == asView.reply.status
            && asJson.reply.body.Json? && asView.reply.body.View?
            && asJson.reply.body.envelope == ErrorEnvelope(asView.reply.body.error)
            && asView.reply.body.template == "serviceError")
  {
  }

  /** `loadToken` behaves as `authorize(true)` whenever a token is present,
      and differs only in proceeding without identity when there is none. */
  lemma LoadTokenAgreesWithAuthorize(header: Option<string>, cookie: Option<string>,
                                     decode: string -> Result<ServiceToken, Thrown>, users: UserService.UserDao)
    ensures !SelectToken(header, cookie).NoToken? ==>
      LoadTokenOutcome(header, cookie, decode, users) == AuthorizeOutcome(true, header, cookie, decode, users)
    ensures SelectToken(header, cookie).NoToken? ==>
      LoadTokenOutcome(header, cookie, decode, users) == Proceed(None)
      && AuthorizeOutcome(true, header, cookie, decode, users).reply.status == 401
  {
  }
}
