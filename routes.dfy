/** The pieces of src/routes.js that decide something: the null-safe
    `extractJwtFromHeader`, which never throws and keeps an empty capture,
    and the `info` handler's validation, which ignores expiry. These
    handlers sit over the object of src/api.js. */
module Routes {
  import opened Wrappers
  import opened HttpError
  import opened JsText
  import Request
  import ExtractJwt
  import Jwt
  import Stores
  import TokenIssue
  import Api

  /** The value the middleware stores in `req.jwt`, or `None` when it leaves
      the slot alone. */
  function Extract(authorization: Option<string>): (r: Option<string>)
    ensures Trim(Request.HeaderText(authorization)) == [] ==> r == None
    ensures var auth := Trim(Request.HeaderText(authorization));
      auth != [] ==> r == BearerMatch(auth)
  {
    var auth := Trim(Request.HeaderText(authorization));
    if auth == [] then None else BearerMatch(auth)
  }

  /** The middleware on `req`: `req.jwt` is set when the header matched, and
      `next` is called exactly once in every case. */
  method ExtractJwtFromHeader(req: Request.Request)
    modifies req
    ensures req.nextCalls == old(req.nextCalls) + 1
    ensures req.jwt == if Extract(req.authorization).Some? then Extract(req.authorization) else old(req.jwt)
  {
    var m := Extract(req.authorization);
    if m.Some? {
      req.jwt := m;
    }
    req.nextCalls := req.nextCalls + 1;
  }

  /** The two variants agree except on a header that is just `Bearer` (here
      an empty token, there none) and on a header with another start (here
      ignored, there an exception). */
  lemma VariantsCompared(authorization: Option<string>)
    ensures var auth := Trim(Request.HeaderText(authorization));
      ExtractJwt.Extract(authorization) ==
        if auth != [] && BearerMatch(auth).None? then Err(ExtractJwt.NullMatch)
        else if Extract(authorization) == Some([]) then Ok(None)
        else Ok(Extract(authorization))
  {
  }

  /** `info`: `validateToken(req.jwt, {ignoreExpiration: true})`. It never
      reports an expired token, and what it accepts is the decoded token. */
  function Info(api: Api.Api, token: Option<Jwt.Token>, now: int): (r: Result<TokenIssue.TokenData, Failure>)
    reads api.sessionStore.Repr()
    ensures r != Err(Api.ExpiredToken)
    ensures Jwt.Decode(token).None? ==> r == Err(Api.BadToken)
    ensures r.Ok? ==> r.value == TokenIssue.TokenData(Jwt.Decode(token).value, token)
  {
    Jwt.IgnoreExpirationOnlySkipsExpiry(token, api.config.secret, api.config.algorithms, now);
    Api.ValidateToken(api.sessionStore, api.config, token, true, now)
  }

  /** `info` answers for an expired token that the other operations reject:
      it differs from validation with expiry enforced only where that
      validation reports an expired token. */
  lemma InfoIgnoresExpiry(api: Api.Api, token: Option<Jwt.Token>, now: int)
    ensures Info(api, token, now) != Err(Api.ExpiredToken)
    ensures api.Validate(token, now) != Err(Api.ExpiredToken) ==> Info(api, token, now) == api.Validate(token, now)
    ensures api.Validate(token, now) == Err(Api.ExpiredToken) ==> Info(api, token, now).Ok?
  {
    var config := api.config;
    Jwt.IgnoreExpirationOnlySkipsExpiry(token, config.secret, config.algorithms, now);
    if Jwt.Decode(token).Some? && Api.HasSession(Jwt.Decode(token).value)
       && api.sessionStore.Exists(Jwt.Decode(token).value.session.value) == Ok(true) {
      Api.VerifierDecides(api.sessionStore, config, token, true, now);
      Api.VerifierDecides(api.sessionStore, config, token, false, now);
    }
  }
}
