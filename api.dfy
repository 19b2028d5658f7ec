/** The single-object variant of the server's operations in src/api.js. It
    shares token issuing and session generation with the `create-*` modules
    but differs from them elsewhere: provider errors become HTTP errors,
    validation decodes and checks the session before it verifies, and
    `logout`/`renew` enforce expiry. */
module Api {
  import opened Wrappers
  import opened HttpError
  import Jwt
  import Stores
  import SessionId
  import TokenIssue
  import RefreshRoles
  import Lifecycle
  import CreateValidate = ValidateToken

  /** The identity provider's answer to `GET /_session`: the session body
      with the user context, an error response with its status and the
      body's `reason`, or no response at all. */
  datatype SessionReply =
    | SessionBody(userCtx: TokenIssue.UserCtx)
    | ErrorResponse(status: int, reason: Option<string>)
    | NoResponse

  /** `authenticate(username, password)` once the provider has answered. */
  function Authenticate(reply: SessionReply): (r: Result<TokenIssue.UserCtx, Failure>)
    ensures r.Ok? <==> reply.SessionBody?
    ensures reply.SessionBody? ==> r.value == reply.userCtx
    ensures reply.ErrorResponse? && reply.status == 401 ==>
      r == Err(Http(HTTPError(401, if Given(reply.reason) then reply.reason else ReasonPhrase(401), "EBADAUTH")))
    ensures reply.ErrorResponse? && reply.status != 401 ==>
      r == Err(Http(HTTPError(reply.status, if Given(reply.reason) then reply.reason else ReasonPhrase(reply.status), "ECOUCH")))
    ensures reply.NoResponse? ==> r == Err(Failure.NoResponse)
  {
    match reply
    case SessionBody(userCtx) => Ok(userCtx)
    case ErrorResponse(status, reason) =>
      if status == 401 then Err(Http(NewHTTPError(401, reason, Some("EBADAUTH"))))
      else Err(Http(NewHTTPError(status, reason, Some("ECOUCH"))))
    case NoResponse => Err(Failure.NoResponse)
  }

  const BadToken: Failure := Http(HTTPError(401, Some("Missing or invalid token."), "EBADTOKEN"))
  const BadSession: Failure := Http(HTTPError(401, Some("Invalid session."), "EBADSESSION"))
  const MissingSession: Failure := Http(HTTPError(401, Some("Missing session id."), "EBADSESSION"))
  const ExpiredToken: Failure := Http(HTTPError(401, Some("Expired token."), "EEXPTOKEN"))

  /** A JavaScript-truthy `session` claim: present and not the empty string. */
  predicate HasSession(p: Jwt.Payload) {
    p.session.Some? && p.session.value != ""
  }

  /** How a verification error is reported; `None` for an error that is
      ignored, so that the payload is returned after all. */
  function VerifyFailure(e: Jwt.VerifyError): (f: Option<Failure>)
    ensures Jwt.ErrorName(e) == "TokenExpiredError" <==> f == Some(ExpiredToken)
    ensures Jwt.ErrorName(e) == "JsonWebTokenError" <==> f == Some(BadToken)
    ensures f.None? <==> e.NotBeforeError?
  {
    if Jwt.ErrorName(e) == "TokenExpiredError" then Some(ExpiredToken)
    else if Jwt.ErrorName(e) == "JsonWebTokenError" then Some(BadToken)
    else None
  }

  /** `validateToken(token, {ignoreExpiration})` at time `now`: decode
      without verifying, check the session claim against the store, then
      verify; the decoded payload comes back with the token attached. */
  function ValidateToken(store: Stores.SessionStore, config: TokenIssue.TokenConfig,
                         token: Option<Jwt.Token>, ignoreExpiration: bool, now: int): (r: Result<TokenIssue.TokenData, Failure>)
    reads store.Repr()
    ensures Jwt.Decode(token).None? ==> r == Err(BadToken)
    ensures Jwt.Decode(token).Some? && !HasSession(Jwt.Decode(token).value) ==> r == Err(MissingSession)
    ensures r.Ok? ==> r.value == TokenIssue.TokenData(Jwt.Decode(token).value, token)
  {
    match Jwt.Decode(token)
    case None => Err(BadToken)
    case Some(data) =>
      if !HasSession(data) then Err(MissingSession)
      else
        var live :- store.Exists(data.session.value);
        if !live then Err(BadSession)
        else match Jwt.Verify(token, config.secret, config.algorithms, ignoreExpiration, now)
          case Err(e) =>
            (match VerifyFailure(e)
             case Some(f) => Err(f)
             case None => Ok(TokenIssue.TokenData(data, token)))
          case Ok(_) => Ok(TokenIssue.TokenData(data, token))
  }

  /** The session check precedes verification: a decodable token whose
      session is not live is reported as a bad session whatever its
      signature, algorithm or expiry, and an unreachable store fails the
      call before the token is verified. */
  lemma SessionCheckedFirst(store: Stores.SessionStore, config: TokenIssue.TokenConfig,
                            token: Option<Jwt.Token>, ignoreExpiration: bool, now: int)
    requires Jwt.Decode(token).Some? && HasSession(Jwt.Decode(token).value)
    ensures var sid := Jwt.Decode(token).value.session.value;
      store.Exists(sid) == Ok(false) ==> ValidateToken(store, config, token, ignoreExpiration, now) == Err(BadSession)
    ensures var sid := Jwt.Decode(token).value.session.value;
      store.Exists(sid).Err? ==> ValidateToken(store, config, token, ignoreExpiration, now) == Err(store.Exists(sid).error)
  {
  }

  /** Once the session is live, the outcome is the verifier's, except that a
      token rejected only because its `nbf` lies in the future is accepted. */
  lemma VerifierDecides(store: Stores.SessionStore, config: TokenIssue.TokenConfig,
                        token: Option<Jwt.Token>, ignoreExpiration: bool, now: int)
    requires Jwt.Decode(token).Some? && HasSession(Jwt.Decode(token).value)
    requires store.Exists(Jwt.Decode(token).value.session.value) == Ok(true)
    ensures var v := Jwt.Verify(token, config.secret, config.algorithms, ignoreExpiration, now);
      var r := ValidateToken(store, config, token, ignoreExpiration, now);
      && (v == Err(Jwt.TokenExpiredError) <==> r == Err(ExpiredToken))
      && (v == Err(Jwt.JsonWebTokenError) <==> r == Err(BadToken))
      && (v.Ok? || v == Err(Jwt.NotBeforeError) <==> r.Ok?)
  {
  }

  /** A token signed with the server's secret and an accepted algorithm whose
      `nbf` has not yet arrived is accepted, while the verifier rejects it. */
  lemma NotYetValidAccepted(store: Stores.SessionStore, config: TokenIssue.TokenConfig,
                            payload: Jwt.Payload, alg: string, ignoreExpiration: bool, now: int)
    requires Jwt.Accepts(config.algorithms, alg)
    requires HasSession(payload) && store.Exists(payload.session.value) == Ok(true)
    requires payload.nbf.Some? && payload.nbf.value > now
    ensures var token := Some(Jwt.Signed(alg, payload, config.secret));
      && Jwt.Verify(token, config.secret, config.algorithms, ignoreExpiration, now) == Err(Jwt.NotBeforeError)
      && ValidateToken(store, config, token, ignoreExpiration, now) == Ok(TokenIssue.TokenData(payload, token))
  {
  }

  /** The two validation variants agree on a good token: when the verifier
      accepts it and its session claim names a live session, both return
      its payload. */
  lemma VariantsAgreeOnGoodTokens(store: Stores.SessionStore, config: TokenIssue.TokenConfig,
                                  token: Option<Jwt.Token>, ignoreExpiration: bool, now: int)
    requires Jwt.Verify(token, config.secret, config.algorithms, ignoreExpiration, now).Ok?
    requires Jwt.Decode(token).Some? && HasSession(Jwt.Decode(token).value)
    requires store.Exists(Jwt.Decode(token).value.session.value) == Ok(true)
    ensures var data := Jwt.Decode(token).value;
      && CreateValidate.ValidateToken(store, config.algorithms, config.secret, token, ignoreExpiration, now) == Ok(data)
      && ValidateToken(store, config, token, ignoreExpiration, now) == Ok(TokenIssue.TokenData(data, token))
  {
    Jwt.VerifyAccepts(token, config.secret, config.algorithms, ignoreExpiration, now);
  }

  /** ... and disagree on a forged token for a dead session: the `create-*`
      variant reports the verifier's error, this one a bad session. */
  lemma VariantsDisagreeOnForgedTokens(store: Stores.SessionStore, config: TokenIssue.TokenConfig,
                                       payload: Jwt.Payload, alg: string, key: string,
                                       ignoreExpiration: bool, now: int)
    requires key != config.secret
    requires HasSession(payload) && store.Exists(payload.session.value) == Ok(false)
    ensures var token := Some(Jwt.Signed(alg, payload, key));
      && CreateValidate.ValidateToken(store, config.algorithms, config.secret, token, ignoreExpiration, now)
           == Err(Verify(Jwt.JsonWebTokenError))
      && ValidateToken(store, config, token, ignoreExpiration, now) == Err(BadSession)
  {
  }

  /** `defaultRefreshRoles` of this variant: any failure, with or without a
      response, falls back on the existing roles. */
  function DefaultRefreshRoles(data: TokenIssue.TokenData, lookup: RefreshRoles.Lookup): (r: Result<seq<string>, Failure>)
    ensures r.Ok?
    ensures lookup.UserDoc? ==> r.value == lookup.roles
    ensures !lookup.UserDoc? ==> r.value == data.payload.roles
  {
    match lookup
    case UserDoc(roles) => Ok(roles)
    case _ => Ok(data.payload.roles)
  }

  /** `api.refreshRoles(data)`: the configured function, the default
      refresher when the option is unset, the existing roles otherwise. */
  function RefreshRolesWith(option: RefreshRoles.RefreshOption, data: TokenIssue.TokenData,
                            lookup: RefreshRoles.Lookup): (r: Result<seq<string>, Failure>)
    ensures option.Unset? ==> r == DefaultRefreshRoles(data, lookup)
    ensures option.Given? ==> r == option.refresh(data)
    ensures option.NotAFunction? ==> r == Ok(data.payload.roles)
  {
    match option
    case Unset => DefaultRefreshRoles(data, lookup)
    case Given(refresh) => refresh(data)
    case NotAFunction => Ok(data.payload.roles)
  }

  /** The two role-refresh variants differ only when the provider cannot be
      reached: the `create-*` default rethrows, this one keeps the roles. */
  lemma RefreshVariantsDiffer(option: RefreshRoles.RefreshOption, data: TokenIssue.TokenData,
                              lookup: RefreshRoles.Lookup)
    ensures RefreshRolesWith(option, data, lookup) != RefreshRoles.RefreshRoles(option, data, lookup) <==>
              option.Unset? && lookup.NoResponse?
  {
  }

  class Api {
    const sessionStore: Stores.SessionStore
    const config: TokenIssue.TokenConfig
    const refreshRoles: RefreshRoles.RefreshOption

    constructor (sessionStore: Stores.SessionStore, config: TokenIssue.TokenConfig,
                 refreshRoles: RefreshRoles.RefreshOption)
      ensures this.sessionStore == sessionStore && this.config == config && this.refreshRoles == refreshRoles
    {
      this.sessionStore := sessionStore;
      this.config := config;
      this.refreshRoles := refreshRoles;
    }

    function Validate(token: Option<Jwt.Token>, now: int): Result<TokenIssue.TokenData, Failure>
      reads sessionStore.Repr()
    {
      ValidateToken(sessionStore, config, token, false, now)
    }

    /** `api.login(username, password)` once the provider has answered
        `reply`: an authentication failure adds no session. */
    method Login(reply: SessionReply, random: seq<SessionId.byte>, now: int)
      returns (r: Result<TokenIssue.TokenData, Failure>)
      requires |random| == SessionId.IdBytes
      requires sessionStore.Valid()
      modifies sessionStore.Repr()
      ensures sessionStore.Valid()
      ensures Authenticate(reply).Err? ==> r == Err(Authenticate(reply).error)
      ensures r.Err? ==> forall sid :: sessionStore.Live(sid) == old(sessionStore.Live(sid))
      ensures r.Ok? ==>
        && reply.SessionBody?
        && r.value == TokenIssue.GenerateToken(config, reply.userCtx, Some(SessionId.Hex(random)), now)
        && sessionStore.Live(SessionId.Hex(random))
      ensures reply.SessionBody? && old(sessionStore.Reachable()) ==> r.Ok?
      ensures forall sid :: sid != SessionId.Hex(random) ==> sessionStore.Live(sid) == old(sessionStore.Live(sid))
      // the token just issued passes this variant's validation at once
      ensures r.Ok? && TokenIssue.VerifiesOwnTokens(config.algorithms) && (config.expiresIn.None? || config.expiresIn.value > 0) ==>
        Validate(r.value.token, now) == Ok(r.value)
    {
      var user :- Authenticate(reply);
      var session := Lifecycle.GenerateSession(sessionStore, random, now);
      if session.Err? {
        return Err(session.error);
      }
      r := Ok(TokenIssue.GenerateToken(config, user, Some(session.value), now));
      if TokenIssue.VerifiesOwnTokens(config.algorithms) {
        TokenIssue.IssuedTokenVerifies(config, user, Some(session.value), now, false, now);
      }
    }

    /** `api.logout(token)`: validate with expiry enforced, then remove the
        token's session. */
    method Logout(token: Option<Jwt.Token>, now: int) returns (r: Result<TokenIssue.TokenData, Failure>)
      requires sessionStore.Valid()
      modifies sessionStore.Repr()
      ensures sessionStore.Valid()
      ensures old(Validate(token, now)).Err? ==>
        r == old(Validate(token, now)) && forall sid :: sessionStore.Live(sid) == old(sessionStore.Live(sid))
      ensures r.Ok? <==> old(Validate(token, now)).Ok?
      ensures r.Ok? ==> old(Validate(token, now)) == r
      ensures r.Ok? && sessionStore.Honours(r.value.payload.session.value) ==>
        !sessionStore.Live(r.value.payload.session.value) && Validate(token, now) == Err(BadSession)
      ensures r.Ok? ==> forall sid :: sid != r.value.payload.session.value ==>
        sessionStore.Live(sid) == old(sessionStore.Live(sid))
    {
      var data :- Validate(token, now);
      var removed := sessionStore.Remove(data.payload.session.value);
      match removed
      case Err(e) => r := Err(e);
      case Ok(_) => r := Ok(data);
    }

    /** `api.renew(token)` once the provider has answered the default
        refresher's lookup with `lookup`: validate with expiry enforced,
        refresh the roles and reissue for the same name and session. */
    method Renew(token: Option<Jwt.Token>, now: int, lookup: RefreshRoles.Lookup)
      returns (r: Result<TokenIssue.TokenData, Failure>)
      ensures Validate(token, now).Err? ==> r == Validate(token, now)
      ensures var v := Validate(token, now);
        v.Ok? ==> match RefreshRolesWith(refreshRoles, v.value, lookup)
                  case Err(e) => r == Err(e)
                  case Ok(roles) =>
                    && r.Ok?
                    && r.value.payload.name == v.value.payload.name
                    && r.value.payload.session == v.value.payload.session
                    && r.value.payload.roles == roles
                    && r.value.payload.iat == now
                    && Jwt.Decode(r.value.token) == Some(r.value.payload)
    {
      var data :- Validate(token, now);
      var roles :- RefreshRolesWith(refreshRoles, data, lookup);
      data := data.(payload := data.payload.(roles := roles));
      r := Ok(TokenIssue.GenerateToken(config, TokenIssue.UserCtx(data.payload.name, data.payload.roles),
                                       data.payload.session, now));
    }
  }
}
