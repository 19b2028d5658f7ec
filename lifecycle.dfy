/** The token lifecycle of the server as the `create-*` modules compose it:
    `generateSession` (src/generate-session.js), `login`
    (src/create-login.js), `logout` (src/create-logout.js) and `renew`
    (src/create-renew.js), over the configured session store, the token
    issuer and the role refresher. Random bytes, the clock and the identity
    provider's answers are parameters. */
module Lifecycle {
  import opened Wrappers
  import opened HttpError
  import Jwt
  import Stores
  import SessionId
  import TokenIssue
  import ValidateToken
  import RefreshRoles

  /** `generateSession()` on the server's session store, given the 16 bytes
      the random source yields: the hex id is added to the store before it
      is returned, so it is live on return; a failing `add` rejects and
      leaves the store as it was. */
  method GenerateSession(store: Stores.SessionStore, random: seq<SessionId.byte>, now: int)
    returns (r: Result<string, Failure>)
    requires |random| == SessionId.IdBytes
    requires store.Valid()
    modifies store.Repr()
    ensures store.Valid() && store.Reachable() == old(store.Reachable())
    ensures r.Ok? <==> old(store.Reachable())
    ensures r.Ok? ==> r.value == SessionId.Hex(random) && |r.value| == 32 && store.Live(r.value)
    ensures r.Err? ==> forall sid :: store.Live(sid) == old(store.Live(sid))
    ensures forall sid :: sid != SessionId.Hex(random) ==> store.Live(sid) == old(store.Live(sid))
  {
    var sid := SessionId.Hex(random);
    SessionId.SessionIdShape(random);
    var added := store.Add(sid, now);
    if added.Err? {
      return Err(added.error);
    }
    r := Ok(sid);
  }

  class App {
    const sessionStore: Stores.SessionStore
    const config: TokenIssue.TokenConfig
    const refreshRoles: RefreshRoles.RefreshOption

    constructor (sessionStore: Stores.SessionStore, config: TokenIssue.TokenConfig,
                 refreshRoles: RefreshRoles.RefreshOption)
      ensures this.sessionStore == sessionStore && this.config == config && this.refreshRoles == refreshRoles
    {
      this.sessionStore := sessionStore;
      this.config := config;
      this.refreshRoles := refreshRoles;
    }

    /** `validateToken(token, ignoreExpiration)` bound to this server. */
    function Validate(token: Option<Jwt.Token>, ignoreExpiration: bool, now: int): Result<Jwt.Payload, Failure>
      reads sessionStore.Repr()
    {
      ValidateToken.ValidateToken(sessionStore, config.algorithms, config.secret, token, ignoreExpiration, now)
    }

    /** `login(username, password)` once the identity provider has answered
        `authentication` with the user context or a failure: authenticate,
        then generate a session, then issue a token for the provider's user
        context bound to that session. */
    method Login(authentication: Result<TokenIssue.UserCtx, Failure>, random: seq<SessionId.byte>, now: int)
      returns (r: Result<TokenIssue.TokenData, Failure>)
      requires |random| == SessionId.IdBytes
      requires sessionStore.Valid()
      modifies sessionStore.Repr()
      ensures sessionStore.Valid() && sessionStore.Reachable() == old(sessionStore.Reachable())
      ensures authentication.Err? ==> r == Err(authentication.error)
      ensures authentication.Ok? && !old(sessionStore.Reachable()) ==> r.Err?
      ensures r.Err? ==> forall sid :: sessionStore.Live(sid) == old(sessionStore.Live(sid))
      ensures r.Ok? ==>
        && authentication.Ok?
        && r.value == TokenIssue.GenerateToken(config, authentication.value, Some(SessionId.Hex(random)), now)
        && sessionStore.Live(SessionId.Hex(random))
      ensures forall sid :: sid != SessionId.Hex(random) ==> sessionStore.Live(sid) == old(sessionStore.Live(sid))
      ensures authentication.Ok? && old(sessionStore.Reachable()) ==> r.Ok?
      // the token just issued validates at once, unless the configuration
      // makes every token unverifiable or expired on issue
      ensures r.Ok? && TokenIssue.VerifiesOwnTokens(config.algorithms) && (config.expiresIn.None? || config.expiresIn.value > 0) ==>
        Validate(r.value.token, false, now) == Ok(r.value.payload)
      // a generated id is never one the memory store cannot forget
      ensures r.Ok? && !sessionStore.backend.Empty? ==> sessionStore.Honours(SessionId.Hex(random))
    {
      if authentication.Err? {
        return Err(authentication.error);
      }
      var session := GenerateSession(sessionStore, random, now);
      if session.Err? {
        return Err(session.error);
      }
      r := Ok(TokenIssue.GenerateToken(config, authentication.value, Some(session.value), now));
      SessionId.HexIsNotInherited(random);
      if TokenIssue.VerifiesOwnTokens(config.algorithms) {
        TokenIssue.IssuedTokenVerifies(config, authentication.value, Some(session.value), now, false, now);
      }
    }

    /** `logout(token)`: validate with expiry ignored, remove the token's
        session, and hand back the validated payload. A validation failure
        touches nothing. */
    method Logout(token: Option<Jwt.Token>, now: int) returns (r: Result<Jwt.Payload, Failure>)
      requires sessionStore.Valid()
      modifies sessionStore.Repr()
      ensures sessionStore.Valid() && sessionStore.Reachable() == old(sessionStore.Reachable())
      ensures old(Validate(token, true, now)).Err? ==>
        r == old(Validate(token, true, now)) && forall sid :: sessionStore.Live(sid) == old(sessionStore.Live(sid))
      ensures r.Ok? ==> old(Validate(token, true, now)) == Ok(r.value)
      ensures old(Validate(token, true, now)).Ok? ==> r.Ok?
      ensures r.Ok? && sessionStore.Honours(Stores.SessionKey(r.value.session)) ==>
        !sessionStore.Live(Stores.SessionKey(r.value.session))
      ensures r.Ok? ==> forall sid :: sid != Stores.SessionKey(r.value.session) ==>
        sessionStore.Live(sid) == old(sessionStore.Live(sid))
      // the same token no longer validates once its session is gone ...
      ensures r.Ok? && sessionStore.Honours(Stores.SessionKey(r.value.session)) ==>
        Validate(token, true, now) == Err(ValidateToken.InvalidSession)
      // ... but the empty store never forgets a session
      ensures r.Ok? && sessionStore.backend.Empty? ==> Validate(token, true, now) == Ok(r.value)
    {
      var data :- Validate(token, true, now);
      var removed := sessionStore.Remove(Stores.SessionKey(data.session));
      match removed
      case Err(e) => r := Err(e);
      case Ok(_) => r := Ok(data);
    }

    /** `renew(token)` once the provider has answered the default refresher's
        lookup with `lookup`: validate with expiry ignored, replace the roles
        with the refreshed ones, and issue a new token for the same name and
        session. Renewing never touches the store. */
    method Renew(token: Option<Jwt.Token>, now: int, lookup: RefreshRoles.Lookup)
      returns (r: Result<TokenIssue.TokenData, Failure>)
      ensures Validate(token, true, now).Err? ==> r == Err(Validate(token, true, now).error)
      ensures var v := Validate(token, true, now);
        v.Ok? ==> match RefreshRoles.RefreshRoles(refreshRoles, TokenIssue.TokenData(v.value, None), lookup)
                  case Err(e) => r == Err(e)
                  case Ok(roles) =>
                    && r.Ok?
                    && r.value.payload.name == v.value.name
                    && r.value.payload.session == v.value.session
                    && r.value.payload.roles == roles
                    && r.value.payload.iat == now
                    && Jwt.Decode(r.value.token) == Some(r.value.payload)
    {
      var data :- Validate(token, true, now);
      var roles :- RefreshRoles.RefreshRoles(refreshRoles, TokenIssue.TokenData(data, None), lookup);
      data := data.(roles := roles);
      r := Ok(TokenIssue.GenerateToken(config, TokenIssue.UserCtx(data.name, data.roles), data.session, now));
    }
  }
}
