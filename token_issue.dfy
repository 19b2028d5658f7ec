/** Token issuing (src/create-generate-token.js): choose the signing
    algorithm once, then sign exactly the claims name, roles and session,
    decode what was signed, and attach the signed token to the result. */
module TokenIssue {
  import opened Wrappers
  import Jwt

  /** The user context the identity provider reports: `{name, roles}`. */
  datatype UserCtx = UserCtx(name: string, roles: seq<string>)

  /** What the token operations hand back: a payload, with the token it came
      from attached as `data.token` where the source attaches it. */
  datatype TokenData = TokenData(payload: Jwt.Payload, token: Option<Jwt.Token>)

  /** The signing configuration: `algorithms` as `verify` reads it,
      `expiresIn` in seconds (`None` when unset; duration parsing is not part
      of this model) and the shared secret. */
  datatype TokenConfig = TokenConfig(algorithms: Jwt.Algorithms, expiresIn: Option<int>, secret: string)

  /** `Array.isArray(algorithms) ? algorithms[0] : "HS256"`; the first entry
      of an empty array is undefined. */
  function SigningAlgorithm(algorithms: Jwt.Algorithms): (alg: Option<string>)
    ensures !algorithms.AlgList? ==> alg == Some("HS256")
    ensures algorithms.AlgList? && |algorithms.list| > 0 ==> alg == Some(algorithms.list[0])
    ensures algorithms == Jwt.AlgList([]) ==> alg == None
  {
    match algorithms
    case AlgList(list) => if |list| > 0 then Some(list[0]) else None
    case _ => Some("HS256")
  }

  /** The algorithm the signer uses: an undefined algorithm means HS256. */
  function EffectiveAlgorithm(algorithms: Jwt.Algorithms): string {
    SigningAlgorithm(algorithms).GetOr("HS256")
  }

  /** The configurations under which the server can verify what it signs:
      no `algorithms`, a non-empty array, or a string that contains `HS256`. */
  predicate VerifiesOwnTokens(algorithms: Jwt.Algorithms) {
    match algorithms
    case Unset => true
    case AlgList(list) => list != []
    case AlgText(text) => Jwt.Contains(text, "HS256")
  }

  /** `generateToken({name, roles}, session)` at time `now`. Only the name,
      the roles and the session are signed; the result is the decoded token
      with the token itself attached. */
  function GenerateToken(config: TokenConfig, user: UserCtx, session: Option<string>, now: int): (d: TokenData)
    ensures d.token.Some? && Jwt.Decode(d.token) == Some(d.payload)
    ensures d.token.value.alg == EffectiveAlgorithm(config.algorithms) && d.token.value.key == config.secret
    ensures d.payload.name == user.name && d.payload.roles == user.roles && d.payload.session == session
    ensures d.payload.iat == now
    ensures config.expiresIn.Some? ==> d.payload.exp == Some(now + config.expiresIn.value)
    ensures config.expiresIn.None? ==> d.payload.exp == None
  {
    var token := Jwt.Sign(user.name, user.roles, session, config.secret,
                          EffectiveAlgorithm(config.algorithms), config.expiresIn, now);
    var data := Jwt.Decode(Some(token));
    TokenData(data.value, Some(token))
  }

  /** The signing algorithm is among the accepted ones exactly under the
      configurations above: a string `algorithms` is searched as text, so
      `"HS512"` does not accept the HS256 the signer falls back on. */
  lemma SigningAlgorithmAccepted(algorithms: Jwt.Algorithms)
    ensures Jwt.Accepts(algorithms, EffectiveAlgorithm(algorithms)) <==> VerifiesOwnTokens(algorithms)
  {
    if algorithms.Unset? {
      assert Jwt.HmacAlgorithms[0] == "HS256";
    }
  }

  /** A single algorithm name other than HS256, given as a string, makes the
      server reject its own tokens. */
  lemma {:induction false} StringAlgorithmNotSelfVerifying()
    ensures !VerifiesOwnTokens(Jwt.AlgText("HS512"))
  {
    var text := "HS512";
    assert text[..5] != "HS256" by { assert text[3] != "HS256"[3]; }
    assert !Jwt.Contains(text[1..], "HS256");
  }

  /** A token the server issued at `iat` verifies at `now` with the server's
      own secret and algorithms, yielding the issued payload, until it
      expires; after that only with expiry ignored. */
  lemma {:induction false} IssuedTokenVerifies(config: TokenConfig, user: UserCtx, session: Option<string>,
                                               iat: int, ignoreExpiration: bool, now: int)
    requires VerifiesOwnTokens(config.algorithms)
    ensures var d := GenerateToken(config, user, session, iat);
      Jwt.Verify(d.token, config.secret, config.algorithms, ignoreExpiration, now) ==
        if !ignoreExpiration && config.expiresIn.Some? && now >= iat + config.expiresIn.value
        then Err(Jwt.TokenExpiredError)
        else Ok(d.payload)
  {
    SigningAlgorithmAccepted(config.algorithms);
    Jwt.VerifySign(user.name, user.roles, session, config.secret, EffectiveAlgorithm(config.algorithms),
                   config.expiresIn, iat, config.algorithms, ignoreExpiration, now);
  }

  /** Under any other configuration no token the server issues verifies:
      `verify` rejects its algorithm before looking at anything else. */
  lemma IssuedTokenRejected(config: TokenConfig, user: UserCtx, session: Option<string>,
                            iat: int, ignoreExpiration: bool, now: int)
    requires !VerifiesOwnTokens(config.algorithms)
    ensures var d := GenerateToken(config, user, session, iat);
      Jwt.Verify(d.token, config.secret, config.algorithms, ignoreExpiration, now) == Err(Jwt.JsonWebTokenError)
  {
    SigningAlgorithmAccepted(config.algorithms);
  }
}
