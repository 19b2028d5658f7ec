/** The JSON Web Token codec (RFC 7519, HMAC-SHA256 per section 3.2 of
    RFC 7518) as the server uses it through the `jsonwebtoken` package:
    `sign`, `decode` and `verify`. Cryptography and the compact serialisation
    are not modelled: a token is kept as the structured value it stands for,
    so a signed token carries its payload, its algorithm and the key it was
    signed with, and a string that is not a token at all is `Garbled`. */
module Jwt {
  import opened Wrappers

  /** A decoded payload: the server's claims and the registered time claims
      (seconds since the epoch). `session` is absent for a session-less token;
      `nbf` only appears in tokens from other signers. */
  datatype Payload = Payload(
    name: string,
    roles: seq<string>,
    session: Option<string>,
    iat: int,
    exp: Option<int>,
    nbf: Option<int>)

  datatype Token =
    | Signed(alg: string, payload: Payload, key: string)
    | Garbled(text: string)

  /** The error classes `jwt.verify` throws, known to callers by `e.name`. */
  datatype VerifyError = TokenExpiredError | JsonWebTokenError | NotBeforeError

  function ErrorName(e: VerifyError): string {
    match e
    case TokenExpiredError => "TokenExpiredError"
    case JsonWebTokenError => "JsonWebTokenError"
    case NotBeforeError => "NotBeforeError"
  }

  /** The algorithms `verify` accepts for a shared secret when none are configured. */
  const HmacAlgorithms: seq<string> := ["HS256", "HS384", "HS512"]

  /** The `algorithms` option as `verify` reads it: falsy (the HMAC list
      applies), an array, or a non-empty string, which `indexOf` searches as
      text. */
  datatype Algorithms = Unset | AlgList(list: seq<string>) | AlgText(text: string)

  /** `text.indexOf(part) !== -1`: `part` occurs in `text` at some offset. */
  predicate Contains(text: string, part: string)
    decreases |text|
  {
    |part| <= |text| && (text[..|part|] == part || Contains(text[1..], part))
  }

  /** `part` occurs in `text` at offset `i`. */
  predicate OccursAt(text: string, part: string, i: nat) {
    i + |part| <= |text| && text[i..i + |part|] == part
  }

  /** `Contains` finds every occurrence ... */
  lemma {:induction false} ContainsAt(text: string, part: string, i: nat)
    requires OccursAt(text, part, i)
    ensures Contains(text, part)
  {
    if i > 0 && text[..|part|] != part {
      assert text[1..][i - 1..i - 1 + |part|] == text[i..i + |part|];
      ContainsAt(text[1..], part, i - 1);
    }
  }

  /** ... and only occurrences. */
  lemma {:induction false} ContainsOffset(text: string, part: string)
    requires Contains(text, part)
    ensures exists i: nat :: OccursAt(text, part, i)
  {
    if text[..|part|] == part {
      assert OccursAt(text, part, 0);
    } else {
      ContainsOffset(text[1..], part);
      var i: nat :| OccursAt(text[1..], part, i);
      assert text[1..][i..i + |part|] == text[i + 1..i + 1 + |part|];
      assert OccursAt(text, part, i + 1);
    }
  }

  /** `algorithms.indexOf(alg) !== -1` on the list `verify` uses: the HMAC
      list when the option is falsy, element equality for an array, and a
      text search for a string. */
  predicate Accepts(algorithms: Algorithms, alg: string) {
    match algorithms
    case Unset => alg in HmacAlgorithms
    case AlgList(list) => alg in list
    case AlgText(text) => Contains(text, alg)
  }

  /** `jwt.sign({name, roles, session}, key, {algorithm, expiresIn})` at time
      `now`: `iat` is `now`, `exp` is `now + expiresIn` when an expiry is
      configured, and an undefined `session` is dropped by serialisation. */
  function Sign(name: string, roles: seq<string>, session: Option<string>,
                key: string, alg: string, expiresIn: Option<int>, now: int): (t: Token)
    ensures t.Signed? && t.alg == alg && t.key == key
    ensures t.payload.iat == now && t.payload.nbf == None
    ensures expiresIn.Some? ==> t.payload.exp == Some(now + expiresIn.value)
    ensures expiresIn.None? ==> t.payload.exp == None
  {
    var exp := match expiresIn case Some(e) => Some(now + e) case None => None;
    Signed(alg, Payload(name, roles, session, now, exp, None), key)
  }

  /** `jwt.decode(token)`: the payload without any check, or null when the
      text is not a token (a missing token decodes to null as well). */
  function Decode(token: Option<Token>): (p: Option<Payload>)
    ensures p.Some? <==> token.Some? && token.value.Signed?
    ensures p.Some? ==> p.value == token.value.payload
  {
    match token
    case Some(Signed(_, payload, _)) => Some(payload)
    case _ => None
  }

  /** `jwt.verify(token, key, {algorithms, ignoreExpiration})` at time `now`,
      checking in the library's order: the token is well formed, its algorithm
      is accepted, its signature matches the key, `nbf` has passed and,
      unless `ignoreExpiration`, `exp` lies in the future. */
  function Verify(token: Option<Token>, key: string, algorithms: Algorithms,
                  ignoreExpiration: bool, now: int): (r: Result<Payload, VerifyError>)
  {
    match token
    case None => Err(JsonWebTokenError)
    case Some(Garbled(_)) => Err(JsonWebTokenError)
    case Some(Signed(alg, payload, signedWith)) =>
      if !Accepts(algorithms, alg) then Err(JsonWebTokenError)
      else if signedWith != key then Err(JsonWebTokenError)
      else if payload.nbf.Some? && payload.nbf.value > now then Err(NotBeforeError)
      else if !ignoreExpiration && payload.exp.Some? && now >= payload.exp.value then Err(TokenExpiredError)
      else Ok(payload)
  }

  /** Whether a payload's expiry has been reached at `now`. */
  predicate Expired(p: Payload, now: int) {
    p.exp.Some? && now >= p.exp.value
  }

  /** What `verify` accepts is exactly what `decode` reads, and only a token
      signed with the key under an accepted algorithm, already valid, and
      (unless expiry is ignored) not yet expired is accepted. */
  lemma VerifyAccepts(token: Option<Token>, key: string, algorithms: Algorithms,
                      ignoreExpiration: bool, now: int)
    ensures var r := Verify(token, key, algorithms, ignoreExpiration, now);
      r.Ok? <==>
        && Decode(token).Some?
        && Accepts(algorithms, token.value.alg)
        && token.value.key == key
        && !(token.value.payload.nbf.Some? && token.value.payload.nbf.value > now)
        && (ignoreExpiration || !Expired(token.value.payload, now))
    ensures var r := Verify(token, key, algorithms, ignoreExpiration, now);
      r.Ok? ==> Decode(token) == Some(r.value)
  {
  }

  /** Expiry is the only check that `ignoreExpiration` switches off: a token
      that verifies with expiry enforced verifies the same when it is ignored,
      and one rejected as expired verifies once expiry is ignored. */
  lemma IgnoreExpirationOnlySkipsExpiry(token: Option<Token>, key: string,
                                        algorithms: Algorithms, now: int)
    ensures Verify(token, key, algorithms, false, now).Ok? ==>
              Verify(token, key, algorithms, true, now) == Verify(token, key, algorithms, false, now)
    ensures Verify(token, key, algorithms, false, now) == Err(TokenExpiredError) ==>
              Verify(token, key, algorithms, true, now).Ok?
    ensures Verify(token, key, algorithms, true, now) != Err(TokenExpiredError)
  {
  }

  /** Round trip: decoding a signed token gives back the signed claims. */
  lemma DecodeSign(name: string, roles: seq<string>, session: Option<string>,
                   key: string, alg: string, expiresIn: Option<int>, now: int)
    ensures var p := Decode(Some(Sign(name, roles, session, key, alg, expiresIn, now)));
      p.Some? && p.value.name == name && p.value.roles == roles && p.value.session == session
  {
  }

  /** A token this server signed verifies with the same key and an accepted
      algorithm until its `exp`, from then on only with expiry ignored. */
  lemma VerifySign(name: string, roles: seq<string>, session: Option<string>,
                   key: string, alg: string, expiresIn: Option<int>, iat: int,
                   algorithms: Algorithms, ignoreExpiration: bool, now: int)
    requires Accepts(algorithms, alg)
    ensures var t := Sign(name, roles, session, key, alg, expiresIn, iat);
      Verify(Some(t), key, algorithms, ignoreExpiration, now) ==
        if !ignoreExpiration && expiresIn.Some? && now >= iat + expiresIn.value
        then Err(TokenExpiredError)
        else Ok(t.payload)
  {
  }
}
