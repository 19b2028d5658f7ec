/** Token validation as src/create-validate-token.js writes it: verify the
    token first (a failure is the library's own error), then ask the session
    store about the token's `session` claim; a missing session is a plain
    Error. */
module ValidateToken {
  import opened Wrappers
  import opened HttpError
  import Jwt
  import Stores

  /** The plain Error a missing session fails with. */
  const InvalidSession: Failure := Plain("Invalid Session.")

  /** `validateToken(token, ignoreExpiration)` against `store` at time `now`
      (a missing token is `None`). Validation only reads the store. */
  function ValidateToken(store: Stores.SessionStore, algorithms: Jwt.Algorithms, secret: string,
                         token: Option<Jwt.Token>, ignoreExpiration: bool, now: int): (r: Result<Jwt.Payload, Failure>)
    reads store.Repr()
    ensures var v := Jwt.Verify(token, secret, algorithms, ignoreExpiration, now);
      v.Err? ==> r == Err(Verify(v.error))
    ensures var v := Jwt.Verify(token, secret, algorithms, ignoreExpiration, now);
      v.Ok? ==> match store.Exists(Stores.SessionKey(v.value.session))
                case Err(e) => r == Err(e)
                case Ok(live) => r == if live then Ok(v.value) else Err(InvalidSession)
  {
    match Jwt.Verify(token, secret, algorithms, ignoreExpiration, now)
    case Err(e) => Err(Verify(e))
    case Ok(data) =>
      var live :- store.Exists(Stores.SessionKey(data.session));
      if live then Ok(data) else Err(InvalidSession)
  }
}
