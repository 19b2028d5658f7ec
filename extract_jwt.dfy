/** `extractJwtFromHeader` as src/extract-jwt-from-header.js writes it: the
    regular expression's result is destructured without a null check, so a
    header that does not start with `Bearer` throws before `next` is called,
    and an empty capture leaves `req.jwt` unset. */
module ExtractJwt {
  import opened Wrappers
  import opened HttpError
  import opened JsText
  import Request

  /** The TypeError destructuring a null match raises (its text is the
      runtime's). */
  const NullMatch: Failure := TypeError("match result is null")

  /** The middleware's decision for a header: `Ok(Some(t))` sets `req.jwt`
      to `t`, `Ok(None)` leaves it alone, `Err` is the exception. */
  function Extract(authorization: Option<string>): (r: Result<Option<string>, Failure>)
    ensures Trim(Request.HeaderText(authorization)) == [] ==> r == Ok(None)
    ensures var auth := Trim(Request.HeaderText(authorization));
      auth != [] && BearerMatch(auth).None? ==> r == Err(NullMatch)
    ensures var auth := Trim(Request.HeaderText(authorization));
      auth != [] && BearerMatch(auth).Some? ==>
        r == if BearerMatch(auth).value == [] then Ok(None) else Ok(BearerMatch(auth))
  {
    var auth := Trim(Request.HeaderText(authorization));
    if auth == [] then Ok(None)
    else
      match BearerMatch(Trim(auth))
      case None => TrimIdempotent(Request.HeaderText(authorization)); Err(NullMatch)
      case Some(jwt) => TrimIdempotent(Request.HeaderText(authorization)); if jwt != [] then Ok(Some(jwt)) else Ok(None)
  }

  /** The middleware on `req`: it sets `req.jwt` as decided and calls `next`
      once, or throws without calling `next`. */
  method ExtractJwtFromHeader(req: Request.Request) returns (thrown: Option<Failure>)
    modifies req
    ensures Extract(req.authorization).Err? ==>
      thrown == Some(Extract(req.authorization).error) && req.jwt == old(req.jwt) && req.nextCalls == old(req.nextCalls)
    ensures Extract(req.authorization).Ok? ==>
      && thrown == None
      && req.nextCalls == old(req.nextCalls) + 1
      && req.jwt == if Extract(req.authorization).value.Some? then Extract(req.authorization).value else old(req.jwt)
  {
    var decision := Extract(req.authorization);
    match decision
    case Err(e) =>
      return Some(e);
    case Ok(jwt) =>
      if jwt.Some? {
        req.jwt := jwt;
      }
      req.nextCalls := req.nextCalls + 1;
      thrown := None;
  }

  /** What a client sending `Bearer`, optional white space and a token gets:
      the token, with or without the space. */
  lemma BearerTokenExtracted(gap: string, token: string)
    requires forall i :: 0 <= i < |gap| ==> IsSpace(gap[i])
    requires token != [] && !IsSpace(token[0]) && !IsSpace(token[|token| - 1])
    requires NoLineTerminator(token)
    ensures Extract(Some(Bearer + gap + token)) == Ok(Some(token))
  {
    var header := Bearer + gap + token;
    assert header[0] == 'B' && header[|header| - 1] == token[|token| - 1];
    TrimmedText(header);
    BearerThenToken(gap, token);
  }

  /** A header that is just `Bearer` leaves `req.jwt` unset ... */
  lemma BareBearerHeader(header: string)
    requires Trim(header) == Bearer
    ensures Extract(Some(header)) == Ok(None)
  {
    assert Request.HeaderText(Some(header)) == header;
    var auth := Trim(header);
    assert auth[..|Bearer|] == Bearer && auth[|Bearer|..] == [];
  }

  /** ... and one with any other start throws: the match is anchored and
      case-sensitive. */
  lemma ForeignHeaderThrows(header: string)
    requires Trim(header) != [] && !(|Trim(header)| >= |Bearer| && Trim(header)[..|Bearer|] == Bearer)
    ensures Extract(Some(header)) == Err(NullMatch)
  {
    assert Request.HeaderText(Some(header)) == header;
  }
}
