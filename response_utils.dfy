/** Response shaping (src/response-utils.js): the default transform of a
    token payload into the JSON answer, and the content negotiation of
    `res.ok(data)`: JSON when acceptable, else the bare token as
    `application/jwt`, else a 406 error. */
module ResponseUtils {
  import opened Wrappers
  import opened HttpError
  import Jwt
  import TokenIssue

  /** A value as `res.json` is handed it. A date is its time in
      milliseconds, `None` for an invalid date (which serialises as null). */
  datatype Json =
    | JUndefined
    | JBool(b: bool)
    | JNum(n: int)
    | JStr(s: string)
    | JList(items: seq<Json>)
    | JToken(token: Jwt.Token)
    | JDate(time: Option<int>)
    | JObj(fields: map<string, Json>)

  function GetField(data: map<string, Json>, key: string): Json {
    if key in data then data[key] else JUndefined
  }

  function Strings(items: seq<string>): (r: seq<Json>)
    ensures |r| == |items| && forall i :: 0 <= i < |items| ==> r[i] == JStr(items[i])
  {
    if items == [] then [] else [JStr(items[0])] + Strings(items[1..])
  }

  /** The object an operation resolves with: the payload's claims, absent
      ones left out, and `token` when the token is attached. */
  function DataObject(d: TokenIssue.TokenData): (r: map<string, Json>)
    ensures r.Keys <= {"name", "roles", "session", "iat", "exp", "nbf", "token"}
    ensures GetField(r, "name") == JStr(d.payload.name)
    ensures GetField(r, "roles") == JList(Strings(d.payload.roles))
    ensures GetField(r, "iat") == JNum(d.payload.iat)
    ensures GetField(r, "nbf") == (if d.payload.nbf.Some? then JNum(d.payload.nbf.value) else JUndefined)
    ensures GetField(r, "exp") == (if d.payload.exp.Some? then JNum(d.payload.exp.value) else JUndefined)
    ensures GetField(r, "session") == (if d.payload.session.Some? then JStr(d.payload.session.value) else JUndefined)
    ensures GetField(r, "token") == (if d.token.Some? then JToken(d.token.value) else JUndefined)
  {
    var p := d.payload;
    var claims := map["name" := JStr(p.name), "roles" := JList(Strings(p.roles)), "iat" := JNum(p.iat)];
    var withSession := if p.session.Some? then claims["session" := JStr(p.session.value)] else claims;
    var withExp := if p.exp.Some? then withSession["exp" := JNum(p.exp.value)] else withSession;
    var withNbf := if p.nbf.Some? then withExp["nbf" := JNum(p.nbf.value)] else withExp;
    if d.token.Some? then withNbf["token" := JToken(d.token.value)] else withNbf
  }

  /** `new Date(seconds * 1000)`; a missing claim makes an invalid date.
      Only a number or a missing claim reaches it from `DataObject`; the
      coercion JavaScript applies to other kinds (`true`, `"5"`, `[]`) is
      not modelled, and they are taken as invalid dates. */
  function DateOf(seconds: Json): (r: Json)
    ensures seconds.JNum? ==> r == JDate(Some(seconds.n * 1000))
    ensures !seconds.JNum? ==> r == JDate(None)
  {
    if seconds.JNum? then JDate(Some(seconds.n * 1000)) else JDate(None)
  }

  /** `defaultTransform(data)`: name and roles under `userCtx`, session and
      token passed through, `iat`/`exp` as dates. */
  function DefaultTransform(data: map<string, Json>): (r: map<string, Json>)
    ensures r.Keys == {"userCtx", "session", "token", "issued", "expires"}
    ensures r["userCtx"] == JObj(map["name" := GetField(data, "name"), "roles" := GetField(data, "roles")])
    ensures r["session"] == GetField(data, "session") && r["token"] == GetField(data, "token")
    ensures r["issued"] == DateOf(GetField(data, "iat")) && r["expires"] == DateOf(GetField(data, "exp"))
  {
    map[
      "userCtx" := JObj(map["name" := GetField(data, "name"), "roles" := GetField(data, "roles")]),
      "session" := GetField(data, "session"),
      "token" := GetField(data, "token"),
      "issued" := DateOf(GetField(data, "iat")),
      "expires" := DateOf(GetField(data, "exp"))]
  }

  /** The default transform of a token payload shows the user's name and
      roles under `userCtx`, and the issue and expiry times in milliseconds;
      a token without expiry gets an invalid date. */
  lemma TransformedTimes(d: TokenIssue.TokenData)
    ensures var r := DefaultTransform(DataObject(d));
      && r["userCtx"] == JObj(map["name" := JStr(d.payload.name), "roles" := JList(Strings(d.payload.roles))])
      && r["issued"] == JDate(Some(d.payload.iat * 1000))
      && r["expires"] == (if d.payload.exp.Some? then JDate(Some(d.payload.exp.value * 1000)) else JDate(None))
      && r["session"] == (if d.payload.session.Some? then JStr(d.payload.session.value) else JUndefined)
  {
  }

  /** The `transform` option: unset (the default transform), a function, or
      some other value (no transform). */
  datatype Transform =
    | DefaultTransformer
    | Custom(f: map<string, Json> -> map<string, Json>)
    | NotAFunction

  function Transformed(transform: Transform, data: map<string, Json>): map<string, Json> {
    match transform
    case DefaultTransformer => DefaultTransform(data)
    case Custom(f) => f(data)
    case NotAFunction => data
  }

  /** Which response types the request accepts. */
  datatype Accepts = Accepts(json: bool, jwt: bool)

  datatype Reply = JsonReply(body: map<string, Json>) | JwtReply(sent: Json) | Refused(err: HTTPError)

  /** `res.ok(data)` */
  function Ok(accepts: Accepts, transform: Transform, data: map<string, Json>): (r: Reply)
    ensures accepts.json <==> r.JsonReply?
    ensures r.JsonReply? ==> var shaped := Transformed(transform, data);
      && r.body.Keys == shaped.Keys + {"ok"}
      && r.body["ok"] == JBool(true)
      && forall k :: k in shaped && k != "ok" ==> r.body[k] == shaped[k]
    ensures !accepts.json && accepts.jwt ==> r == JwtReply(GetField(data, "token"))
    ensures !accepts.json && !accepts.jwt ==> r == Refused(NewHTTPError(406, None, None))
  {
    if accepts.json then
      var shaped := Transformed(transform, data);
      JsonReply((map k | k in shaped && k != "ok" :: shaped[k])["ok" := JBool(true)])
    else if accepts.jwt then JwtReply(GetField(data, "token"))
    else Refused(NewHTTPError(406, None, None))
  }

  /** A client accepting neither type gets a 406 `Not Acceptable` error
      response. */
  lemma NotAcceptable(transform: Transform, data: map<string, Json>)
    ensures var r := Ok(Accepts(false, false), transform, data);
      && r.Refused?
      && Route(Some(Http(r.err))) == Respond(406, ErrorBody(true, Some("Not Acceptable"), 406, "EERROR"))
  {
  }

  /** A client accepting `application/jwt` only gets exactly the token the
      operation attached. */
  lemma JwtReplyIsToken(d: TokenIssue.TokenData, transform: Transform)
    requires d.token.Some?
    ensures Ok(Accepts(false, true), transform, DataObject(d)) == JwtReply(JToken(d.token.value))
  {
  }
}
