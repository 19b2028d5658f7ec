/** `getCouchDbOptions(uri)` (src/get-couch-options.js): the identity
    provider's credentials and base URL from one URI, with `url.parse` as a
    parameter. The source reads `parsed.auth.split(':')` unconditionally;
    `GetCouchDbOptionsAsWritten` keeps that, and `GetCouchDbOptions` is the
    repaired reading the server configuration uses. */
module CouchOptions {
  import opened Wrappers
  import opened HttpError
  import opened ParseOptions

  const DefaultUri: string := "http://localhost:5984"

  /** The TypeError of calling `split` on the `null` auth of a URI without
      credentials. */
  const NullAuth: Failure := TypeError("Cannot read property 'split' of null")

  /** `{auth: {password, username}, baseUrl}`; `auth` is absent only in the
      repaired reading. */
  datatype CouchOptions = CouchOptions(auth: Option<Credentials>, baseUrl: string)

  /** A template-literal rendering of a part `url.parse` may report as null. */
  function NullText(part: Option<string>): string {
    part.GetOr("null")
  }

  /** `${parsed.protocol}//${parsed.host}`: no path, query or credentials. */
  function BaseUrl(parsed: ParsedUrl): string {
    NullText(parsed.parts.protocol) + "//" + NullText(parsed.host)
  }

  /** The URI in use: the default one when the argument is undefined. */
  function UriOf(uri: Option<string>): string {
    uri.GetOr(DefaultUri)
  }

  /** The source as written: a URI without credentials fails, and a
      password keeps only the text up to its first colon. */
  function GetCouchDbOptionsAsWritten(uri: Option<string>, parse: string -> ParsedUrl): (r: Result<CouchOptions, Failure>)
    ensures r.Err? <==> parse(UriOf(uri)).auth.None?
    ensures r.Err? ==> r.error == NullAuth
    ensures r.Ok? ==> r.value.baseUrl == BaseUrl(parse(UriOf(uri)))
    ensures r.Ok? ==> var auth := parse(UriOf(uri)).auth.value;
      && r.value.auth.Some?
      && (':' !in auth ==> r.value.auth.value == Credentials(auth, None))
      && (':' in auth <==> r.value.auth.value.password.Some?)
      && UpToColon(auth, r.value.auth.value.username)
      && (':' in auth ==> UpToColon(auth[|r.value.auth.value.username| + 1..], r.value.auth.value.password.value))
  {
    var parsed := parse(UriOf(uri));
    match parsed.auth
    case None => Err(NullAuth)
    case Some(auth) =>
      var parts := Split(auth, ':');
      SplitAtColon(auth);
      Ok(CouchOptions(Some(Credentials(parts[0], if |parts| > 1 then Some(parts[1]) else None)), BaseUrl(parsed)))
  }

  /** The default URI itself has no credentials, so the call with no
      argument fails. */
  lemma DefaultUriRejected(parse: string -> ParsedUrl)
    requires parse(DefaultUri).auth.None?
    ensures GetCouchDbOptionsAsWritten(None, parse) == Err(NullAuth)
  {
  }

  /** As written, a password holding a colon keeps only its text up to that
      colon: `user:pa:ss` gives the password `pa`. */
  lemma AsWrittenTruncatesPassword(uri: Option<string>, parse: string -> ParsedUrl, user: string, head: string, tail: string)
    requires ':' !in user && ':' !in head
    requires parse(UriOf(uri)).auth == Some(user + ":" + head + ":" + tail)
    ensures GetCouchDbOptionsAsWritten(uri, parse).Ok?
    ensures GetCouchDbOptionsAsWritten(uri, parse).value.auth == Some(Credentials(user, Some(head)))
  {
    var auth := user + ":" + head + ":" + tail;
    assert auth == user + ":" + (head + ":" + tail);
    SplitAfterPrefix(user, head + ":" + tail);
    SplitAfterPrefix(head, tail);
  }

  /** The repaired reading: no credentials when the URI has none, and the
      full password after the first colon otherwise. */
  function GetCouchDbOptions(uri: Option<string>, parse: string -> ParsedUrl): (r: CouchOptions)
    ensures r.baseUrl == BaseUrl(parse(UriOf(uri)))
    ensures r.auth.None? <==> parse(UriOf(uri)).auth.None?
    ensures r.auth.Some? ==> JoinCredentials(r.auth.value) == parse(UriOf(uri)).auth.value
  {
    var parsed := parse(UriOf(uri));
    CouchOptions(match parsed.auth case None => None case Some(auth) => Some(SplitCredentials(auth)), BaseUrl(parsed))
  }

  /** Where the source succeeds on credentials with at most one colon, the
      repaired reading gives the same options. */
  lemma RepairAgrees(uri: Option<string>, parse: string -> ParsedUrl)
    requires GetCouchDbOptionsAsWritten(uri, parse).Ok?
    requires var auth := parse(UriOf(uri)).auth.value;
      ':' !in auth || ':' !in auth[|SplitCredentials(auth).username| + 1..]
    ensures GetCouchDbOptions(uri, parse) == GetCouchDbOptionsAsWritten(uri, parse).value
  {
    var auth := parse(UriOf(uri)).auth.value;
    var c := SplitCredentials(auth);
    if ':' in auth {
      var rest := auth[|c.username| + 1..];
      assert auth == c.username + ":" + rest;
      SplitAfterPrefix(c.username, rest);
      assert Split(rest, ':') == [rest];
    }
  }

  /** With the default URI, which `url.parse` reads as `http:` on
      `localhost:5984` without credentials, the repaired reading yields the
      local CouchDB and no credentials. */
  lemma DefaultUriAccepted(parse: string -> ParsedUrl)
    requires parse(DefaultUri).parts.protocol == Some("http:")
    requires parse(DefaultUri).host == Some("localhost:5984")
    requires parse(DefaultUri).auth.None?
    ensures GetCouchDbOptions(None, parse) == CouchOptions(None, DefaultUri)
  {
    LocalBaseUrl(parse(DefaultUri));
  }

  /** `http:` on `localhost:5984` gives back the default URI. */
  lemma LocalBaseUrl(parsed: ParsedUrl)
    requires parsed.parts.protocol == Some("http:") && parsed.host == Some("localhost:5984")
    ensures BaseUrl(parsed) == DefaultUri
  {
  }
}
