/** Connection-option normalisation (src/parse-options.js): accept an object
    or a URL string, merge the URL's query into the options, fall back on
    the local CouchDB when there is no URL, turn a `user:pass` auth string
    into a record, and derive a credential-free `baseUrl` ending in `/`.
    `url.parse` is a parameter; `url.format` is modelled for the parts of a
    URL that reach it. */
module ParseOptions {
  import opened Wrappers
  import opened HttpError
  import opened JsValues

  /** The parts of a parsed URL that `url.format` reads once `host`, `href`,
      `search`, `query`, `hash` and `auth` have been omitted; `None` is the
      `null` that `url.parse` reports for a missing part, and `slashes` says
      whether `//` followed the protocol. */
  datatype UrlParts = UrlParts(protocol: Option<string>, hostname: Option<string>,
                               port: Option<string>, pathname: Option<string>, slashes: bool)

  /** What `url.parse(href, true, true)` reports: the parts above, `host`
      (hostname and port), `auth` and the parsed query. */
  datatype ParsedUrl = ParsedUrl(parts: UrlParts, host: Option<string>, auth: Option<string>,
                                 query: map<string, Value>)

  /** The URL parts used when no URL was given: the defaults filled into an
      empty object, which has no `slashes`. */
  const LocalCouch: UrlParts := UrlParts(Some("http:"), Some("localhost"), Some("5984"), None, false)

  const BadOptions: Failure := Plain("Expecting an object or string for connection options.")
  const NotAString: Failure := TypeError("The \"url\" argument must be of type string")

  function IndexOf(s: string, c: char): (r: Option<nat>)
    ensures r.None? <==> c !in s
    ensures r.Some? ==> r.value < |s| && s[r.value] == c && c !in s[..r.value]
  {
    if |s| == 0 then None
    else if s[0] == c then Some(0)
    else match IndexOf(s[1..], c)
      case None => None
      case Some(i) => assert s[..i + 1] == [s[0]] + s[1..][..i]; Some(i + 1)
  }

  /** `parts.join(sep)` */
  function Join(parts: seq<string>, sep: char): string {
    if |parts| <= 1 then (if parts == [] then "" else parts[0])
    else parts[0] + [sep] + Join(parts[1..], sep)
  }

  /** `s.split(sep)`: the pieces between the separators, at least one. */
  function Split(s: string, sep: char): (parts: seq<string>)
    ensures |parts| >= 1
    ensures forall i :: 0 <= i < |parts| ==> sep !in parts[i]
    ensures Join(parts, sep) == s
    decreases |s|
  {
    match IndexOf(s, sep)
    case None => [s]
    case Some(i) =>
      var rest := Split(s[i + 1..], sep);
      assert s == s[..i] + [sep] + s[i + 1..];
      [s[..i]] + rest
  }

  /** The `{username, password}` record an auth string becomes. */
  datatype Auth = Auth(username: string, password: string)

  /** `piece` is the text of `s` up to its first colon, or all of `s` when
      it has none. */
  predicate UpToColon(s: string, piece: string) {
    && |piece| <= |s|
    && s[..|piece|] == piece
    && ':' !in piece
    && (|piece| == |s| || s[|piece|] == ':')
  }

  /** The pieces of a join: the first piece is the text up to the first
      separator, and the rest follows that separator. */
  lemma JoinHead(parts: seq<string>)
    requires |parts| >= 1 && ':' !in parts[0]
    ensures UpToColon(Join(parts, ':'), parts[0])
    ensures |parts| == 1 ==> Join(parts, ':') == parts[0]
    ensures |parts| > 1 ==> Join(parts, ':')[|parts[0]| + 1..] == Join(parts[1..], ':')
  {
    if |parts| > 1 {
      var j := Join(parts, ':');
      assert j == parts[0] + [':'] + Join(parts[1..], ':');
      assert j[..|parts[0]|] == parts[0];
    }
  }

  /** `{username: parts[0] || "", password: parts[1] || ""}` for
      `parts = auth.split(":")`: the password is the text between the first
      and the second colon. */
  function SplitAuth(auth: string): (a: Auth)
    ensures ':' !in auth ==> a == Auth(auth, "")
    ensures ':' !in a.username && ':' !in a.password
    ensures ':' in auth ==> |a.username| < |auth| && auth[..|a.username|] == a.username && auth[|a.username|] == ':'
    ensures UpToColon(auth, a.username)
    ensures ':' in auth ==> UpToColon(auth[|a.username| + 1..], a.password)
  {
    var parts := Split(auth, ':');
    SplitAtColon(auth);
    Auth(parts[0], if |parts| > 1 then parts[1] else "")
  }

  /** The first piece of a split is the text up to the first colon, and the
      second the text after it up to the next one. */
  lemma SplitAtColon(auth: string)
    ensures var parts := Split(auth, ':');
      && (':' in auth ==> |parts| > 1 && auth == parts[0] + [':'] + Join(parts[1..], ':'))
      && UpToColon(auth, parts[0])
      && (|parts| > 1 ==> UpToColon(auth[|parts[0]| + 1..], parts[1]))
  {
    var parts := Split(auth, ':');
    JoinHead(parts);
    if |parts| > 1 {
      JoinHead(parts[1..]);
    }
  }

  /** `s` with a `/` appended unless it already ends in one. */
  function WithTrailingSlash(s: string): (r: string)
    ensures |r| > 0 && r[|r| - 1] == '/'
    ensures r == s || r == s + "/"
    ensures |s| > 0 && s[|s| - 1] == '/' ==> r == s
  {
    if |s| > 0 && s[|s| - 1] == '/' then s else s + "/"
  }

  /** The host as `url.format` writes it from a hostname: an IPv6 address in
      brackets, then `:port` when there is a port; `None` (the source's
      `false`) without a hostname. */
  function Host(parts: UrlParts): (h: Option<string>)
    ensures h.Some? <==> Given(parts.hostname)
  {
    if !Given(parts.hostname) then None
    else
      var name := parts.hostname.value;
      Some((if ':' in name then "[" + name + "]" else name) +
           (if Given(parts.port) then ":" + parts.port.value else ""))
  }

  /** A plain host name with a port is written as `name:port`. */
  lemma HostWithPort(parts: UrlParts)
    requires Given(parts.hostname) && ':' !in parts.hostname.value && Given(parts.port)
    ensures Host(parts) == Some(parts.hostname.value + ":" + parts.port.value)
  {
    var name := parts.hostname.value;
    assert name + (":" + parts.port.value) == name + ":" + parts.port.value;
  }

  /** The protocols `url.format` writes `//` after even when the URL had
      none. */
  const SlashedProtocols: set<string> := {"http:", "https:", "ftp:", "gopher:", "file:"}

  /** The protocol with its colon, or the empty text when there is none. */
  function ProtocolText(parts: UrlParts): (p: string)
    ensures p == [] || p[|p| - 1] == ':'
  {
    var protocol := parts.protocol.GetOr("");
    if protocol != "" && protocol[|protocol| - 1] != ':' then protocol + ":" else protocol
  }

  /** Whether `url.format` writes `//`: the URL had slashes, or it has a host
      and its protocol is absent or one of the slashed ones. */
  predicate WritesSlashes(parts: UrlParts) {
    parts.slashes || ((ProtocolText(parts) == "" || ProtocolText(parts) in SlashedProtocols) && Host(parts).Some?)
  }

  /** `url.format` of the remaining parts: the protocol, then `//`, the host
      and a path made absolute when the slashes are written, or else the
      host and the path as they are. */
  function Format(parts: UrlParts): (r: string)
    ensures var head := ProtocolText(parts) + (if WritesSlashes(parts) then "//" else "");
      |head| <= |r| && r[..|head|] == head
    ensures !WritesSlashes(parts) ==> r == ProtocolText(parts) + Host(parts).GetOr("") + parts.pathname.GetOr("")
  {
    var path := parts.pathname.GetOr("");
    if WritesSlashes(parts) then
      ProtocolText(parts) + "//" + Host(parts).GetOr("") + (if path != "" && path[0] != '/' then "/" + path else path)
    else
      ProtocolText(parts) + Host(parts).GetOr("") + path
  }

  /** A URL that is only an absolute path, such as `/db`, formats as that
      path: with no protocol, host or slashes, no `//` is written. */
  lemma HostlessPath(path: string)
    ensures Format(UrlParts(None, None, None, Some(path), false)) == path
  {
  }

  /** `opts && (opts.href || opts.baseUrl)`: the URL an option carries before
      a string option replaces it. */
  function HrefOf(opts: Value): Value {
    if !Truthy(opts) then opts
    else match opts
      case Obj(fields) => Or(Get(fields, "href"), Get(fields, "baseUrl"))
      case _ => Undefined
  }

  /** The options object the normalisation starts from, and the URL to
      parse; a bad option kind fails. */
  function Start(opts: Value): (r: Result<(map<string, Value>, Value), Failure>)
    ensures r.Err? <==> !IsNullish(opts) && !opts.Str? && TypeOf(opts) != "object"
  {
    if IsNullish(opts) then Ok((map[], HrefOf(opts)))
    else if opts.Str? then Ok((map[], opts))
    else if TypeOf(opts) != "object" then Err(BadOptions)
    else match opts
      case Obj(fields) => Ok((fields, HrefOf(opts)))
      case _ => Ok((map[], HrefOf(opts)))
  }

  /** The options carry a string `baseUrl` that ends in `/`. */
  predicate HasBaseUrl(options: map<string, Value>) {
    && "baseUrl" in options
    && options["baseUrl"].Str?
    && |options["baseUrl"].s| > 0
    && options["baseUrl"].s[|options["baseUrl"].s| - 1] == '/'
  }

  /** Everything `parseOptions` does before it applies `defs`: start from
      the option kind, merge the URL's query, rewrite `auth` and `baseUrl`.
      `parse` stands for `url.parse`. */
  function Normalise(opts: Value, parse: string -> ParsedUrl): (r: Result<map<string, Value>, Failure>)
    ensures !IsNullish(opts) && !opts.Str? && TypeOf(opts) != "object" ==> r == Err(BadOptions)
    ensures r.Ok? ==> HasBaseUrl(r.value)
  {
    var start :- Start(opts);
    var (fields0, href) := start;
    var parsed :-
      if !Truthy(href) then Ok(ParsedUrl(LocalCouch, None, None, map[]))
      else if href.Str? then Ok(parse(href.s))
      else Err(NotAString);
    var fields := if Truthy(href) then Defaults(fields0, parsed.query) else fields0;
    Ok(WithAuthAndBase(fields, parsed))
  }

  /** `defaults(opts, defs)`, the last step: `defs` fill in exactly the
      options that are still undefined, and every defined option, `baseUrl`
      included, is kept. */
  function WithDefaults(normal: map<string, Value>, defs: map<string, Value>): (r: map<string, Value>)
    requires HasBaseUrl(normal)
    ensures HasBaseUrl(r)
    ensures r.Keys == normal.Keys + defs.Keys
    ensures r["baseUrl"] == normal["baseUrl"]
    ensures forall k :: k in defs && Get(normal, k) == Undefined ==> r[k] == defs[k]
    ensures forall k :: k in normal && normal[k] != Undefined ==> r[k] == normal[k]
  {
    Defaults(normal, defs)
  }

  /** `parseOptions(opts, defs)`: the normalised options completed with
      `defs`. */
  function ParseOptions(opts: Value, defs: map<string, Value>, parse: string -> ParsedUrl): (r: Result<map<string, Value>, Failure>)
    ensures r.Err? <==> Normalise(opts, parse).Err?
    ensures !IsNullish(opts) && !opts.Str? && TypeOf(opts) != "object" ==> r == Err(BadOptions)
    ensures r.Ok? ==> HasBaseUrl(r.value)
    ensures r.Ok? ==> defs.Keys <= r.value.Keys
  {
    match Normalise(opts, parse)
    case Err(e) => Err(e)
    case Ok(normal) => Ok(WithDefaults(normal, defs))
  }

  /** Steps after the query merge: the URL's auth replaces the option's, an
      auth string becomes a record, and `baseUrl` is the URL without auth. */
  function WithAuthAndBase(fields: map<string, Value>, parsed: ParsedUrl): (r: map<string, Value>)
    ensures "baseUrl" in r && r["baseUrl"] == Str(WithTrailingSlash(Format(parsed.parts)))
    ensures Given(parsed.auth) ==> "auth" in r && r["auth"] == AuthRecord(parsed.auth.value)
    ensures !Given(parsed.auth) && Get(fields, "auth").Str? ==> "auth" in r && r["auth"] == AuthRecord(fields["auth"].s)
    ensures forall k :: k in fields && k != "auth" && k != "baseUrl" ==> k in r && r[k] == fields[k]
    ensures r.Keys <= fields.Keys + {"auth", "baseUrl"}
  {
    var withAuth := if Given(parsed.auth) then fields["auth" := Str(parsed.auth.value)] else fields;
    var split :=
      match Get(withAuth, "auth")
      case Str(auth) => withAuth["auth" := AuthRecord(auth)]
      case _ => withAuth;
    split["baseUrl" := Str(WithTrailingSlash(Format(parsed.parts)))]
  }

  /** The `{username, password}` object an auth string becomes. */
  function AuthRecord(auth: string): Value {
    var a := SplitAuth(auth);
    Obj(map["username" := Str(a.username), "password" := Str(a.password)])
  }

  lemma LocalCouchUrl()
    ensures WithTrailingSlash(Format(LocalCouch)) == "http://localhost:5984/"
  {
    var host := "localhost";
    assert host[0] != ':' && host[1] != ':' && host[2] != ':' && host[3] != ':' && host[4] != ':'
        && host[5] != ':' && host[6] != ':' && host[7] != ':' && host[8] != ':';
    assert ':' !in host;
    HostWithPort(LocalCouch);
    assert Host(LocalCouch) == Some(host + ":" + "5984");
    assert WritesSlashes(LocalCouch);
    var formatted := Format(LocalCouch);
    assert formatted == "http:" + "//" + (host + ":" + "5984") + "";
    assert formatted == "http://localhost:5984";
    assert formatted[|formatted| - 1] == '4';
  }

  /** Null or undefined options normalise to nothing but the local
      CouchDB's base URL. */
  lemma NormaliseWithoutOptions(opts: Value, parse: string -> ParsedUrl)
    requires IsNullish(opts)
    ensures Normalise(opts, parse) == Ok(map["baseUrl" := Str("http://localhost:5984/")])
  {
    LocalCouchUrl();
    var empty: map<string, Value> := map[];
    assert WithAuthAndBase(empty, ParsedUrl(LocalCouch, None, None, map[])) == map["baseUrl" := Str("http://localhost:5984/")];
  }

  /** Without a URL, the base URL is the local CouchDB's. */
  lemma NoUrlMeansLocalCouch(opts: Value, defs: map<string, Value>, parse: string -> ParsedUrl)
    requires !Truthy(HrefOf(opts)) && !opts.Str?
    requires ParseOptions(opts, defs, parse).Ok?
    ensures ParseOptions(opts, defs, parse).value["baseUrl"] == Str("http://localhost:5984/")
  {
    LocalCouchUrl();
  }

  /** A string option is the URL: the base URL is its parts without the
      credentials, and its credentials, when it has any, become the auth
      record. */
  lemma StringOptionIsUrl(s: string, defs: map<string, Value>, parse: string -> ParsedUrl)
    requires s != ""
    ensures var r := ParseOptions(Str(s), defs, parse);
      && r.Ok?
      && r.value["baseUrl"] == Str(WithTrailingSlash(Format(parse(s).parts)))
      && (Given(parse(s).auth) ==> r.value["auth"] == AuthRecord(parse(s).auth.value))
  {
  }

  /** A string option that is only a path, such as `/db`, keeps no host: the
      local-CouchDB fallback does not apply to a parsed URL, and `baseUrl`
      is the path itself with a `/` appended. */
  lemma HostlessStringOption(path: string, defs: map<string, Value>, parse: string -> ParsedUrl)
    requires path != ""
    requires parse(path).parts == UrlParts(None, None, None, Some(path), false)
    ensures ParseOptions(Str(path), defs, parse).value["baseUrl"] == Str(WithTrailingSlash(path))
  {
    StringOptionIsUrl(path, defs, parse);
    HostlessPath(path);
  }

  /** The caller's own options win over the URL's query and over `defs`;
      only `auth` and `baseUrl` are rewritten. */
  lemma OwnOptionsKept(fields: map<string, Value>, defs: map<string, Value>, parse: string -> ParsedUrl, k: string)
    requires k in fields && fields[k] != Undefined && k != "auth" && k != "baseUrl"
    requires ParseOptions(Obj(fields), defs, parse).Ok?
    ensures ParseOptions(Obj(fields), defs, parse).value[k] == fields[k]
  {
  }

  /** The first colon after a colon-free prefix is the one that follows it. */
  lemma IndexAfterPrefix(prefix: string, rest: string)
    requires ':' !in prefix
    ensures IndexOf(prefix + ":" + rest, ':') == Some(|prefix|)
  {
    var s := prefix + ":" + rest;
    assert s[|prefix|] == ':';
    assert s[..|prefix|] == prefix;
  }

  lemma SplitAfterPrefix(prefix: string, rest: string)
    requires ':' !in prefix
    ensures Split(prefix + ":" + rest, ':') == [prefix] + Split(rest, ':')
  {
    var s := prefix + ":" + rest;
    IndexAfterPrefix(prefix, rest);
    assert s[..|prefix|] == prefix;
    assert s[|prefix| + 1..] == rest;
  }

  /** An auth string `u:p` whose parts hold no colon becomes exactly the
      record `{username: u, password: p}`. */
  lemma {:induction false} SplitAuthPair(user: string, password: string)
    requires ':' !in user && ':' !in password
    ensures SplitAuth(user + ":" + password) == Auth(user, password)
  {
    var auth := user + ":" + password;
    SplitAfterPrefix(user, password);
    assert Split(password, ':') == [password];
    assert auth[|user|] == ':';
  }

  /** The source's split keeps only the text between the first and the
      second colon as the password: `user:pa:ss` yields the password `pa`. */
  lemma SplitAuthTruncatesPassword(user: string, head: string, tail: string)
    requires ':' !in user && ':' !in head
    ensures SplitAuth(user + ":" + head + ":" + tail) == Auth(user, head)
  {
    var auth := user + ":" + head + ":" + tail;
    assert auth == user + ":" + (head + ":" + tail);
    SplitAfterPrefix(user, head + ":" + tail);
    SplitAfterPrefix(head, tail);
    var parts := Split(auth, ':');
    assert parts == [user] + ([head] + Split(tail, ':'));
    assert parts[0] == user && parts[1] == head;
    assert ':' in auth by {
      assert auth[|user|] == ':';
    }
  }

  /** Credentials as RFC 3986 (section 3.2.1) reads `user:password`: the
      user name ends at the first colon and the password is everything after
      it; no colon means no password. */
  datatype Credentials = Credentials(username: string, password: Option<string>)

  function JoinCredentials(c: Credentials): string {
    match c.password
    case None => c.username
    case Some(p) => c.username + ":" + p
  }

  /** The split at the first colon: what the auth text says, in full. */
  function SplitCredentials(auth: string): (c: Credentials)
    ensures JoinCredentials(c) == auth
    ensures ':' !in c.username
    ensures c.password.None? <==> ':' !in auth
  {
    match IndexOf(auth, ':')
    case None => Credentials(auth, None)
    case Some(i) =>
      assert auth == auth[..i] + ":" + auth[i + 1..];
      Credentials(auth[..i], Some(auth[i + 1..]))
  }

  /** Round trip: splitting joined credentials gives them back. */
  lemma CredentialsRoundTrip(c: Credentials)
    requires ':' !in c.username
    ensures SplitCredentials(JoinCredentials(c)) == c
  {
    if c.password.Some? {
      var joined := JoinCredentials(c);
      IndexAfterPrefix(c.username, c.password.value);
      assert joined[..|c.username|] == c.username;
      assert joined[|c.username| + 1..] == c.password.value;
    }
  }
}
