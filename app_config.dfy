/** The configuration step of `createApp(opts)` (src/index.js): the secret
    check, the option defaults, the resolution of the session-store type and
    the provider options. Building the Express application and mounting its
    routes is not part of this model; only the catch-all 404 is. */
module AppConfig {
  import opened Wrappers
  import opened HttpError
  import opened JsValues
  import ParseOptions
  import CouchOptions

  const MissingSecret: Failure := Plain("Missing JWT secret.")
  const BadStoreType: Failure := Plain("Expecting function or string for session storage.")
  const NullOptions: Failure := TypeError("Cannot destructure 'null' as it is null.")
  const NullSession: Failure := TypeError("Cannot read property 'store' of null")

  /** Where the session store comes from. */
  datatype StoreFactory =
    | CouchFactory               // ./couch-store
    | MemoryFactory              // ./memory-store
    | ModuleFactory(name: string) // require(name)
    | CustomFactory(name: string) // the function itself

  /** The options `createApp` settles before it reads the provider URI:
      the defaults applied, the store factory resolved, `store` removed from
      the session options, and the `couchdb` URI (`None` when undefined). */
  datatype AppOptions = AppOptions(
    algorithms: Value,
    expiresIn: Value,
    secret: Value,
    endpoint: Value,
    handleErrors: Value,
    transform: Value,
    refreshRoles: Value,
    factory: StoreFactory,
    sessionOptions: map<string, Value>,
    couchUri: Option<string>)

  /** The configuration the application is built from. */
  datatype Settings = Settings(options: AppOptions, couchOptions: CouchOptions.CouchOptions)

  /** The properties `opts` is destructured into: `opts={}` replaces an
      undefined argument, destructuring null throws, and a value other than
      an object has none of the properties read. */
  function OptionFields(opts: Value): (r: Result<map<string, Value>, Failure>)
    ensures r.Err? <==> opts.Null?
    ensures opts.Undefined? ==> r == Ok(map[])
    ensures opts.Obj? ==> r == Ok(opts.fields)
  {
    match opts
    case Undefined => Ok(map[])
    case Null => Err(NullOptions)
    case Obj(fields) => Ok(fields)
    case _ => Ok(map[])
  }

  /** A destructured property with a default, which replaces only undefined. */
  function Setting(fields: map<string, Value>, key: string, default: Value): (v: Value)
    ensures Get(fields, key) == Undefined ==> v == default
    ensures Get(fields, key) != Undefined ==> v == fields[key]
  {
    if Get(fields, key) == Undefined then default else fields[key]
  }

  /** The session-store factory for `session.store`. */
  function ResolveStore(storeType: Value): (r: Result<StoreFactory, Failure>)
    ensures r == Ok(CouchFactory) <==> storeType == Str("couch")
    ensures r == Ok(MemoryFactory) <==> storeType == Str("memory") || storeType == Undefined
    ensures storeType.Str? && storeType.s != "couch" && storeType.s != "memory" ==> r == Ok(ModuleFactory(storeType.s))
    ensures storeType.Func? ==> r == Ok(CustomFactory(storeType.name))
    ensures r.Err? <==> !(storeType.Str? || storeType.Func? || storeType.Undefined?)
    ensures r.Err? ==> r.error == BadStoreType
  {
    match storeType
    case Str(s) =>
      if s == "couch" then Ok(CouchFactory)
      else if s == "memory" then Ok(MemoryFactory)
      else Ok(ModuleFactory(s))
    case Undefined => Ok(MemoryFactory)
    case Func(name) => Ok(CustomFactory(name))
    case _ => Err(BadStoreType)
  }

  /** `session.store` and what remains of `session` once `store` is deleted;
      a null `session` throws. */
  function SplitSession(session: Value): (r: Result<(Value, map<string, Value>), Failure>)
    ensures r.Err? <==> session.Null?
    ensures r.Ok? ==> "store" !in r.value.1
    ensures session.Obj? ==> r == Ok((Get(session.fields, "store"), session.fields - {"store"}))
    ensures session.Obj? ==> forall k :: k in session.fields && k != "store" ==> r.value.1[k] == session.fields[k]
    ensures !session.Obj? && !session.Null? ==> r == Ok((Undefined, map[]))
  {
    match session
    case Null => Err(NullSession)
    case Obj(fields) => Ok((Get(fields, "store"), fields - {"store"}))
    case _ => Ok((Undefined, map[]))
  }

  /** The options object as `createApp(opts)` leaves it for its caller: once
      the secret check has passed, the `delete` acts on the caller's own
      `session` object, so that object no longer holds `store`, even when
      the store type then turns out to be unusable. */
  function AfterCreateApp(opts: Value): (after: Value)
    ensures !opts.Obj? ==> after == opts
    ensures opts.Obj? && !Truthy(Get(opts.fields, "secret")) ==> after == opts
    ensures opts.Obj? ==> after.Obj? && after.fields.Keys == opts.fields.Keys
    ensures opts.Obj? ==> forall k :: k in opts.fields && k != "session" ==> after.fields[k] == opts.fields[k]
    ensures opts.Obj? && Truthy(Get(opts.fields, "secret")) && Get(opts.fields, "session").Obj? ==>
      after.fields["session"] == Obj(opts.fields["session"].fields - {"store"})
  {
    match opts
    case Obj(fields) =>
      if Truthy(Get(fields, "secret")) && Get(fields, "session").Obj?
      then Obj(fields["session" := Obj(fields["session"].fields - {"store"})])
      else opts
    case _ => opts
  }

  /** Calling `createApp` a second time with the same options object finds
      no store type and so builds the memory store, whatever store the first
      call chose. */
  lemma {:induction false} SecondCreateAppUsesMemoryStore(opts: Value)
    requires Configure(opts).Ok?
    ensures Configure(AfterCreateApp(opts)).Ok?
    ensures Configure(AfterCreateApp(opts)).value.factory == MemoryFactory
  {
    var fields := OptionFields(opts).value;
    var after := AfterCreateApp(opts);
    var afterFields := OptionFields(after).value;
    assert Get(afterFields, "secret") == Get(fields, "secret");
    assert Get(afterFields, "couchdb") == Get(fields, "couchdb");
    var session := Setting(afterFields, "session", Obj(map[]));
    assert session.Obj? ==> Get(session.fields, "store") == Undefined;
  }

  /** The provider URI: `couchdb` when it is a string, the default when it is
      undefined; anything else cannot be parsed. */
  function CouchUri(couchdb: Value): (r: Result<Option<string>, Failure>)
    ensures couchdb.Undefined? ==> r == Ok(None)
    ensures couchdb.Str? ==> r == Ok(Some(couchdb.s))
  {
    match couchdb
    case Undefined => Ok(None)
    case Str(s) => Ok(Some(s))
    case _ => Err(ParseOptions.NotAString)
  }

  /** `createApp(opts)` up to the call of `getCouchOptions` (src/index.js:55):
      the secret check, the defaults, the session store and the URI. */
  function Configure(opts: Value): (r: Result<AppOptions, Failure>)
    ensures OptionFields(opts).Ok? && !Truthy(Get(OptionFields(opts).value, "secret")) ==> r == Err(MissingSecret)
    ensures r.Ok? ==> Truthy(r.value.secret)
    ensures r.Ok? ==> "store" !in r.value.sessionOptions
    ensures r.Ok? ==> (
      && OptionFields(opts).Ok?
      && var session := Setting(OptionFields(opts).value, "session", Obj(map[]));
         SplitSession(session).Ok? && ResolveStore(SplitSession(session).value.0) == Ok(r.value.factory))
    ensures r.Ok? ==> CouchUri(Get(OptionFields(opts).value, "couchdb")) == Ok(r.value.couchUri)
    ensures r.Ok? <==>
      && OptionFields(opts).Ok?
      && var fields := OptionFields(opts).value;
         var session := SplitSession(Setting(fields, "session", Obj(map[])));
         && Truthy(Get(fields, "secret"))
         && session.Ok? && ResolveStore(session.value.0).Ok?
         && CouchUri(Get(fields, "couchdb")).Ok?
    ensures r.Ok? ==> var fields := OptionFields(opts).value;
      && r.value.algorithms == Setting(fields, "algorithms", Arr([Str("HS256")]))
      && r.value.expiresIn == Setting(fields, "expiresIn", Str("5m"))
      && r.value.secret == fields["secret"]
      && r.value.endpoint == Setting(fields, "endpoint", Str("/"))
      && r.value.handleErrors == Setting(fields, "handleErrors", Bool(true))
      && r.value.transform == Get(fields, "transform")
      && r.value.refreshRoles == Get(fields, "refreshRoles")
      && r.value.sessionOptions == SplitSession(Setting(fields, "session", Obj(map[]))).value.1
  {
    var fields :- OptionFields(opts);
    var algorithms := Setting(fields, "algorithms", Arr([Str("HS256")]));
    var session := Setting(fields, "session", Obj(map[]));
    var endpoint := Setting(fields, "endpoint", Str("/"));
    var expiresIn := Setting(fields, "expiresIn", Str("5m"));
    var secret := Get(fields, "secret");
    var handleErrors := Setting(fields, "handleErrors", Bool(true));
    if !Truthy(secret) then Err(MissingSecret)
    else
      var split :- SplitSession(session);
      var factory :- ResolveStore(split.0);
      var uri :- CouchUri(Get(fields, "couchdb"));
      Ok(AppOptions(algorithms, expiresIn, secret, endpoint, handleErrors,
                    Get(fields, "transform"), Get(fields, "refreshRoles"), factory, split.1, uri))
  }

  /** `createApp(opts)` as written, with `parse` standing for `url.parse`:
      the provider options come from `getCouchOptions`, which fails on a URI
      without credentials. */
  function CreateAppAsWritten(opts: Value, parse: string -> ParseOptions.ParsedUrl): (r: Result<Settings, Failure>)
    ensures Configure(opts).Err? ==> r == Err(Configure(opts).error)
    ensures Configure(opts).Ok? && parse(CouchOptions.UriOf(Configure(opts).value.couchUri)).auth.None? ==>
      r == Err(CouchOptions.NullAuth)
    ensures r.Ok? <==> Configure(opts).Ok? && parse(CouchOptions.UriOf(Configure(opts).value.couchUri)).auth.Some?
    ensures r.Ok? ==> r.value.options == Configure(opts).value && r.value.couchOptions.auth.Some?
    ensures r.Ok? ==>
      r.value.couchOptions == CouchOptions.GetCouchDbOptionsAsWritten(r.value.options.couchUri, parse).value
  {
    var options :- Configure(opts);
    var couchOptions :- CouchOptions.GetCouchDbOptionsAsWritten(options.couchUri, parse);
    Ok(Settings(options, couchOptions))
  }

  /** `createApp(opts)` with the repaired `getCouchOptions`: a URI without
      credentials gives provider options without credentials. */
  function CreateApp(opts: Value, parse: string -> ParseOptions.ParsedUrl): (r: Result<Settings, Failure>)
    ensures r.Ok? <==> Configure(opts).Ok?
    ensures r.Err? ==> r.error == Configure(opts).error
    ensures r.Ok? ==> r.value.options == Configure(opts).value
    ensures r.Ok? ==> var parsed := parse(CouchOptions.UriOf(r.value.options.couchUri));
      && r.value.couchOptions.baseUrl == CouchOptions.BaseUrl(parsed)
      && (r.value.couchOptions.auth.None? <==> parsed.auth.None?)
  {
    var options :- Configure(opts);
    Ok(Settings(options, CouchOptions.GetCouchDbOptions(options.couchUri, parse)))
  }

  /** Wherever the source builds its configuration, the repaired reading
      builds one with the same options and provider base URL. */
  lemma RepairedAppExtends(opts: Value, parse: string -> ParseOptions.ParsedUrl)
    requires CreateAppAsWritten(opts, parse).Ok?
    ensures CreateApp(opts, parse).Ok?
    ensures CreateApp(opts, parse).value.options == CreateAppAsWritten(opts, parse).value.options
    ensures CreateApp(opts, parse).value.couchOptions.baseUrl == CreateAppAsWritten(opts, parse).value.couchOptions.baseUrl
  {
  }

  /** With nothing but a secret, the defaults apply: HS256, five minutes,
      the root endpoint, error handling on, the memory store, no session
      options and the default provider URI. */
  lemma SecretOnly(secret: string)
    requires secret != ""
    ensures Configure(Obj(map["secret" := Str(secret)])) ==
      Ok(AppOptions(Arr([Str("HS256")]), Str("5m"), Str(secret), Str("/"), Bool(true), Undefined, Undefined,
                    MemoryFactory, map[], None))
  {
    var fields := map["secret" := Str(secret)];
    assert Get(fields, "session") == Undefined && Get(fields, "couchdb") == Undefined;
    var empty: map<string, Value> := map[];
    assert empty - {"store"} == empty;
  }

  /** As written, `createApp` with nothing but a secret throws: the default
      provider URI carries no credentials. */
  lemma SecretOnlyAsWrittenThrows(secret: string, parse: string -> ParseOptions.ParsedUrl)
    requires secret != ""
    requires parse(CouchOptions.DefaultUri).auth.None?
    ensures CreateAppAsWritten(Obj(map["secret" := Str(secret)]), parse) == Err(CouchOptions.NullAuth)
  {
    SecretOnly(secret);
  }

  /** With the repair, `createApp` with nothing but a secret uses the local
      CouchDB without credentials as identity provider. */
  lemma SecretOnlyRepaired(secret: string, parse: string -> ParseOptions.ParsedUrl)
    requires secret != ""
    requires parse(CouchOptions.DefaultUri).parts.protocol == Some("http:")
    requires parse(CouchOptions.DefaultUri).host == Some("localhost:5984")
    requires parse(CouchOptions.DefaultUri).auth.None?
    ensures CreateApp(Obj(map["secret" := Str(secret)]), parse).Ok?
    ensures CreateApp(Obj(map["secret" := Str(secret)]), parse).value.couchOptions == CouchOptions.CouchOptions(None, CouchOptions.DefaultUri)
  {
    SecretOnly(secret);
    CouchOptions.DefaultUriAccepted(parse);
  }

  /** A missing secret is reported before the session store is looked at:
      even an unusable store type fails with the secret error. */
  lemma SecretCheckedFirst(fields: map<string, Value>, parse: string -> ParseOptions.ParsedUrl)
    requires !Truthy(Get(fields, "secret"))
    ensures CreateAppAsWritten(Obj(fields), parse) == Err(MissingSecret)
    ensures CreateApp(Obj(fields), parse) == Err(MissingSecret)
  {
  }

  /** With `handleErrors`, a request no route matched is answered with 404;
      without it the request is passed on. */
  function Unmatched(settings: Settings): (o: Option<RouteOutcome>)
    ensures Truthy(settings.options.handleErrors) ==> o == Some(Respond(404, ErrorBody(true, Some("Not Found"), 404, "EERROR")))
    ensures !Truthy(settings.options.handleErrors) ==> o == None
  {
    if Truthy(settings.options.handleErrors) then Some(Route(Some(Http(NewHTTPError(404, None, None))))) else None
  }
}
