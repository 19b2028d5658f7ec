/** The CouchDB session store (src/couch-store.js): each session is a document
    whose `_id` is the session id and which records when it was created.
    Opening the database (PouchDB construction) is not part of this model
    beyond the URL it is opened at: the database is its documents plus the
    error its requests currently fail with, if any. */
module CouchStore {
  import opened Wrappers
  import opened HttpError
  import JsValues
  import ParseOptions

  /** The database name used when the options name none. */
  const DefaultDb: string := "jwt_sessions"

  /** The URL the store opens its database at: the normalised options'
      `baseUrl` followed by their `db`, which defaults to `jwt_sessions`.
      (`couchOpts` is assigned first, so the normalised options win.) */
  function DatabaseUrl(options: JsValues.Value, parse: string -> ParseOptions.ParsedUrl): (r: Result<string, Failure>)
    ensures r.Err? <==> ParseOptions.ParseOptions(options, map["db" := JsValues.Str(DefaultDb)], parse).Err?
    ensures r.Ok? ==> var opts := ParseOptions.ParseOptions(options, map["db" := JsValues.Str(DefaultDb)], parse).value;
      r.value == opts["baseUrl"].s + JsValues.ToText(JsValues.Get(opts, "db"))
  {
    var opts :- ParseOptions.ParseOptions(options, map["db" := JsValues.Str(DefaultDb)], parse);
    Ok(JsValues.ToText(opts["baseUrl"]) + JsValues.ToText(JsValues.Get(opts, "db")))
  }

  /** Options that name no database (neither themselves nor through their
      URL's query) give the base URL followed by `jwt_sessions`; the base URL
      ends in `/`, so the name is its own path segment. */
  lemma DatabaseUrlDefault(options: JsValues.Value, parse: string -> ParseOptions.ParsedUrl)
    requires ParseOptions.Normalise(options, parse).Ok?
    requires JsValues.Get(ParseOptions.Normalise(options, parse).value, "db") == JsValues.Undefined
    ensures var base := ParseOptions.Normalise(options, parse).value["baseUrl"].s;
      && |base| > 0 && base[|base| - 1] == '/'
      && DatabaseUrl(options, parse) == Ok(base + DefaultDb)
  {
  }

  /** With null or undefined options, the sessions live in the local
      CouchDB. */
  lemma DatabaseUrlWithoutOptions(options: JsValues.Value, parse: string -> ParseOptions.ParsedUrl)
    requires JsValues.IsNullish(options)
    ensures DatabaseUrl(options, parse) == Ok("http://localhost:5984/" + DefaultDb)
  {
    DefaultOptions(options, parse);
    assert JsValues.ToText(JsValues.Str(DefaultDb)) == DefaultDb;
  }

  /** Null or undefined options normalise to the local CouchDB's base URL
      and the default database name, and nothing else. */
  lemma DefaultOptions(options: JsValues.Value, parse: string -> ParseOptions.ParsedUrl)
    requires JsValues.IsNullish(options)
    ensures ParseOptions.ParseOptions(options, map["db" := JsValues.Str(DefaultDb)], parse)
      == Ok(map["baseUrl" := JsValues.Str("http://localhost:5984/"), "db" := JsValues.Str(DefaultDb)])
  {
    ParseOptions.NormaliseWithoutOptions(options, parse);
    var normal := ParseOptions.Normalise(options, parse).value;
    var defs := map["db" := JsValues.Str(DefaultDb)];
    var r := ParseOptions.WithDefaults(normal, defs);
    assert JsValues.Get(normal, "db") == JsValues.Undefined;
    assert r["baseUrl"] == JsValues.Str("http://localhost:5984/") && r["db"] == JsValues.Str(DefaultDb);
    assert r.Keys == {"baseUrl", "db"};
    assert r == map["baseUrl" := JsValues.Str("http://localhost:5984/"), "db" := JsValues.Str(DefaultDb)];
  }

  /** A live document: its creation time and current revision. */
  datatype Doc = Doc(created: int, rev: nat)

  /** The value of an `allDocs` row: the document's current revision. */
  datatype Row = Row(rev: nat)

  /** The session database as the store's requests see it. While `fault` is
      set, every request fails with it and changes nothing. */
  class CouchDb {
    var docs: map<string, Doc>
    var lastRev: nat
    var fault: Option<string>

    constructor (docs: map<string, Doc>, lastRev: nat, fault: Option<string>)
      ensures this.docs == docs && this.lastRev == lastRev && this.fault == fault
    {
      this.docs := docs;
      this.lastRev := lastRev;
      this.fault := fault;
    }

    /** `allDocs({key, limit: 1})`: the row of the document with that id, if
        there is one. */
    function AllDocs(key: string): (r: Result<seq<Row>, string>)
      reads this
      ensures r.Ok? <==> fault.None?
      ensures r.Ok? ==> |r.value| <= 1 && (|r.value| == 1 <==> key in docs)
      ensures r.Ok? && key in docs ==> r.value[0] == Row(docs[key].rev)
    {
      if fault.Some? then Err(fault.value)
      else if key in docs then Ok([Row(docs[key].rev)])
      else Ok([])
    }

    /** `post(doc)`: creates the document under a new revision; a document
        with that id already existing is a conflict. */
    method Post(id: string, created: int) returns (r: Result<(), string>)
      modifies this
      ensures fault == old(fault)
      ensures r.Ok? <==> old(fault).None? && id !in old(docs)
      ensures r.Ok? ==> lastRev == old(lastRev) + 1 && docs == old(docs)[id := Doc(created, lastRev)]
      ensures r.Err? ==> docs == old(docs) && lastRev == old(lastRev)
    {
      if fault.Some? {
        return Err(fault.value);
      }
      if id in docs {
        return Err("conflict");
      }
      lastRev := lastRev + 1;
      docs := docs[id := Doc(created, lastRev)];
      return Ok(());
    }

    /** `remove(id, rev)`: deletes the document when `rev` is its current
        revision; anything else is a conflict. */
    method Remove(id: string, rev: nat) returns (r: Result<(), string>)
      modifies this
      ensures fault == old(fault) && lastRev == old(lastRev)
      ensures r.Ok? <==> old(fault).None? && id in old(docs) && old(docs)[id].rev == rev
      ensures r.Ok? ==> docs == old(docs) - {id}
      ensures r.Err? ==> docs == old(docs)
    {
      if fault.Some? {
        return Err(fault.value);
      }
      if id !in docs || docs[id].rev != rev {
        return Err("conflict");
      }
      docs := docs - {id};
      return Ok(());
    }
  }

  /** The error `remove` rejects with when the id has no document: the
      looked-up value is null and its `.rev` is read. */
  const NullRevision: Failure := TypeError("Cannot read property 'rev' of null")

  class CouchStore {
    const client: CouchDb

    constructor (client: CouchDb)
      ensures this.client == client
    {
      this.client := client;
    }

    /** `_get(sid)`: the first matching row's value, or null when there are
        no rows. */
    function Get(sid: string): (r: Result<Option<Row>, Failure>)
      reads client
      ensures r.Ok? <==> client.fault.None?
      ensures r.Ok? ==> (r.value.Some? <==> sid in client.docs)
      ensures r.Ok? && r.value.Some? ==> r.value.value.rev == client.docs[sid].rev
      ensures r.Err? ==> r.error == Backend(client.fault.value)
    {
      match client.AllDocs(sid)
      case Err(e) => Err(Backend(e))
      case Ok(rows) => Ok(if |rows| > 0 then Some(rows[0]) else None)
    }

    /** `exists(sid)`: true exactly when `_get` found a row. */
    function Exists(sid: string): (r: Result<bool, Failure>)
      reads client
      ensures r.Ok? <==> client.fault.None?
      ensures r.Ok? ==> (r.value <==> sid in client.docs)
      ensures r.Err? ==> r.error == Backend(client.fault.value)
    {
      match Get(sid)
      case Err(e) => Err(e)
      case Ok(found) => Ok(found.Some?)
    }

    /** `add(sid)` at time `now`: an id that already exists is left alone and
        nothing is written; an absent id gets a document whose `_id` is the id
        and whose `created` is `now`. */
    method Add(sid: string, now: int) returns (r: Result<(), Failure>)
      modifies client
      ensures client.fault == old(client.fault)
      ensures r.Ok? <==> old(client.fault).None?
      ensures r.Ok? && sid in old(client.docs) ==> client.docs == old(client.docs) && client.lastRev == old(client.lastRev)
      ensures r.Ok? && sid !in old(client.docs) ==>
        client.docs == old(client.docs)[sid := Doc(now, old(client.lastRev) + 1)]
      ensures r.Err? ==> r.error == Backend(old(client.fault).value) && client.docs == old(client.docs)
    {
      var present := Exists(sid);
      match present
      case Err(e) => r := Err(e);
      case Ok(found) =>
        if found {
          r := Ok(());
        } else {
          var posted := client.Post(sid, now);
          match posted
          case Ok(_) => r := Ok(());
          case Err(e) => r := Err(Backend(e));
        }
    }

    /** `remove(sid)`: reads the document's revision, then deletes it under
        that revision. The delete is not awaited, so its outcome never reaches
        the caller; an absent id makes the read of `.rev` fail. */
    method Remove(sid: string) returns (r: Result<(), Failure>)
      modifies client
      ensures client.fault == old(client.fault)
      ensures old(client.fault).Some? ==> r == Err(Backend(old(client.fault).value))
      ensures old(client.fault).None? && sid !in old(client.docs) ==> r == Err(NullRevision)
      ensures r.Ok? <==> old(client.fault).None? && sid in old(client.docs)
      ensures r.Ok? ==> client.docs == old(client.docs) - {sid}
      ensures r.Err? ==> client.docs == old(client.docs)
    {
      var found := Get(sid);
      match found
      case Err(e) => r := Err(e);
      case Ok(row) =>
        if row.None? {
          r := Err(NullRevision);
        } else {
          var _ := client.Remove(sid, row.value.rev);
          r := Ok(());
        }
    }
  }
}
