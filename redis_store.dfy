/** The Redis session store (src/redis-store.js). Each session is the key
    `prefix + sid` holding the creation time, written with SETEX when a TTL is
    configured and with SET otherwise. The connection to the server (client
    creation, AUTH, SELECT on reconnect, the readiness promise) is not part of
    this model: the client is its keyspace plus the error it currently
    reports, if any. */
module RedisStore {
  import opened Wrappers
  import opened HttpError
  import JsValues

  /** A stored value and the expiry it was written with (none for SET). */
  datatype Entry = Entry(value: int, ttl: Option<int>)

  /** The Redis server as the store's commands see it. While `fault` is set,
      every command calls back with that error and changes nothing. */
  class RedisClient {
    var entries: map<string, Entry>
    var fault: Option<string>

    constructor (entries: map<string, Entry>, fault: Option<string>)
      ensures this.entries == entries && this.fault == fault
    {
      this.entries := entries;
      this.fault := fault;
    }

    /** SET key value */
    method Set(key: string, value: int) returns (r: Result<(), string>)
      modifies this
      ensures fault == old(fault)
      ensures old(fault).Some? ==> r == Err(old(fault).value) && entries == old(entries)
      ensures old(fault).None? ==> r == Ok(()) && entries == old(entries)[key := Entry(value, None)]
    {
      if fault.Some? {
        return Err(fault.value);
      }
      entries := entries[key := Entry(value, None)];
      return Ok(());
    }

    /** SETEX key seconds value */
    method SetEx(key: string, seconds: int, value: int) returns (r: Result<(), string>)
      modifies this
      ensures fault == old(fault)
      ensures old(fault).Some? ==> r == Err(old(fault).value) && entries == old(entries)
      ensures old(fault).None? ==> r == Ok(()) && entries == old(entries)[key := Entry(value, Some(seconds))]
    {
      if fault.Some? {
        return Err(fault.value);
      }
      entries := entries[key := Entry(value, Some(seconds))];
      return Ok(());
    }

    /** EXISTS key: the number of the given keys that are present. */
    function Exists(key: string): (r: Result<nat, string>)
      reads this
      ensures r.Ok? <==> fault.None?
      ensures r.Ok? ==> r.value == (if key in entries then 1 else 0)
    {
      if fault.Some? then Err(fault.value) else Ok(if key in entries then 1 else 0)
    }

    /** DEL key: the number of keys removed. */
    method Del(key: string) returns (r: Result<nat, string>)
      modifies this
      ensures fault == old(fault)
      ensures old(fault).Some? ==> r == Err(old(fault).value) && entries == old(entries)
      ensures old(fault).None? ==> r == Ok(if key in old(entries) then 1 else 0) && entries == old(entries) - {key}
    {
      if fault.Some? {
        return Err(fault.value);
      }
      r := Ok(if key in entries then 1 else 0);
      entries := entries - {key};
    }
  }

  /** The key prefix: `'jwt:'` when the option is null or undefined (`None`),
      otherwise the option as given, the empty string included. */
  function Prefix(option: Option<string>): (prefix: string)
    ensures option.None? ==> prefix == "jwt:"
    ensures option.Some? ==> prefix == option.value
  {
    match option
    case None => "jwt:"
    case Some(p) => p
  }

  class RedisStore {
    const prefix: string
    /** The `ttl` option as given; SETEX is used when it is truthy. */
    const ttl: JsValues.Value
    /** The expiry handed to SETEX, `ms(String(ttl))`; duration parsing is not
        part of this model, so the constructor takes its result. */
    const ttlArgument: int
    const client: RedisClient

    constructor (prefixOption: Option<string>, ttl: JsValues.Value, ttlArgument: int, client: RedisClient)
      ensures prefix == Prefix(prefixOption)
      ensures this.ttl == ttl && this.ttlArgument == ttlArgument && this.client == client
    {
      prefix := Prefix(prefixOption);
      this.ttl := ttl;
      this.ttlArgument := ttlArgument;
      this.client := client;
    }

    /** `_getKey(sid)`: the prefix followed by the id. */
    function GetKey(sid: string): (key: string)
      ensures |key| == |prefix| + |sid|
      ensures key[..|prefix|] == prefix && key[|prefix|..] == sid
    {
      prefix + sid
    }

    /** Distinct ids under one prefix map to distinct keys. */
    lemma GetKeyInjective(a: string, b: string)
      requires GetKey(a) == GetKey(b)
      ensures a == b
    {
      assert a == GetKey(a)[|prefix|..];
    }

    /** The entry `add` writes: the time of the call, with the TTL only when
        one is configured. */
    function NewEntry(now: int): (e: Entry)
      ensures e.value == now
      ensures e.ttl == (if JsValues.Truthy(ttl) then Some(ttlArgument) else None)
    {
      if JsValues.Truthy(ttl) then Entry(now, Some(ttlArgument)) else Entry(now, None)
    }

    /** `add(sid)` at time `now`: resolves once the key is written (SETEX with
        the TTL when one is configured, SET otherwise); rejects with the
        client's error, writing nothing. */
    method Add(sid: string, now: int) returns (r: Result<(), Failure>)
      modifies client
      ensures client.fault == old(client.fault)
      ensures r.Ok? <==> old(client.fault).None?
      ensures r.Ok? ==> client.entries == old(client.entries)[GetKey(sid) := NewEntry(now)]
      ensures r.Err? ==> r.error == Backend(old(client.fault).value) && client.entries == old(client.entries)
    {
      var key := GetKey(sid);
      var done;
      if JsValues.Truthy(ttl) {
        done := client.SetEx(key, ttlArgument, now);
      } else {
        done := client.Set(key, now);
      }
      match done
      case Ok(_) => r := Ok(());
      case Err(e) => r := Err(Backend(e));
    }

    /** `exists(sid)`: resolves true exactly when the key is present; rejects
        with the client's error. */
    function Exists(sid: string): (r: Result<bool, Failure>)
      reads client
      ensures r.Ok? <==> client.fault.None?
      ensures r.Ok? ==> (r.value <==> GetKey(sid) in client.entries)
      ensures r.Err? ==> r.error == Backend(client.fault.value)
    {
      match client.Exists(GetKey(sid))
      case Ok(count) => Ok(count != 0)
      case Err(e) => Err(Backend(e))
    }

    /** `remove(sid)`: resolves true exactly when a key was deleted, false for
        an absent id; rejects with the client's error, deleting nothing. */
    method Remove(sid: string) returns (r: Result<bool, Failure>)
      modifies client
      ensures client.fault == old(client.fault)
      ensures r.Ok? <==> old(client.fault).None?
      ensures r.Ok? ==> r.value == (GetKey(sid) in old(client.entries))
      ensures r.Ok? ==> client.entries == old(client.entries) - {GetKey(sid)}
      ensures r.Err? ==> r.error == Backend(old(client.fault).value) && client.entries == old(client.entries)
    {
      var deleted := client.Del(GetKey(sid));
      match deleted
      case Ok(count) => r := Ok(count != 0);
      case Err(e) => r := Err(Backend(e));
    }
  }
}
