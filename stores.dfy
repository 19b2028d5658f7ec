/** The `sessionStore` slot of the server: whichever backend was configured,
    seen through the three calls the token lifecycle makes on it (`add`,
    `exists`, `remove`). Each backend keeps its own behaviour; this module
    only dispatches and states, for every backend, which ids are live. */
module Stores {
  import opened Wrappers
  import opened HttpError
  import MemoryStore
  import EmptyStore
  import RedisStore
  import CouchStore

  datatype Backend =
    | Memory(memory: MemoryStore.MemoryStore)
    | Empty(empty: EmptyStore.EmptyStore)
    | Redis(redis: RedisStore.RedisStore)
    | Couch(couch: CouchStore.CouchStore)

  /** The key a store is asked about for a token's `session` claim: a missing
      claim reaches the store as `undefined`, which a property lookup and a
      string concatenation both turn into the text "undefined". */
  function SessionKey(session: Option<string>): (key: string)
    ensures session.Some? ==> key == session.value
    ensures session.None? ==> key == "undefined"
  {
    session.GetOr("undefined")
  }

  class SessionStore {
    const backend: Backend

    constructor (backend: Backend)
      ensures this.backend == backend
    {
      this.backend := backend;
    }

    /** The objects whose fields the backend's calls read and write. */
    function Repr(): set<object> {
      match backend
      case Memory(m) => {m}
      case Empty(_) => {}
      case Redis(r) => {r.client}
      case Couch(c) => {c.client}
    }

    ghost predicate Valid()
      reads Repr()
    {
      backend.Memory? ==> backend.memory.Valid()
    }

    /** Whether the backend answers at all (only Redis and CouchDB can fail). */
    predicate Reachable()
      reads Repr()
    {
      match backend
      case Memory(_) => true
      case Empty(_) => true
      case Redis(r) => r.client.fault.None?
      case Couch(c) => c.client.fault.None?
    }

    /** Whether the backend currently holds a session `sid`. */
    predicate Live(sid: string)
      reads Repr()
    {
      match backend
      case Memory(m) => m.Exists(sid)
      case Empty(e) => e.Exists(sid)
      case Redis(r) => r.GetKey(sid) in r.client.entries
      case Couch(c) => sid in c.client.docs
    }

    /** Whether a successful `remove(sid)` really makes `sid` absent: the
        empty store removes nothing, and the memory store cannot forget the
        names its dictionary inherits. */
    predicate Honours(sid: string) {
      match backend
      case Memory(_) => sid !in MemoryStore.InheritedKeys
      case Empty(_) => false
      case _ => true
    }

    /** `exists(sid)`: rejects exactly when the backend is unreachable, and
        otherwise tells whether the session is live. */
    function Exists(sid: string): (r: Result<bool, Failure>)
      reads Repr()
      ensures r.Ok? <==> Reachable()
      ensures r.Ok? ==> (r.value <==> Live(sid))
    {
      match backend
      case Memory(m) => Ok(m.Exists(sid))
      case Empty(e) => Ok(e.Exists(sid))
      case Redis(r) => r.Exists(sid)
      case Couch(c) => c.Exists(sid)
    }

    /** `add(sid)` at time `now`: on success `sid` is live; no other id
        changes; a failure changes nothing. */
    method Add(sid: string, now: int) returns (r: Result<(), Failure>)
      requires Valid()
      modifies Repr()
      ensures Valid() && Reachable() == old(Reachable())
      ensures r.Ok? <==> old(Reachable())
      ensures r.Ok? ==> Live(sid)
      ensures r.Err? ==> Live(sid) == old(Live(sid))
      ensures forall other :: other != sid ==> Live(other) == old(Live(other))
    {
      match backend
      case Memory(m) =>
        m.Add(sid);
        r := Ok(());
      case Empty(e) =>
        r := e.Add(sid);
      case Redis(store) =>
        r := store.Add(sid, now);
        forall other | other != sid
          ensures store.GetKey(other) != store.GetKey(sid)
        {
          if store.GetKey(other) == store.GetKey(sid) {
            store.GetKeyInjective(other, sid);
          }
        }
      case Couch(store) =>
        r := store.Add(sid, now);
    }

    /** `remove(sid)`: on success every backend that honours the removal no
        longer holds `sid`; the CouchDB store rejects an id it does not hold;
        no other id changes; a failure changes nothing. */
    method Remove(sid: string) returns (r: Result<(), Failure>)
      requires Valid()
      modifies Repr()
      ensures Valid() && Reachable() == old(Reachable())
      ensures r.Ok? <==> old(Reachable()) && (backend.Couch? ==> old(Live(sid)))
      ensures r.Ok? && Honours(sid) ==> !Live(sid)
      ensures !(r.Ok? && Honours(sid)) ==> Live(sid) == old(Live(sid))
      ensures forall other :: other != sid ==> Live(other) == old(Live(other))
    {
      match backend
      case Memory(m) =>
        m.Remove(sid);
        r := Ok(());
      case Empty(e) =>
        r := e.Remove(sid);
      case Redis(store) =>
        var removed := store.Remove(sid);
        r := if removed.Ok? then Ok(()) else Err(removed.error);
        forall other | other != sid
          ensures store.GetKey(other) != store.GetKey(sid)
        {
          if store.GetKey(other) == store.GetKey(sid) {
            store.GetKeyInjective(other, sid);
          }
        }
      case Couch(store) =>
        r := store.Remove(sid);
    }
  }
}
