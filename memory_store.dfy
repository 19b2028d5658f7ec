/** The in-memory session store (src/memory-store.js): a plain JavaScript
    object used as a dictionary from session id to `true`. Because it is a
    plain object, reading a key it does not own falls through to
    `Object.prototype`, and writing `__proto__` does not create an entry; the
    model keeps both effects. */
module MemoryStore {

  /** Property names every plain object inherits from `Object.prototype`;
      reading one of them yields a truthy value. */
  const InheritedKeys: set<string> := {
    "__proto__", "constructor", "hasOwnProperty", "isPrototypeOf",
    "propertyIsEnumerable", "toLocaleString", "toString", "valueOf",
    "__defineGetter__", "__defineSetter__", "__lookupGetter__", "__lookupSetter__"
  }

  /** What the store's own code can produce: every own entry is `true`, and
      `__proto__` is never an own entry. */
  predicate WellFormed(sessions: map<string, bool>) {
    "__proto__" !in sessions && forall sid :: sid in sessions ==> sessions[sid]
  }

  /** `!!sessions[sid]` */
  function Holds(sessions: map<string, bool>, sid: string): bool {
    if sid in sessions then sessions[sid] else sid in InheritedKeys
  }

  /** The dictionary after `sessions[sid] = true`; assigning to `__proto__`
      sets the prototype, which ignores a non-object value. */
  function Added(sessions: map<string, bool>, sid: string): map<string, bool> {
    if sid == "__proto__" then sessions else sessions[sid := true]
  }

  /** The dictionary after `delete sessions[sid]`. */
  function Removed(sessions: map<string, bool>, sid: string): map<string, bool> {
    sessions - {sid}
  }

  /** A new store knows no session, apart from the inherited names. */
  lemma FreshStoreHoldsNothing(sid: string)
    ensures Holds(map[], sid) <==> sid in InheritedKeys
  {
  }

  /** After `add(s)`, `exists(s)` is true; adding again changes nothing. */
  lemma AddThenExists(sessions: map<string, bool>, sid: string)
    requires WellFormed(sessions)
    ensures WellFormed(Added(sessions, sid))
    ensures Holds(Added(sessions, sid), sid)
    ensures Added(Added(sessions, sid), sid) == Added(sessions, sid)
  {
  }

  /** After `remove(s)`, `exists(s)` is false unless `s` is an inherited
      name; removing an id that is not there is a no-op. */
  lemma RemoveThenAbsent(sessions: map<string, bool>, sid: string)
    requires WellFormed(sessions)
    ensures WellFormed(Removed(sessions, sid))
    ensures Holds(Removed(sessions, sid), sid) <==> sid in InheritedKeys
    ensures sid !in sessions ==> Removed(sessions, sid) == sessions
  {
  }

  /** `add` and `remove` of one id leave every other id as it was. */
  lemma OtherIdsUnaffected(sessions: map<string, bool>, sid: string, other: string)
    requires other != sid
    ensures Holds(Added(sessions, sid), other) == Holds(sessions, other)
    ensures Holds(Removed(sessions, sid), other) == Holds(sessions, other)
  {
  }

  class MemoryStore {
    var sessions: map<string, bool>

    ghost predicate Valid()
      reads this
    {
      WellFormed(sessions)
    }

    constructor ()
      ensures Valid() && sessions == map[]
      ensures forall sid :: Exists(sid) <==> sid in InheritedKeys
    {
      sessions := map[];
    }

    method Add(sid: string)
      requires Valid()
      modifies this
      ensures Valid()
      ensures sessions == Added(old(sessions), sid)
      ensures Exists(sid)
      ensures forall other :: other != sid ==> Exists(other) == old(Exists(other))
    {
      if sid != "__proto__" {
        sessions := sessions[sid := true];
      }
    }

    function Exists(sid: string): bool
      reads this
    {
      Holds(sessions, sid)
    }

    method Remove(sid: string)
      requires Valid()
      modifies this
      ensures Valid()
      ensures sessions == Removed(old(sessions), sid)
      ensures Exists(sid) <==> sid in InheritedKeys
      ensures forall other :: other != sid ==> Exists(other) == old(Exists(other))
    {
      sessions := sessions - {sid};
    }
  }
}
