/** The empty session store (src/empty-store.js): it keeps nothing, and
    claims that every session exists. It has no state, so each call is a
    value of the one store there is. */
module EmptyStore {
  import opened Wrappers
  import opened HttpError

  datatype EmptyStore = EmptyStore {

    /** `add()` does nothing and cannot fail. */
    function Add(sid: string): (r: Result<(), Failure>)
      ensures r.Ok?
    {
      Ok(())
    }

    /** `exists()` is true for every id, whether or not it was ever added. */
    function Exists(sid: string): (r: bool)
      ensures r
    {
      true
    }

    /** `remove()` does nothing and cannot fail; the id still exists
        afterwards. */
    function Remove(sid: string): (r: Result<(), Failure>)
      ensures r.Ok? && Exists(sid)
    {
      Ok(())
    }
  }
}
