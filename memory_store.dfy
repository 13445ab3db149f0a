/**
 * The process-local session store: a dictionary from session id to the
 * snapshot of a session taken when it was saved.
 */
module MemoryStore {
  import opened Wrappers
  import opened Sessions

  /** `self._store.get(session_id)`. */
  function Lookup(store: map<string, SessionValue>, id: string): (r: Option<SessionValue>)
    ensures r.Some? <==> id in store
    ensures r.Some? ==> r.value == store[id]
  {
    if id in store then Some(store[id]) else None
  }

  /** The store after `save`: the entry for the session's id is replaced by the snapshot. */
  function Saved(store: map<string, SessionValue>, v: SessionValue): (r: map<string, SessionValue>)
    ensures r.Keys == store.Keys + {v.sessionId}
  {
    store[v.sessionId := v]
  }

  /** The store after `delete`: the id is gone, whether or not it was there. */
  function Deleted(store: map<string, SessionValue>, id: string): (r: map<string, SessionValue>)
    ensures r.Keys == store.Keys - {id}
  {
    store - {id}
  }

  /** Saving and then looking up the same id gives back the saved snapshot. */
  lemma GetAfterSave(store: map<string, SessionValue>, v: SessionValue)
    ensures Lookup(Saved(store, v), v.sessionId) == Some(v)
  {
  }

  /** Saving twice under the same id keeps only the later snapshot. */
  lemma SaveOverwrites(store: map<string, SessionValue>, v1: SessionValue, v2: SessionValue)
    requires v1.sessionId == v2.sessionId
    ensures Saved(Saved(store, v1), v2) == Saved(store, v2)
  {
  }

  /** After a delete the id is unknown. */
  lemma GetAfterDelete(store: map<string, SessionValue>, id: string)
    ensures Lookup(Deleted(store, id), id) == None
  {
  }

  /** Deleting an unknown id changes nothing. */
  lemma DeleteUnknownIsNoOp(store: map<string, SessionValue>, id: string)
    requires id !in store
    ensures Deleted(store, id) == store
  {
  }

  /** Save and delete leave the entry of every other id as it was. */
  lemma OtherIdsUnchanged(store: map<string, SessionValue>, v: SessionValue, id: string, other: string)
    requires other != v.sessionId && other != id
    ensures Lookup(Saved(store, v), other) == Lookup(store, other)
    ensures Lookup(Deleted(store, id), other) == Lookup(store, other)
  {
  }

  /** `InMemorySessionStore`, without its lock: every call runs to completion before the next. */
  class InMemorySessionStore {
    var store: map<string, SessionValue>

    constructor ()
      ensures store == map[]
    {
      store := map[];
    }

    /** `get`: a new session object built from the stored snapshot, or none for an unknown id. */
    method Get(id: string) returns (s: Session?)
      ensures s == null <==> Lookup(store, id).None?
      ensures s != null ==> fresh(s) && Some(s.Value()) == Lookup(store, id)
    {
      if id in store {
        s := new Session.FromValue(store[id]);
      } else {
        s := null;
      }
    }

    /** `save`: stores a snapshot of the session under its id, replacing any earlier one. */
    method Save(session: Session)
      modifies this
      ensures store == Saved(old(store), session.Value())
    {
      store := store[session.sessionId := session.Value()];
    }

    /** `delete`: removes the id; an unknown id is ignored. */
    method Delete(id: string)
      modifies this
      ensures store == Deleted(old(store), id)
    {
      store := store - {id};
    }
  }
}
