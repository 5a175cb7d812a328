/** The ownership-scoped record store that every resource route repeats:
    a collection of documents keyed by `_id`, each carrying the owning user
    and its creation time beside resource-specific fields `F`. The lookup
    answers "not found" before it answers "not authorized", and only the
    owner gets past both to read, overwrite or remove a record. */
module OwnedStore {
  import opened Common

  /** One stored document: owner, resource fields, creation timestamp. */
  datatype Entry<F> = Entry(user: UserId, fields: F, createdAt: int)

  /** A collection: document `_id` to document. */
  type Store<F> = map<RecordId, Entry<F>>

  /** A document as a list response carries it: its `_id` and contents. */
  datatype Doc<F> = Doc(id: RecordId, entry: Entry<F>)

  /** The collection after a handler ran, with the handler's answer. */
  datatype Reply<F, T> = Reply(store: Store<F>, result: Result<T>)

  /** The records of every user other than `caller`. */
  function OthersView<F>(s: Store<F>, caller: UserId): map<RecordId, Entry<F>> {
    map id | id in s && s[id].user != caller :: s[id]
  }

  /** `t` holds exactly the same records of other users as `s`: whatever
      `caller` did, nobody else's data appeared, changed or vanished. */
  ghost predicate Isolated<F>(s: Store<F>, t: Store<F>, caller: UserId) {
    OthersView(s, caller) == OthersView(t, caller)
  }

  /** The existence-then-ownership decision of a single-record handler:
      an absent id answers NotFound (404), a record of another user answers
      NotAuthorized (401), and only the owner gets a success. */
  ghost predicate Guarded<F, T>(s: Store<F>, caller: UserId, id: RecordId, r: Result<T>) {
    && (r.Err? && r.error == NotFound <==> id !in s)
    && (r.Err? && r.error == NotAuthorized <==> id in s && s[id].user != caller)
    && (r.Ok? <==> id in s && s[id].user == caller)
    && (r.Err? ==> r.error.Status() == (if id !in s then 404 else 401))
  }

  /** `findById` followed by the two checks every single-record route makes. */
  function Lookup<F>(s: Store<F>, caller: UserId, id: RecordId): (r: Result<Entry<F>>)
    ensures Guarded(s, caller, id, r)
    ensures r.Ok? ==> r.value == s[id]
  {
    if id !in s then Err(NotFound)
    else if s[id].user != caller then Err(NotAuthorized)
    else Ok(s[id])
  }

  /** `document.save()` of a validated new document under the fresh `_id`
      the driver generated; an `_id` already in use is the duplicate-key
      failure, which the handler's catch turns into a server error. */
  function Save<F>(s: Store<F>, e: Entry<F>, id: RecordId): (r: Reply<F, Entry<F>>)
    ensures r.result.Ok? <==> id !in s
    ensures r.result.Err? ==> r.store == s && r.result.error == ServerError
    ensures r.result.Ok? ==>
      && r.result.value == e
      && r.store.Keys == s.Keys + {id}
      && r.store[id] == e
      && (forall k | k in s :: r.store[k] == s[k])
    ensures Isolated(s, r.store, e.user)
  {
    if id in s then Reply(s, Err(ServerError))
    else
      var t := s[id := e];
      assert OthersView(s, e.user) == OthersView(t, e.user);
      Reply(t, Ok(e))
  }

  /** `findByIdAndUpdate(id, {$set: ...}, {new: true})` after the checks:
      the owner's record gets the fields `edit` computes from the stored
      ones, and the updated document is the answer. */
  function Edit<F>(s: Store<F>, caller: UserId, id: RecordId, edit: F -> F): (r: Reply<F, Entry<F>>)
    ensures Guarded(s, caller, id, r.result)
    ensures r.result.Err? ==> r.store == s
    ensures r.result.Ok? ==>
      && r.store.Keys == s.Keys
      && r.result.value == r.store[id]
      && r.store[id].user == s[id].user
      && r.store[id].createdAt == s[id].createdAt
      && r.store[id].fields == edit(s[id].fields)
      && (forall k | k in s && k != id :: r.store[k] == s[k])
    ensures Isolated(s, r.store, caller)
  {
    match Lookup(s, caller, id)
    case Err(e) => Reply(s, Err(e))
    case Ok(stored) =>
      var updated := Entry(stored.user, edit(stored.fields), stored.createdAt);
      var t := s[id := updated];
      assert OthersView(s, caller) == OthersView(t, caller);
      Reply(t, Ok(updated))
  }

  /** `findByIdAndRemove(id)` after the checks: a hard delete of exactly
      that record, acknowledged with an empty answer. */
  function Remove<F>(s: Store<F>, caller: UserId, id: RecordId): (r: Reply<F, ()>)
    ensures Guarded(s, caller, id, r.result)
    ensures r.result.Err? ==> r.store == s
    ensures r.result.Ok? ==>
      && r.store.Keys == s.Keys - {id}
      && (forall k | k in r.store :: r.store[k] == s[k])
    ensures Isolated(s, r.store, caller)
  {
    match Lookup(s, caller, id)
    case Err(e) => Reply(s, Err(e))
    case Ok(_) =>
      var t := s - {id};
      assert OthersView(s, caller) == OthersView(t, caller);
      Reply(t, Ok(()))
  }
}
