/** The account routes: list, create, get, update and delete, each on
    behalf of the authenticated `caller`. */
module AccountRoutes {
  import opened Common
  import opened OwnedStore
  import opened Listing
  import opened AccountModel

  /** The JSON body of a create request. A `user` in it is ignored. */
  datatype CreateBody = CreateBody(
    user: Option<UserId>,
    name: Option<string>,
    kind: Option<string>,
    balance: Option<real>)

  /** GET /: the caller's accounts, newest first. */
  method List(s: Store<Account>, caller: UserId) returns (rows: seq<Doc<Account>>)
    ensures IsListing(s, caller, ByCreatedAt, rows)
    ensures forall i, j | 0 <= i < j < |rows| :: rows[i].entry.createdAt >= rows[j].entry.createdAt
  {
    rows := Listing.List(s, caller, ByCreatedAt);
  }

  /** POST /: a new account owned by the caller under the fresh `id`,
      created at `now`. Validation and storage failures answer 500. */
  function Create(s: Store<Account>, caller: UserId, body: CreateBody, id: RecordId, now: int)
    : (r: Reply<Account, Entry<Account>>)
    ensures r.result.Ok? <==> Filled(body.name) && Filled(body.kind) && id !in s
    ensures r.result.Err? ==> r.store == s && r.result.error == ServerError
    ensures r.result.Ok? ==>
      && r.store == s[id := r.result.value]
      && r.result.value.user == caller
      && r.result.value.fields == Account(body.name.value, body.kind.value, body.balance.GetOr(0.0))
      && r.result.value.createdAt == now
    ensures Isolated(s, r.store, caller)
  {
    match Build(AccountDraft(Some(caller), body.name, body.kind, body.balance, None), now)
    case None => Reply(s, Err(ServerError))
    case Some(e) => Save(s, e, id)
  }

  /** GET /:id: the stored account, for its owner only. */
  function Get(s: Store<Account>, caller: UserId, id: RecordId): (r: Result<Entry<Account>>)
    ensures Guarded(s, caller, id, r)
    ensures r.Ok? ==> r.value == s[id]
  {
    Lookup(s, caller, id)
  }

  /** PUT /:id: `$set` of name, type and balance from the body; the owner
      and the creation time stay as stored. */
  function Update(s: Store<Account>, caller: UserId, id: RecordId, body: Account)
    : (r: Reply<Account, Entry<Account>>)
    ensures Guarded(s, caller, id, r.result)
    ensures r.result.Err? ==> r.store == s
    ensures r.result.Ok? ==>
      && r.result.value == Entry(s[id].user, body, s[id].createdAt)
      && r.store == s[id := r.result.value]
    ensures Isolated(s, r.store, caller)
  {
    Edit(s, caller, id, _ => body)
  }

  /** DELETE /:id: removes exactly the caller's record `id`. */
  function Delete(s: Store<Account>, caller: UserId, id: RecordId): (r: Reply<Account, ()>)
    ensures Guarded(s, caller, id, r.result)
    ensures r.result.Err? ==> r.store == s
    ensures r.result.Ok? ==> r.store == s - {id}
    ensures Isolated(s, r.store, caller)
  {
    Remove(s, caller, id)
  }

  /** A created account reads back as created by its creator, while any other
      user is refused with NotAuthorized. */
  lemma CreateThenGet(s: Store<Account>, caller: UserId, body: CreateBody, id: RecordId, now: int, other: UserId)
    requires Create(s, caller, body, id, now).result.Ok?
    requires other != caller
    ensures var r := Create(s, caller, body, id, now);
      Get(r.store, caller, id) == r.result && Get(r.store, other, id) == Err(NotAuthorized)
  {
  }

  /** The owner of a created account comes from the authenticated caller
      alone: whatever `user` the body names, the outcome is the same. */
  lemma CreateIgnoresBodyOwner(s: Store<Account>, caller: UserId, body: CreateBody, other: Option<UserId>, id: RecordId, now: int)
    ensures Create(s, caller, body, id, now) == Create(s, caller, body.(user := other), id, now)
  {
  }
}
