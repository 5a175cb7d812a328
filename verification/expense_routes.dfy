/** The expense routes: list, create, get, update and delete, each on
    behalf of the authenticated `caller`. */
module ExpenseRoutes {
  import opened Common
  import opened OwnedStore
  import opened Listing
  import opened ExpenseModel

  /** The JSON body of a create request. A `user` in it is ignored. */
  datatype CreateBody = CreateBody(
    user: Option<UserId>,
    category: Option<string>,
    amount: Option<real>,
    date: Option<int>)

  /** Sort key of the expense list: the transaction date. */
  function ByDate(e: Entry<Expense>): int {
    e.fields.date
  }

  /** GET /: the caller's expenses, latest transaction date first. */
  method List(s: Store<Expense>, caller: UserId) returns (rows: seq<Doc<Expense>>)
    ensures IsListing(s, caller, ByDate, rows)
    ensures forall i, j | 0 <= i < j < |rows| :: rows[i].entry.fields.date >= rows[j].entry.fields.date
  {
    rows := Listing.List(s, caller, ByDate);
  }

  /** POST /: a new expense owned by the caller under the fresh `id`,
      created at `now`. Validation and storage failures answer 500. */
  function Create(s: Store<Expense>, caller: UserId, body: CreateBody, id: RecordId, now: int)
    : (r: Reply<Expense, Entry<Expense>>)
    ensures r.result.Ok? <==> Filled(body.category) && body.amount.Some? && body.date.Some? && id !in s
    ensures r.result.Err? ==> r.store == s && r.result.error == ServerError
    ensures r.result.Ok? ==>
      && r.store == s[id := r.result.value]
      && r.result.value.user == caller
      && r.result.value.fields == Expense(body.category.value, body.amount.value, body.date.value)
      && r.result.value.createdAt == now
    ensures Isolated(s, r.store, caller)
  {
    match Build(ExpenseDraft(Some(caller), body.category, body.amount, body.date, None), now)
    case None => Reply(s, Err(ServerError))
    case Some(e) => Save(s, e, id)
  }

  /** GET /:id: the stored expense, for its owner only. */
  function Get(s: Store<Expense>, caller: UserId, id: RecordId): (r: Result<Entry<Expense>>)
    ensures Guarded(s, caller, id, r)
    ensures r.Ok? ==> r.value == s[id]
  {
    Lookup(s, caller, id)
  }

  /** PUT /:id: `$set` of category, amount and date from the body; the owner
      and the creation time stay as stored. */
  function Update(s: Store<Expense>, caller: UserId, id: RecordId, body: Expense)
    : (r: Reply<Expense, Entry<Expense>>)
    ensures Guarded(s, caller, id, r.result)
    ensures r.result.Err? ==> r.store == s
    ensures r.result.Ok? ==>
      && r.result.value == Entry(s[id].user, body, s[id].createdAt)
      && r.store == s[id := r.result.value]
    ensures Isolated(s, r.store, caller)
  {
    Edit(s, caller, id, _ => body)
  }

  /** DELETE /:id: removes exactly the caller's record `id`. */
  function Delete(s: Store<Expense>, caller: UserId, id: RecordId): (r: Reply<Expense, ()>)
    ensures Guarded(s, caller, id, r.result)
    ensures r.result.Err? ==> r.store == s
    ensures r.result.Ok? ==> r.store == s - {id}
    ensures Isolated(s, r.store, caller)
  {
    Remove(s, caller, id)
  }

  /** A created expense reads back as created by its creator, while any other
      user is refused with NotAuthorized. */
  lemma CreateThenGet(s: Store<Expense>, caller: UserId, body: CreateBody, id: RecordId, now: int, other: UserId)
    requires Create(s, caller, body, id, now).result.Ok?
    requires other != caller
    ensures var r := Create(s, caller, body, id, now);
      Get(r.store, caller, id) == r.result && Get(r.store, other, id) == Err(NotAuthorized)
  {
  }

  /** The owner of a created expense comes from the authenticated caller
      alone: whatever `user` the body names, the outcome is the same. */
  lemma CreateIgnoresBodyOwner(s: Store<Expense>, caller: UserId, body: CreateBody, other: Option<UserId>, id: RecordId, now: int)
    ensures Create(s, caller, body, id, now) == Create(s, caller, body.(user := other), id, now)
  {
  }
}
