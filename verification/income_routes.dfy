/** The income routes: list, create, get, update and delete, each on
    behalf of the authenticated `caller`. */
module IncomeRoutes {
  import opened Common
  import opened OwnedStore
  import opened Listing
  import opened IncomeModel

  /** The JSON body of a create request. A `user` in it is ignored. */
  datatype CreateBody = CreateBody(
    user: Option<UserId>,
    source: Option<string>,
    amount: Option<real>,
    date: Option<int>)

  /** Sort key of the income list: the transaction date. */
  function ByDate(e: Entry<Income>): int {
    e.fields.date
  }

  /** GET /: the caller's incomes, latest transaction date first. */
  method List(s: Store<Income>, caller: UserId) returns (rows: seq<Doc<Income>>)
    ensures IsListing(s, caller, ByDate, rows)
    ensures forall i, j | 0 <= i < j < |rows| :: rows[i].entry.fields.date >= rows[j].entry.fields.date
  {
    rows := Listing.List(s, caller, ByDate);
  }

  /** POST /: a new income owned by the caller under the fresh `id`,
      created at `now`. Validation and storage failures answer 500. */
  function Create(s: Store<Income>, caller: UserId, body: CreateBody, id: RecordId, now: int)
    : (r: Reply<Income, Entry<Income>>)
    ensures r.result.Ok? <==> Filled(body.source) && body.amount.Some? && body.date.Some? && id !in s
    ensures r.result.Err? ==> r.store == s && r.result.error == ServerError
    ensures r.result.Ok? ==>
      && r.store == s[id := r.result.value]
      && r.result.value.user == caller
      && r.result.value.fields == Income(body.source.value, body.amount.value, body.date.value)
      && r.result.value.createdAt == now
    ensures Isolated(s, r.store, caller)
  {
    match Build(IncomeDraft(Some(caller), body.source, body.amount, body.date, None), now)
    case None => Reply(s, Err(ServerError))
    case Some(e) => Save(s, e, id)
  }

  /** GET /:id: the stored income, for its owner only. */
  function Get(s: Store<Income>, caller: UserId, id: RecordId): (r: Result<Entry<Income>>)
    ensures Guarded(s, caller, id, r)
    ensures r.Ok? ==> r.value == s[id]
  {
    Lookup(s, caller, id)
  }

  /** PUT /:id: `$set` of source, amount and date from the body; the owner
      and the creation time stay as stored. */
  function Update(s: Store<Income>, caller: UserId, id: RecordId, body: Income)
    : (r: Reply<Income, Entry<Income>>)
    ensures Guarded(s, caller, id, r.result)
    ensures r.result.Err? ==> r.store == s
    ensures r.result.Ok? ==>
      && r.result.value == Entry(s[id].user, body, s[id].createdAt)
      && r.store == s[id := r.result.value]
    ensures Isolated(s, r.store, caller)
  {
    Edit(s, caller, id, _ => body)
  }

  /** DELETE /:id: removes exactly the caller's record `id`. */
  function Delete(s: Store<Income>, caller: UserId, id: RecordId): (r: Reply<Income, ()>)
    ensures Guarded(s, caller, id, r.result)
    ensures r.result.Err? ==> r.store == s
    ensures r.result.Ok? ==> r.store == s - {id}
    ensures Isolated(s, r.store, caller)
  {
    Remove(s, caller, id)
  }

  /** A created income reads back as created by its creator, while any other
      user is refused with NotAuthorized. */
  lemma CreateThenGet(s: Store<Income>, caller: UserId, body: CreateBody, id: RecordId, now: int, other: UserId)
    requires Create(s, caller, body, id, now).result.Ok?
    requires other != caller
    ensures var r := Create(s, caller, body, id, now);
      Get(r.store, caller, id) == r.result && Get(r.store, other, id) == Err(NotAuthorized)
  {
  }

  /** The owner of a created income comes from the authenticated caller
      alone: whatever `user` the body names, the outcome is the same. */
  lemma CreateIgnoresBodyOwner(s: Store<Income>, caller: UserId, body: CreateBody, other: Option<UserId>, id: RecordId, now: int)
    ensures Create(s, caller, body, id, now) == Create(s, caller, body.(user := other), id, now)
  {
  }

  /** Three incomes of `caller` on 2024-01-01, 2024-03-01 and 2024-02-01,
      as days since 1970-01-01, created in that order. */
  function ThreeIncomes(caller: UserId): Store<Income> {
    map[1 := January(caller), 2 := March(caller), 3 := February(caller)]
  }

  function January(caller: UserId): Entry<Income> { Entry(caller, Income("salary", 100.0, 19723), 0) }
  function March(caller: UserId): Entry<Income> { Entry(caller, Income("salary", 100.0, 19783), 1) }
  function February(caller: UserId): Entry<Income> { Entry(caller, Income("salary", 100.0, 19754), 2) }

  /** Three incomes dated 2024-01-01, 2024-03-01 and 2024-02-01 (as day
      numbers) are listed March, February, January, and in no other order. */
  lemma ListOrderExample(caller: UserId, rows: seq<Doc<Income>>)
    requires IsListing(ThreeIncomes(caller), caller, ByDate, rows)
    ensures rows == [Doc(2, March(caller)), Doc(3, February(caller)), Doc(1, January(caller))]
  {
    var s := ThreeIncomes(caller);
    var expected := [Doc(2, March(caller)), Doc(3, February(caller)), Doc(1, January(caller))];
    assert Owned(s, caller) == {1, 2, 3};
    assert Ids(expected) == {1, 2, 3} by {
      assert expected[0].id == 2 && expected[1].id == 3 && expected[2].id == 1;
    }
    assert IsListing(s, caller, ByDate, expected);
    ListingUnique(s, caller, ByDate, rows, expected);
  }
}
