/** The saving routes: list, create, get, update and delete, each on
    behalf of the authenticated `caller`, with the target-amount rules. */
module SavingRoutes {
  import opened Common
  import opened OwnedStore
  import opened Listing
  import opened SavingModel

  /** The JSON body of a create request. A `user` in it is ignored. */
  datatype CreateBody = CreateBody(
    user: Option<UserId>,
    goal: Option<string>,
    amount: Option<real>,
    date: Option<int>,
    targetAmount: Option<real>)

  /** The JSON body of an update request: every field the route sets,
      with `targetAmount` optional. */
  datatype UpdateBody = UpdateBody(goal: string, amount: real, date: int, targetAmount: Option<real>)

  /** `targetAmount || amount * 2.5` as the create route computes it. A
      missing amount makes the product NaN (None here); the document then
      fails validation on `amount` anyway. */
  function DefaultTarget(body: CreateBody): Option<real> {
    Or(body.targetAmount, if body.amount.Some? then Some(body.amount.value * 2.5) else None)
  }

  /** GET /: the caller's savings, newest first. */
  method List(s: Store<Saving>, caller: UserId) returns (rows: seq<Doc<Saving>>)
    ensures IsListing(s, caller, ByCreatedAt, rows)
    ensures forall i, j | 0 <= i < j < |rows| :: rows[i].entry.createdAt >= rows[j].entry.createdAt
  {
    rows := Listing.List(s, caller, ByCreatedAt);
  }

  /** POST /: a new saving owned by the caller under the fresh `id`,
      created at `now`; a falsy target amount (missing, null or 0) becomes
      two and a half times the amount. */
  function Create(s: Store<Saving>, caller: UserId, body: CreateBody, id: RecordId, now: int)
    : (r: Reply<Saving, Entry<Saving>>)
    ensures r.result.Ok? <==> Filled(body.goal) && body.amount.Some? && body.date.Some? && id !in s
    ensures r.result.Err? ==> r.store == s && r.result.error == ServerError
    ensures r.result.Ok? ==>
      && r.store == s[id := r.result.value]
      && r.result.value.user == caller
      && r.result.value.fields.goal == body.goal.value
      && r.result.value.fields.amount == body.amount.value
      && r.result.value.fields.date == body.date.value
      && r.result.value.createdAt == now
    ensures r.result.Ok? && Truthy(body.targetAmount) ==>
      r.result.value.fields.targetAmount == body.targetAmount.value
    ensures r.result.Ok? && !Truthy(body.targetAmount) ==>
      r.result.value.fields.targetAmount == body.amount.value * 2.5
    ensures Isolated(s, r.store, caller)
  {
    match Build(SavingDraft(Some(caller), body.goal, body.amount, body.date, DefaultTarget(body), None), now)
    case None => Reply(s, Err(ServerError))
    case Some(e) => Save(s, e, id)
  }

  /** GET /:id: the stored saving, for its owner only. */
  function Get(s: Store<Saving>, caller: UserId, id: RecordId): (r: Result<Entry<Saving>>)
    ensures Guarded(s, caller, id, r)
    ensures r.Ok? ==> r.value == s[id]
  {
    Lookup(s, caller, id)
  }

  /** The fields an update writes: goal, amount and date from the body,
      and `targetAmount || <stored targetAmount>`. */
  function Revise(stored: Saving, body: UpdateBody): Saving {
    Saving(body.goal, body.amount, body.date, Or(body.targetAmount, Some(stored.targetAmount)).value)
  }

  /** PUT /:id: `$set` of goal, amount and date from the body; a falsy
      target amount keeps the stored one; owner and creation time stay. */
  function Update(s: Store<Saving>, caller: UserId, id: RecordId, body: UpdateBody)
    : (r: Reply<Saving, Entry<Saving>>)
    ensures Guarded(s, caller, id, r.result)
    ensures r.result.Err? ==> r.store == s
    ensures r.result.Ok? ==>
      && r.store == s[id := r.result.value]
      && r.result.value.user == s[id].user
      && r.result.value.createdAt == s[id].createdAt
      && r.result.value.fields.goal == body.goal
      && r.result.value.fields.amount == body.amount
      && r.result.value.fields.date == body.date
    ensures r.result.Ok? && Truthy(body.targetAmount) ==>
      r.result.value.fields.targetAmount == body.targetAmount.value
    ensures r.result.Ok? && !Truthy(body.targetAmount) ==>
      r.result.value.fields.targetAmount == s[id].fields.targetAmount
    ensures Isolated(s, r.store, caller)
  {
    Edit(s, caller, id, stored => Revise(stored, body))
  }

  /** DELETE /:id: removes exactly the caller's record `id`. */
  function Delete(s: Store<Saving>, caller: UserId, id: RecordId): (r: Reply<Saving, ()>)
    ensures Guarded(s, caller, id, r.result)
    ensures r.result.Err? ==> r.store == s
    ensures r.result.Ok? ==> r.store == s - {id}
    ensures Isolated(s, r.store, caller)
  {
    Remove(s, caller, id)
  }

  /** A created saving reads back as created by its creator, while any other
      user is refused with NotAuthorized. */
  lemma CreateThenGet(s: Store<Saving>, caller: UserId, body: CreateBody, id: RecordId, now: int, other: UserId)
    requires Create(s, caller, body, id, now).result.Ok?
    requires other != caller
    ensures var r := Create(s, caller, body, id, now);
      Get(r.store, caller, id) == r.result && Get(r.store, other, id) == Err(NotAuthorized)
  {
  }

  /** The owner of a created saving comes from the authenticated caller
      alone: whatever `user` the body names, the outcome is the same. */
  lemma CreateIgnoresBodyOwner(s: Store<Saving>, caller: UserId, body: CreateBody, other: Option<UserId>, id: RecordId, now: int)
    ensures Create(s, caller, body, id, now) == Create(s, caller, body.(user := other), id, now)
  {
  }

  /** A saving of amount 100 created without a target gets target 250; a
      later update to amount 40 that again omits the target keeps 250
      rather than recomputing it from the new amount. */
  lemma TargetDefaultThenKept(s: Store<Saving>, caller: UserId, id: RecordId, now: int)
    requires id !in s
    ensures var created := Create(s, caller, CreateBody(None, Some("car"), Some(100.0), Some(19723), None), id, now);
      && created.result.Ok?
      && created.result.value.fields.targetAmount == 250.0
      && var updated := Update(created.store, caller, id, UpdateBody("car", 40.0, 19754, None));
         updated.result.Ok? && updated.result.value.fields.targetAmount == 250.0
  {
  }
}
