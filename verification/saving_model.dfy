/** The Saving schema: an owned savings goal with an amount, a date and
    a target amount that the schema defaults to 0. */
module SavingModel {
  import opened Common
  import opened OwnedStore

  /** The resource fields of a Saving document. */
  datatype Saving = Saving(goal: string, amount: real, date: int, targetAmount: real)

  /** What `new Saving({...})` receives: any path may be missing. A
      `date` that does not parse to a valid Date counts as missing. */
  datatype SavingDraft = SavingDraft(
    user: Option<UserId>,
    goal: Option<string>,
    amount: Option<real>,
    date: Option<int>,
    targetAmount: Option<real>,
    createdAt: Option<int>)

  /** Defaulting and validation when the document is saved: `user`,
      `goal`, `amount` and `date` are required; `targetAmount` falls back
      to 0 and `createdAt` to `now`. */
  function Build(d: SavingDraft, now: int): (r: Option<Entry<Saving>>)
    ensures r.Some? <==> d.user.Some? && Filled(d.goal) && d.amount.Some? && d.date.Some?
    ensures r.Some? ==>
      && r.value.user == d.user.value
      && r.value.fields.goal == d.goal.value
      && r.value.fields.amount == d.amount.value
      && r.value.fields.date == d.date.value
    ensures r.Some? && d.targetAmount.Some? ==> r.value.fields.targetAmount == d.targetAmount.value
    ensures r.Some? && d.targetAmount.None? ==> r.value.fields.targetAmount == 0.0
    ensures r.Some? && d.createdAt.Some? ==> r.value.createdAt == d.createdAt.value
    ensures r.Some? && d.createdAt.None? ==> r.value.createdAt == now
  {
    if d.user.Some? && Filled(d.goal) && d.amount.Some? && d.date.Some? then
      Some(Entry(d.user.value,
                 Saving(d.goal.value, d.amount.value, d.date.value, d.targetAmount.GetOr(0.0)),
                 d.createdAt.GetOr(now)))
    else None
  }
}
