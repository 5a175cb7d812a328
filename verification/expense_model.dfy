/** The Expense document. Its schema file is not part of this model: the
    fields are the ones the expense routes write, and they are taken to be
    required in the same way as the Income schema requires its own. */
module ExpenseModel {
  import opened Common
  import opened OwnedStore

  /** The resource fields of an Expense document. */
  datatype Expense = Expense(category: string, amount: real, date: int)

  /** What `new Expense({...})` receives: any path may be missing. A
      `date` that does not parse to a valid Date counts as missing. */
  datatype ExpenseDraft = ExpenseDraft(
    user: Option<UserId>,
    category: Option<string>,
    amount: Option<real>,
    date: Option<int>,
    createdAt: Option<int>)

  /** Validation when the document is saved: `user`, `category`, `amount`
      and `date` are required; `createdAt` falls back to `now`. */
  function Build(d: ExpenseDraft, now: int): (r: Option<Entry<Expense>>)
    ensures r.Some? <==> d.user.Some? && Filled(d.category) && d.amount.Some? && d.date.Some?
    ensures r.Some? ==>
      && r.value.user == d.user.value
      && r.value.fields.category == d.category.value
      && r.value.fields.amount == d.amount.value
      && r.value.fields.date == d.date.value
    ensures r.Some? && d.createdAt.Some? ==> r.value.createdAt == d.createdAt.value
    ensures r.Some? && d.createdAt.None? ==> r.value.createdAt == now
  {
    if d.user.Some? && Filled(d.category) && d.amount.Some? && d.date.Some? then
      Some(Entry(d.user.value,
                 Expense(d.category.value, d.amount.value, d.date.value),
                 d.createdAt.GetOr(now)))
    else None
  }
}
