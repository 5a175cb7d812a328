/** The Income schema: an owned transaction with a source label, an
    amount and a transaction date kept apart from the creation time. */
module IncomeModel {
  import opened Common
  import opened OwnedStore

  /** The resource fields of an Income document; `date` is the
      transaction date, distinct from the document's `createdAt`. */
  datatype Income = Income(source: string, amount: real, date: int)

  /** What `new Income({...})` receives: any path may be missing. A
      `date` that does not parse to a valid Date counts as missing. */
  datatype IncomeDraft = IncomeDraft(
    user: Option<UserId>,
    source: Option<string>,
    amount: Option<real>,
    date: Option<int>,
    createdAt: Option<int>)

  /** Validation when the document is saved: `user`, `source`, `amount`
      and `date` are required; `createdAt` falls back to `now`. */
  function Build(d: IncomeDraft, now: int): (r: Option<Entry<Income>>)
    ensures r.Some? <==> d.user.Some? && Filled(d.source) && d.amount.Some? && d.date.Some?
    ensures r.Some? ==>
      && r.value.user == d.user.value
      && r.value.fields.source == d.source.value
      && r.value.fields.amount == d.amount.value
      && r.value.fields.date == d.date.value
    ensures r.Some? && d.createdAt.Some? ==> r.value.createdAt == d.createdAt.value
    ensures r.Some? && d.createdAt.None? ==> r.value.createdAt == now
  {
    if d.user.Some? && Filled(d.source) && d.amount.Some? && d.date.Some? then
      Some(Entry(d.user.value,
                 Income(d.source.value, d.amount.value, d.date.value),
                 d.createdAt.GetOr(now)))
    else None
  }

  /** The transaction date and the creation time are independent paths:
      changing the draft's `createdAt` never changes the stored `date` or
      whether the document is valid, and changing a present `date` never
      changes the stored `createdAt`. */
  lemma DateIndependentOfCreatedAt(d: IncomeDraft, c1: Option<int>, c2: Option<int>, x: int, y: int, now: int)
    ensures Build(d.(createdAt := c1), now).Some? == Build(d.(createdAt := c2), now).Some?
    ensures Build(d.(createdAt := c1), now).Some? ==>
      Build(d.(createdAt := c1), now).value.fields.date == Build(d.(createdAt := c2), now).value.fields.date
    ensures Build(d.(date := Some(x)), now).Some? ==>
      && Build(d.(date := Some(y)), now).Some?
      && Build(d.(date := Some(x)), now).value.createdAt == Build(d.(date := Some(y)), now).value.createdAt
  {
  }
}
