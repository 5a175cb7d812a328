/** The Account schema: an owned financial container with a free-form
    type and a balance that defaults to zero. */
module AccountModel {
  import opened Common
  import opened OwnedStore

  /** The resource fields of an Account document (the schema's `type`
      path is called `kind`, `type` being a Dafny keyword). */
  datatype Account = Account(name: string, kind: string, balance: real)

  /** What `new Account({...})` receives: any path may be missing. */
  datatype AccountDraft = AccountDraft(
    user: Option<UserId>,
    name: Option<string>,
    kind: Option<string>,
    balance: Option<real>,
    createdAt: Option<int>)

  /** Defaulting and validation when the document is saved: `balance`
      falls back to 0 and `createdAt` to the current time `now`; a missing
      `user`, `name` or `type` is a validation failure (None). */
  function Build(d: AccountDraft, now: int): (r: Option<Entry<Account>>)
    ensures r.Some? <==> d.user.Some? && Filled(d.name) && Filled(d.kind)
    ensures r.Some? ==>
      && r.value.user == d.user.value
      && r.value.fields.name == d.name.value
      && r.value.fields.kind == d.kind.value
    ensures r.Some? && d.balance.Some? ==> r.value.fields.balance == d.balance.value
    ensures r.Some? && d.balance.None? ==> r.value.fields.balance == 0.0
    ensures r.Some? && d.createdAt.Some? ==> r.value.createdAt == d.createdAt.value
    ensures r.Some? && d.createdAt.None? ==> r.value.createdAt == now
  {
    if d.user.Some? && Filled(d.name) && Filled(d.kind) then
      Some(Entry(d.user.value,
                 Account(d.name.value, d.kind.value, d.balance.GetOr(0.0)),
                 d.createdAt.GetOr(now)))
    else None
  }
}
