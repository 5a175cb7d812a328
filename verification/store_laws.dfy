/** How the store operations compose: what a later read observes after a
    create, an update or a delete, and how one user's requests leave every
    other user's view of the collection alone. */
module StoreLaws {
  import opened Common
  import opened OwnedStore
  import opened Listing

  /** After a create, the owner reads the record back unchanged, and any
      other user is refused with NotAuthorized. */
  lemma SaveThenLookup<F>(s: Store<F>, e: Entry<F>, id: RecordId, other: UserId)
    requires Save(s, e, id).result.Ok?
    requires other != e.user
    ensures Lookup(Save(s, e, id).store, e.user, id) == Ok(e)
    ensures Lookup(Save(s, e, id).store, other, id) == Err(NotAuthorized)
  {
  }

  /** After an update, a read by the owner returns what the update answered. */
  lemma EditThenLookup<F>(s: Store<F>, caller: UserId, id: RecordId, edit: F -> F)
    requires Edit(s, caller, id, edit).result.Ok?
    ensures Lookup(Edit(s, caller, id, edit).store, caller, id) == Edit(s, caller, id, edit).result
  {
  }

  /** After a delete, every user is answered NotFound for that id. */
  lemma RemoveThenLookup<F>(s: Store<F>, caller: UserId, id: RecordId, anyone: UserId)
    requires Remove(s, caller, id).result.Ok?
    ensures Lookup(Remove(s, caller, id).store, anyone, id) == Err(NotFound)
  {
  }

  /** A create adds exactly the new id to its owner's list. */
  lemma SaveGrowsOwned<F>(s: Store<F>, e: Entry<F>, id: RecordId)
    requires Save(s, e, id).result.Ok?
    ensures Owned(Save(s, e, id).store, e.user) == Owned(s, e.user) + {id}
  {
  }

  /** A delete removes exactly that id from its owner's list. */
  lemma RemoveShrinksOwned<F>(s: Store<F>, caller: UserId, id: RecordId)
    requires Remove(s, caller, id).result.Ok?
    ensures Owned(Remove(s, caller, id).store, caller) == Owned(s, caller) - {id}
  {
  }

  /** When `caller`'s request kept every other user's records as they
      were, every other user's correct lists are exactly what they were. */
  lemma ListingIsolated<F>(s: Store<F>, t: Store<F>, caller: UserId, u: UserId, key: Entry<F> -> int, rows: seq<Doc<F>>)
    requires Isolated(s, t, caller)
    requires u != caller
    ensures IsListing(s, u, key, rows) <==> IsListing(t, u, key, rows)
  {
    var vs, vt := OthersView(s, caller), OthersView(t, caller);
    forall id ensures (id in s && s[id].user == u) <==> (id in t && t[id].user == u) {
      if id in s && s[id].user == u {
        assert id in vs;
        assert id in vt;
      }
      if id in t && t[id].user == u {
        assert id in vt;
        assert id in vs;
      }
    }
    forall id | id in s && s[id].user == u ensures t[id] == s[id] {
      assert id in vs && vs[id] == s[id];
      assert vt[id] == t[id];
    }
    assert Owned(s, u) == Owned(t, u);
  }
}
