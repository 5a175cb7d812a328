/** The list route shared by all four resources: `find({user: caller})`
    followed by `sort({<key>: -1})`. Each resource picks its sort key. */
module Listing {
  import opened Common
  import opened OwnedStore

  /** The ids of the records `caller` owns. */
  function Owned<F>(s: Store<F>, caller: UserId): set<RecordId> {
    set id | id in s && s[id].user == caller
  }

  /** Sort key of the account and saving lists: creation time. */
  function ByCreatedAt<F>(e: Entry<F>): int {
    e.createdAt
  }

  /** The ids a list of documents mentions. */
  function Ids<F>(rows: seq<Doc<F>>): set<RecordId> {
    set i | 0 <= i < |rows| :: rows[i].id
  }

  /** No document appears twice. */
  ghost predicate DistinctIds<F>(rows: seq<Doc<F>>) {
    forall i, j | 0 <= i < j < |rows| :: rows[i].id != rows[j].id
  }

  /** Keys never increase along the list (`sort({key: -1})`). */
  ghost predicate Descending<F>(rows: seq<Doc<F>>, key: Entry<F> -> int) {
    forall i, j | 0 <= i < j < |rows| :: key(rows[i].entry) >= key(rows[j].entry)
  }

  /** Keys strictly decrease along the list. */
  ghost predicate StrictlyDescending<F>(rows: seq<Doc<F>>, key: Entry<F> -> int) {
    forall i, j | 0 <= i < j < |rows| :: key(rows[i].entry) > key(rows[j].entry)
  }

  /** `rows` is a correct answer of the list route: exactly the caller's
      documents, as stored, each once, ordered by `key` non-increasing. */
  ghost predicate IsListing<F>(s: Store<F>, caller: UserId, key: Entry<F> -> int, rows: seq<Doc<F>>) {
    && (forall i | 0 <= i < |rows| ::
          rows[i].id in s && s[rows[i].id] == rows[i].entry && rows[i].entry.user == caller)
    && Ids(rows) == Owned(s, caller)
    && DistinctIds(rows)
    && Descending(rows, key)
  }

  /** No two records of `caller` share a sort key. */
  ghost predicate DistinctKeys<F>(s: Store<F>, caller: UserId, key: Entry<F> -> int) {
    forall a, b | a in Owned(s, caller) && b in Owned(s, caller) && a != b :: key(s[a]) != key(s[b])
  }

  /** Where `d` goes in a list sorted by `key` non-increasing: after every
      document with a larger key, before the first one whose key does not
      exceed its own. */
  function Position<F>(rows: seq<Doc<F>>, d: Doc<F>, key: Entry<F> -> int): (k: nat)
    ensures k <= |rows|
    ensures forall i | 0 <= i < k :: key(rows[i].entry) > key(d.entry)
    ensures k < |rows| ==> key(rows[k].entry) <= key(d.entry)
    decreases |rows|
  {
    if |rows| == 0 || key(rows[0].entry) <= key(d.entry) then 0
    else 1 + Position(rows[1..], d, key)
  }

  /** Places `d` into a list sorted by `key` non-increasing. */
  function Insert<F>(rows: seq<Doc<F>>, d: Doc<F>, key: Entry<F> -> int): (q: seq<Doc<F>>)
    requires Descending(rows, key)
    ensures Descending(q, key)
    ensures |q| == |rows| + 1
    ensures multiset(q) == multiset(rows) + multiset{d}
    ensures d in q
    ensures forall i | 0 <= i < |q| :: q[i] == d || q[i] in rows
    ensures Ids(q) == Ids(rows) + {d.id}
    ensures DistinctIds(rows) && d.id !in Ids(rows) ==> DistinctIds(q)
  {
    var k := Position(rows, d, key);
    var q := rows[..k] + [d] + rows[k..];
    assert rows == rows[..k] + rows[k..];
    SpliceShape(rows, d, k, q);
    assert Descending(q, key) by {
      forall i, j | 0 <= i < j < |q| ensures key(q[i].entry) >= key(q[j].entry) {
        if j < k {
        } else if j == k {
        } else if i < k {
          assert key(rows[i].entry) >= key(rows[j - 1].entry);
        } else if i == k {
          assert key(rows[k].entry) >= key(rows[j - 1].entry);
        } else {
          assert key(rows[i - 1].entry) >= key(rows[j - 1].entry);
        }
      }
    }
    SpliceIds(rows, d, k, q);
    q
  }

  /** Index bookkeeping of `rows[..k] + [d] + rows[k..]`. */
  lemma SpliceShape<F>(rows: seq<Doc<F>>, d: Doc<F>, k: nat, q: seq<Doc<F>>)
    requires k <= |rows| && q == rows[..k] + [d] + rows[k..]
    ensures |q| == |rows| + 1
    ensures forall i | 0 <= i < k :: q[i] == rows[i]
    ensures q[k] == d
    ensures forall i | k < i < |q| :: q[i] == rows[i - 1]
  {
  }

  /** The ids of a splice, and its freedom from repeats. */
  lemma SpliceIds<F>(rows: seq<Doc<F>>, d: Doc<F>, k: nat, q: seq<Doc<F>>)
    requires k <= |rows| && q == rows[..k] + [d] + rows[k..]
    ensures Ids(q) == Ids(rows) + {d.id}
    ensures DistinctIds(rows) && d.id !in Ids(rows) ==> DistinctIds(q)
  {
    SpliceShape(rows, d, k, q);
    forall x | x in Ids(q) ensures x in Ids(rows) + {d.id} {
      var i :| 0 <= i < |q| && q[i].id == x;
      if i < k { assert rows[i].id == x; }
      else if i > k { assert rows[i - 1].id == x; }
    }
    forall x | x in Ids(rows) ensures x in Ids(q) {
      var i :| 0 <= i < |rows| && rows[i].id == x;
      if i < k { assert q[i].id == x; } else { assert q[i + 1].id == x; }
    }
    assert q[k].id == d.id;
    if DistinctIds(rows) && d.id !in Ids(rows) {
      forall i, j | 0 <= i < j < |q| ensures q[i].id != q[j].id {
        if i < k && j > k {
          assert rows[i].id != rows[j - 1].id;
        } else if i > k {
          assert rows[i - 1].id != rows[j - 1].id;
        } else if i == k {
          assert rows[j - 1].id in Ids(rows);
        } else if j == k {
          assert rows[i].id in Ids(rows);
        }
      }
    }
  }

  /** The list route: the caller's documents ordered by `key` descending. */
  method List<F>(s: Store<F>, caller: UserId, key: Entry<F> -> int) returns (rows: seq<Doc<F>>)
    ensures forall i | 0 <= i < |rows| ::
      rows[i].id in s && s[rows[i].id] == rows[i].entry && rows[i].entry.user == caller
    ensures Ids(rows) == Owned(s, caller)
    ensures DistinctIds(rows)
    ensures Descending(rows, key)
    ensures |rows| == |Owned(s, caller)|
  {
    rows := [];
    var remaining := s.Keys;
    while remaining != {}
      invariant remaining <= s.Keys
      invariant forall i | 0 <= i < |rows| ::
        rows[i].id in s && s[rows[i].id] == rows[i].entry
        && rows[i].entry.user == caller && rows[i].id !in remaining
      invariant Ids(rows) == Owned(s, caller) - remaining
      invariant DistinctIds(rows)
      invariant Descending(rows, key)
      decreases remaining
    {
      var id :| id in remaining;
      if s[id].user == caller {
        assert id !in Ids(rows);
        var prev := rows;
        rows := Insert(rows, Doc(id, s[id]), key);
        forall i | 0 <= i < |rows|
          ensures rows[i].id in s && s[rows[i].id] == rows[i].entry
          ensures rows[i].entry.user == caller && rows[i].id !in remaining - {id}
        {
          if rows[i] != Doc(id, s[id]) {
            var k :| 0 <= k < |prev| && prev[k] == rows[i];
          }
        }
      }
      remaining := remaining - {id};
    }
    DistinctCardinality(rows);
  }

  /** A list with no repeated id has as many ids as documents. */
  lemma {:induction false} DistinctCardinality<F>(rows: seq<Doc<F>>)
    requires DistinctIds(rows)
    ensures |Ids(rows)| == |rows|
    decreases |rows|
  {
    if |rows| > 0 {
      var init := rows[..|rows| - 1];
      var last := rows[|rows| - 1];
      assert rows == init + [last];
      forall i, j | 0 <= i < j < |init| ensures init[i].id != init[j].id {
        assert init[i] == rows[i] && init[j] == rows[j];
      }
      DistinctCardinality(init);
      SpliceIds(init, last, |init|, rows);
      forall i | 0 <= i < |init| ensures init[i].id != last.id {
        assert init[i] == rows[i];
      }
      assert last.id !in Ids(init);
    }
  }

  /** Two non-empty lists with the same documents, both strictly
      descending, start with the same document: the one with the top key. */
  lemma SameHead<F>(a: seq<Doc<F>>, b: seq<Doc<F>>, key: Entry<F> -> int)
    requires |a| > 0 && |b| > 0
    requires StrictlyDescending(a, key) && StrictlyDescending(b, key)
    requires a[0] in b && b[0] in a
    ensures a[0] == b[0]
  {
    var j :| 0 <= j < |b| && b[j] == a[0];
    var i :| 0 <= i < |a| && a[i] == b[0];
    assert key(a[0].entry) >= key(a[i].entry);
    assert key(b[0].entry) >= key(b[j].entry);
  }

  /** Every document of `a` after the head is in `b` after the head. */
  lemma TailInTail<F>(a: seq<Doc<F>>, b: seq<Doc<F>>, key: Entry<F> -> int)
    requires |a| > 0 && |b| > 0 && a[0] == b[0]
    requires StrictlyDescending(a, key)
    requires forall i | 0 <= i < |a| :: a[i] in b
    ensures forall p | 0 <= p < |a| - 1 :: a[1..][p] in b[1..]
  {
    forall p | 0 <= p < |a| - 1 ensures a[1..][p] in b[1..] {
      assert a[1..][p] == a[p + 1];
      var q :| 0 <= q < |b| && b[q] == a[p + 1];
      assert key(a[0].entry) > key(a[p + 1].entry);
      assert b[1..][q - 1] == b[q];
    }
  }

  /** Two lists with the same documents, both strictly descending by the
      same key, are the same list. */
  lemma {:induction false} StrictlyDescendingUnique<F>(a: seq<Doc<F>>, b: seq<Doc<F>>, key: Entry<F> -> int)
    requires StrictlyDescending(a, key) && StrictlyDescending(b, key)
    requires forall i | 0 <= i < |a| :: a[i] in b
    requires forall j | 0 <= j < |b| :: b[j] in a
    ensures a == b
    decreases |a|
  {
    if |a| > 0 {
      assert a[0] in b;
      SameHead(a, b, key);
      TailInTail(a, b, key);
      TailInTail(b, a, key);
      StrictlyDescendingUnique(a[1..], b[1..], key);
      assert a == [a[0]] + a[1..];
      assert b == [b[0]] + b[1..];
    }
  }

  /** When the caller's records have pairwise distinct sort keys, the list
      route has exactly one correct answer: the order is fully determined. */
  lemma ListingUnique<F>(s: Store<F>, caller: UserId, key: Entry<F> -> int, r1: seq<Doc<F>>, r2: seq<Doc<F>>)
    requires DistinctKeys(s, caller, key)
    requires IsListing(s, caller, key, r1) && IsListing(s, caller, key, r2)
    ensures r1 == r2
  {
    ListingStrict(s, caller, key, r1);
    ListingStrict(s, caller, key, r2);
    forall i | 0 <= i < |r1| ensures r1[i] in r2 {
      assert r1[i].id in Ids(r1);
      var j :| 0 <= j < |r2| && r2[j].id == r1[i].id;
    }
    forall j | 0 <= j < |r2| ensures r2[j] in r1 {
      assert r2[j].id in Ids(r2);
      var i :| 0 <= i < |r1| && r1[i].id == r2[j].id;
    }
    StrictlyDescendingUnique(r1, r2, key);
  }

  /** With distinct keys, a correct listing is strictly descending. */
  lemma ListingStrict<F>(s: Store<F>, caller: UserId, key: Entry<F> -> int, rows: seq<Doc<F>>)
    requires DistinctKeys(s, caller, key)
    requires IsListing(s, caller, key, rows)
    ensures StrictlyDescending(rows, key)
  {
    forall i, j | 0 <= i < j < |rows| ensures key(rows[i].entry) > key(rows[j].entry) {
      assert rows[i].id in Owned(s, caller) && rows[j].id in Owned(s, caller);
      assert key(s[rows[i].id]) != key(s[rows[j].id]);
    }
  }
}
