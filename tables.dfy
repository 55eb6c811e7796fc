/** The database the endpoint handlers work on. Each table is a sequence of
    rows in primary-key order, which is the order SQLAlchemy returns them
    in when a query has no ORDER BY; a row's key is fresh when it is
    inserted and never reused. The session's commit and refresh are not
    modelled: every change is visible at once. */
module Tables {
  import opened Wrappers
  import opened Models

  /** A stored record and its primary key. */
  datatype Row<T> = Row(id: nat, value: T)

  /** Keys grow along the table, so a key names at most one row. */
  predicate KeysIncreasing<T>(rows: seq<Row<T>>) {
    forall i, j :: 0 <= i < j < |rows| ==> rows[i].id < rows[j].id
  }

  /** Keys grow along the table and stay below `next`, the key the next
      insert receives. */
  predicate WellKeyed<T>(rows: seq<Row<T>>, next: nat) {
    KeysIncreasing(rows) && forall i :: 0 <= i < |rows| ==> rows[i].id < next
  }

  /** `query.filter(...).first()`: the position of the first row the
      filter admits, if any. */
  function Find<T>(rows: seq<Row<T>>, wanted: Row<T> -> bool): (r: Option<nat>)
    ensures r.Some? ==> r.value < |rows| && wanted(rows[r.value])
    ensures r.Some? ==> forall i :: 0 <= i < r.value ==> !wanted(rows[i])
    ensures r.None? ==> forall i :: 0 <= i < |rows| ==> !wanted(rows[i])
  {
    if rows == [] then None
    else if wanted(rows[0]) then Some(0)
    else
      assert forall i :: 1 <= i < |rows| ==> rows[i] == rows[1..][i - 1];
      match Find(rows[1..], wanted)
      case None => None
      case Some(k) => Some(k + 1)
  }

  /** The rows `keep` admits, in table order (a query's `filter`). */
  function Select<T>(rows: seq<Row<T>>, keep: Row<T> -> bool): (r: seq<Row<T>>)
    ensures forall i :: 0 <= i < |r| ==> r[i] in rows && keep(r[i])
    ensures forall i :: 0 <= i < |rows| && keep(rows[i]) ==> rows[i] in r
    ensures |r| <= |rows|
  {
    if rows == [] then []
    else
      assert forall i :: 1 <= i < |rows| ==> rows[i] == rows[1..][i - 1];
      (if keep(rows[0]) then [rows[0]] else []) + Select(rows[1..], keep)
  }

  /** Filtering keeps the table order: the selected keys still grow. */
  lemma {:induction false} SelectKeepsOrder<T>(rows: seq<Row<T>>, keep: Row<T> -> bool)
    requires KeysIncreasing(rows)
    ensures KeysIncreasing(Select(rows, keep))
  {
    if rows != [] {
      var rest := rows[1..];
      assert KeysIncreasing(rest);
      SelectKeepsOrder(rest, keep);
      var tail := Select(rest, keep);
      forall j | 0 <= j < |tail|
        ensures rows[0].id < tail[j].id
      {
        var k :| 0 <= k < |rest| && rest[k] == tail[j];
        assert rest[k] == rows[k + 1];
      }
      if keep(rows[0]) {
        ConsIncreasing(rows[0], tail);
      }
    }
  }

  lemma ConsIncreasing<T>(x: Row<T>, tail: seq<Row<T>>)
    requires KeysIncreasing(tail)
    requires forall j :: 0 <= j < |tail| ==> x.id < tail[j].id
    ensures KeysIncreasing([x] + tail)
  {
    var all := [x] + tail;
    forall i, j | 0 <= i < j < |all|
      ensures all[i].id < all[j].id
    {
      assert all[j] == tail[j - 1];
      if i > 0 {
        assert all[i] == tail[i - 1];
      }
    }
  }

  /** The keys of the rows, in table order. */
  function Ids<T>(rows: seq<Row<T>>): (r: seq<nat>)
    ensures |r| == |rows| && forall i :: 0 <= i < |rows| ==> r[i] == rows[i].id
  {
    seq(|rows|, i requires 0 <= i < |rows| => rows[i].id)
  }

  /** The records of the rows, in table order. */
  function Records<T>(rows: seq<Row<T>>): (r: seq<T>)
    ensures |r| == |rows| && forall i :: 0 <= i < |rows| ==> r[i] == rows[i].value
  {
    seq(|rows|, i requires 0 <= i < |rows| => rows[i].value)
  }

  function Min(a: int, b: int): int {
    if a <= b then a else b
  }

  /** `.offset(skip).limit(limit)`: the window of at most `limit` entries
      starting at position `skip`. */
  function Page<T>(xs: seq<T>, skip: nat, limit: nat): (r: seq<T>)
    ensures |r| == if skip >= |xs| then 0 else Min(limit, |xs| - skip)
    ensures forall i :: 0 <= i < |r| ==> skip + i < |xs| && r[i] == xs[skip + i]
  {
    if skip >= |xs| then [] else xs[skip..Min(skip + limit, |xs|)]
  }

  /** Consecutive pages tile the list: the page of `a` entries followed by
      the next page of `b` entries is the page of `a + b` entries. */
  lemma PagesAdjoin<T>(xs: seq<T>, skip: nat, a: nat, b: nat)
    ensures Page(xs, skip, a) + Page(xs, skip + a, b) == Page(xs, skip, a + b)
  {
    var p, q, whole := Page(xs, skip, a), Page(xs, skip + a, b), Page(xs, skip, a + b);
    assert |p + q| == |whole|;
    forall i | 0 <= i < |whole|
      ensures (p + q)[i] == whole[i]
    {
      if i >= |p| {
        assert (p + q)[i] == q[i - |p|];
      }
    }
  }

  /** A first page at least as long as the list is the whole list. */
  lemma WholePage<T>(xs: seq<T>, limit: nat)
    requires |xs| <= limit
    ensures Page(xs, 0, limit) == xs
  {
  }

  // ---------------------------------------------------------------------
  // Unique names

  /** No two rows share a key under `key` (an owner and a name, say). */
  predicate UniqueBy<T, K(==)>(rows: seq<Row<T>>, key: T -> K) {
    forall i, j :: 0 <= i < j < |rows| ==> key(rows[i].value) != key(rows[j].value)
  }

  /** Some row other than the one with key `except` has key `k`: what the
      duplicate-name queries look for. */
  predicate Taken<T, K(==)>(rows: seq<Row<T>>, key: T -> K, k: K, except: Option<nat>) {
    exists i :: 0 <= i < |rows| && key(rows[i].value) == k && (except.None? || rows[i].id != except.value)
  }

  /** Appending a record whose key is not taken keeps the keys unique. */
  lemma AppendUnique<T, K>(rows: seq<Row<T>>, key: T -> K, row: Row<T>)
    requires UniqueBy(rows, key) && !Taken(rows, key, key(row.value), None)
    ensures UniqueBy(rows + [row], key)
  {
    var r := rows + [row];
    forall i, j | 0 <= i < j < |r|
      ensures key(r[i].value) != key(r[j].value)
    {
      if j == |rows| {
        assert r[i] == rows[i];
      }
    }
  }

  /** Replacing a row's record keeps the keys unique when the new key is
      the old one or is not taken by another row. */
  lemma ReplaceUnique<T, K>(rows: seq<Row<T>>, key: T -> K, k: nat, v: T)
    requires UniqueBy(rows, key) && KeysIncreasing(rows) && k < |rows|
    requires key(v) == key(rows[k].value) || !Taken(rows, key, key(v), Some(rows[k].id))
    ensures UniqueBy(rows[k := Row(rows[k].id, v)], key)
  {
    var r := rows[k := Row(rows[k].id, v)];
    forall i, j | 0 <= i < j < |r|
      ensures key(r[i].value) != key(r[j].value)
    {
      if i == k {
        assert rows[j].id != rows[k].id;
      } else if j == k {
        assert rows[i].id != rows[k].id;
      }
    }
  }

  /** Appending a row with a fresh key keeps the table well keyed. */
  lemma AppendKeyed<T>(rows: seq<Row<T>>, next: nat, v: T)
    requires WellKeyed(rows, next)
    ensures WellKeyed(rows + [Row(next, v)], next + 1)
  {
  }

  /** Replacing a row's record under its own key keeps the table well keyed. */
  lemma ReplaceKeyed<T>(rows: seq<Row<T>>, next: nat, k: nat, v: T)
    requires WellKeyed(rows, next) && k < |rows|
    ensures WellKeyed(rows[k := Row(rows[k].id, v)], next)
  {
  }

  /** The table without the row at position `k` (a `session.delete`). */
  function Removed<T>(rows: seq<Row<T>>, k: nat): (r: seq<Row<T>>)
    requires k < |rows|
    ensures |r| == |rows| - 1
    ensures forall i :: 0 <= i < |r| ==> r[i] == if i < k then rows[i] else rows[i + 1]
  {
    rows[..k] + rows[k + 1..]
  }

  /** Removing a row keeps the table well keyed. */
  lemma RemoveKeyed<T>(rows: seq<Row<T>>, next: nat, k: nat)
    requires WellKeyed(rows, next) && k < |rows|
    ensures WellKeyed(Removed(rows, k), next)
  {
  }

  /** Removing a row drops exactly that row: its key is gone and every
      other row is still there. */
  lemma RemovedGone<T>(rows: seq<Row<T>>, k: nat)
    requires KeysIncreasing(rows) && k < |rows|
    ensures forall i :: 0 <= i < |rows| - 1 ==> Removed(rows, k)[i].id != rows[k].id
    ensures forall i :: 0 <= i < |rows| && i != k ==> rows[i] in Removed(rows, k)
  {
    var r := Removed(rows, k);
    forall i | 0 <= i < |rows| && i != k
      ensures rows[i] in r
    {
      if i < k {
        assert r[i] == rows[i];
      } else {
        assert r[i - 1] == rows[i];
      }
    }
  }

  // ---------------------------------------------------------------------
  // The rename guard

  /** The guard in front of the rename check of both update handlers, as
      written: `update.name and update.name != current.name`. An empty new
      name is falsy and skips the check. */
  predicate RenameCheckedAsWritten(newName: Option<string>, current: string) {
    newName.Some? && newName.value != "" && newName.value != current
  }

  /** The guard as intended: every supplied name that differs from the
      current one is checked. */
  predicate RenameChecked(newName: Option<string>, current: string) {
    newName.Some? && newName.value != current
  }

  /** The two guards disagree exactly when a non-empty name is renamed to
      the empty one. */
  lemma RenameGuardsDiffer(newName: Option<string>, current: string)
    ensures RenameChecked(newName, current) != RenameCheckedAsWritten(newName, current)
            <==> newName == Some("") && current != ""
  {
  }

  // ---------------------------------------------------------------------
  // The database

  /** Owner and name: unique among brands. */
  function BrandKey(b: Brand): (nat, string) {
    (b.ownerId, b.name)
  }

  /** Brand and name: unique among campaigns. */
  function CampaignKey(c: Campaign): (nat, string) {
    (c.brandId, c.name)
  }

  class Database {
    var brands: seq<Row<Brand>>
    var campaigns: seq<Row<Campaign>>
    var pieces: seq<Row<ContentPiece>>
    var materials: seq<Row<ReferenceMaterial>>
    var nextBrand: nat
    var nextCampaign: nat
    var nextPiece: nat
    var nextMaterial: nat

    /** Every table is well keyed, no owner has two brands of one name and
        no brand has two campaigns of one name. */
    predicate Valid()
      reads this
    {
      && WellKeyed(brands, nextBrand) && WellKeyed(campaigns, nextCampaign)
      && WellKeyed(pieces, nextPiece) && WellKeyed(materials, nextMaterial)
      && UniqueBy(brands, BrandKey) && UniqueBy(campaigns, CampaignKey)
    }

    /** An empty database; keys start at 1. */
    constructor()
      ensures Valid()
      ensures brands == [] && campaigns == [] && pieces == [] && materials == []
    {
      brands, campaigns, pieces, materials := [], [], [], [];
      nextBrand, nextCampaign, nextPiece, nextMaterial := 1, 1, 1, 1;
    }
  }
}
