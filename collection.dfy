/** What the model needs of a MongoDB collection: rows in natural (insertion)
    order, `findOne` as the first matching row, removal of one row, unique
    indexes, and a filtering sweep. */
module Collection {
  import opened Wrappers

  /** An ObjectId. */
  type Id = nat

  /** Index of the row `findOne` returns: the first one, in natural order,
      that satisfies the query. */
  function FindFirst<T>(rows: seq<T>, matches: T -> bool): (r: Option<nat>)
    ensures r.Some? ==> r.value < |rows| && matches(rows[r.value])
    ensures r.Some? ==> forall j :: 0 <= j < r.value ==> !matches(rows[j])
    ensures r.None? <==> forall j :: 0 <= j < |rows| ==> !matches(rows[j])
  {
    if |rows| == 0 then None
    else if matches(rows[0]) then Some(0)
    else
      match FindFirst(rows[1..], matches)
      case None => None
      case Some(k) => Some(k + 1)
  }

  /** The collection after `remove` of the row at index `i`: every other row
      stays, in the same order. */
  function RemoveAt<T>(rows: seq<T>, i: nat): (r: seq<T>)
    requires i < |rows|
    ensures |r| == |rows| - 1
    ensures forall j :: 0 <= j < i ==> r[j] == rows[j]
    ensures forall j :: i <= j < |r| ==> r[j] == rows[j + 1]
    ensures multiset(r) + multiset{rows[i]} == multiset(rows)
  {
    assert rows == rows[..i] + [rows[i]] + rows[i + 1..];
    rows[..i] + rows[i + 1..]
  }

  /** Two queries that agree on every row find the same row. */
  lemma FindFirstSameQuery<T>(rows: seq<T>, f: T -> bool, g: T -> bool)
    requires forall j :: 0 <= j < |rows| ==> f(rows[j]) == g(rows[j])
    ensures FindFirst(rows, f) == FindFirst(rows, g)
  {
  }

  /** A unique index on `key`: no two rows share a key. */
  ghost predicate Unique<T, K>(rows: seq<T>, key: T -> K) {
    forall i, j :: 0 <= i < j < |rows| ==> key(rows[i]) != key(rows[j])
  }

  /** Some row already has key `k`. */
  predicate Taken<T, K(==)>(rows: seq<T>, key: T -> K, k: K) {
    exists i :: 0 <= i < |rows| && key(rows[i]) == k
  }

  /** Inserting a row whose key is not yet taken keeps the index unique. */
  lemma UniqueAppend<T, K>(rows: seq<T>, key: T -> K, x: T)
    requires Unique(rows, key) && !Taken(rows, key, key(x))
    ensures Unique(rows + [x], key)
  {
  }

  /** Removing a row keeps an index unique. */
  lemma UniqueRemoveAt<T, K>(rows: seq<T>, key: T -> K, i: nat)
    requires i < |rows| && Unique(rows, key)
    ensures Unique(RemoveAt(rows, i), key)
  {
  }

  /** Under a unique index, once the row with key `k` is removed, no row has key `k`. */
  lemma RemovedKeyGone<T, K>(rows: seq<T>, key: T -> K, i: nat)
    requires i < |rows| && Unique(rows, key)
    ensures !Taken(RemoveAt(rows, i), key, key(rows[i]))
  {
  }

  /** The rows that satisfy `keep`, in their order. */
  function Keep<T>(rows: seq<T>, keep: T -> bool): (r: seq<T>)
    ensures |r| <= |rows|
    ensures forall x :: x in r ==> x in rows && keep(x)
    ensures forall x :: x in rows && keep(x) ==> x in r
  {
    if |rows| == 0 then []
    else if keep(rows[0]) then [rows[0]] + Keep(rows[1..], keep)
    else Keep(rows[1..], keep)
  }

  /** A sweep keeps an index unique. */
  lemma {:induction false} UniqueKeep<T, K>(rows: seq<T>, key: T -> K, keep: T -> bool)
    requires Unique(rows, key)
    ensures Unique(Keep(rows, keep), key)
  {
    if |rows| > 0 {
      var rest := rows[1..];
      assert Unique(rest, key) by {
        forall i, j | 0 <= i < j < |rest| ensures key(rest[i]) != key(rest[j]) {
          assert rest[i] == rows[i + 1] && rest[j] == rows[j + 1];
        }
      }
      UniqueKeep(rest, key, keep);
      if keep(rows[0]) {
        var k := Keep(rest, keep);
        forall x | x in k ensures key(x) != key(rows[0]) {
          var m :| 0 <= m < |rest| && rest[m] == x;
          assert rows[m + 1] == x;
        }
        var r := [rows[0]] + k;
        forall i, j | 0 <= i < j < |r| ensures key(r[i]) != key(r[j]) {
          if i == 0 {
            assert r[j] == k[j - 1] && r[j] in k;
          } else {
            assert r[i] == k[i - 1] && r[j] == k[j - 1];
          }
        }
      }
    }
  }
}
