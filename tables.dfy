/**
 * Database tables as sequences of rows in rowid order, which is the order an
 * unordered query returns them in, and the row-level operations the handlers
 * use: lookup of the first match (`filter_by(...).first()`), the id SQLite
 * gives a new row, deletion and in-place update of one row.
 */
module Tables {
  import opened Wrappers

  /** Primary keys strictly increase along the table, so they are unique. */
  ghost predicate Ascending<T>(t: seq<T>, key: T -> int) {
    forall i, j :: 0 <= i < j < |t| ==> key(t[i]) < key(t[j])
  }

  /** The position of the first row whose `key` is `k`, as `filter_by(...).first()` finds it. */
  function IndexOf<T, K(==)>(t: seq<T>, key: T -> K, k: K): (r: Option<nat>)
    ensures r.Some? ==> r.value < |t| && key(t[r.value]) == k
    ensures r.Some? ==> forall j :: 0 <= j < r.value ==> key(t[j]) != k
    ensures r.None? <==> forall j :: 0 <= j < |t| ==> key(t[j]) != k
  {
    if |t| == 0 then None
    else if key(t[0]) == k then Some(0)
    else match IndexOf(t[1..], key, k)
      case Some(i) => Some(i + 1)
      case None => None
  }

  /** With unique keys the first match is the only one. */
  lemma IndexOfUnique<T>(t: seq<T>, key: T -> int, i: nat)
    requires Ascending(t, key) && i < |t|
    ensures IndexOf(t, key, key(t[i])) == Some(i)
  {
  }

  /**
   * The id SQLite assigns to an inserted row of a table whose integer key is
   * its rowid: one more than the largest id, or 1 in an empty table.
   */
  function NextRowId<T>(t: seq<T>, key: T -> int): (r: int)
    requires Ascending(t, key)
    ensures forall i :: 0 <= i < |t| ==> key(t[i]) < r
    ensures t == [] ==> r == 1
    ensures t != [] ==> exists i :: 0 <= i < |t| && key(t[i]) == r - 1
  {
    if t == [] then 1 else key(t[|t| - 1]) + 1
  }

  /** Appending the row SQLite would insert keeps the keys ascending. */
  lemma AppendAscending<T>(t: seq<T>, key: T -> int, x: T)
    requires Ascending(t, key) && key(x) >= NextRowId(t, key)
    ensures Ascending(t + [x], key)
  {
  }

  /** The table without its `i`-th row; the other rows keep their order. */
  function RemoveAt<T>(t: seq<T>, i: nat): (r: seq<T>)
    requires i < |t|
    ensures |r| == |t| - 1
    ensures forall j :: 0 <= j < i ==> r[j] == t[j]
    ensures forall j :: i <= j < |r| ==> r[j] == t[j + 1]
  {
    t[..i] + t[i + 1..]
  }

  /** Deleting a row keeps the keys ascending, and the deleted key is no longer found. */
  lemma RemoveAtSpec<T>(t: seq<T>, key: T -> int, i: nat)
    requires Ascending(t, key) && i < |t|
    ensures Ascending(RemoveAt(t, i), key)
    ensures IndexOf(RemoveAt(t, i), key, key(t[i])).None?
    ensures forall x :: x in RemoveAt(t, i) <==> exists j :: 0 <= j < |t| && j != i && t[j] == x
  {
    var r := RemoveAt(t, i);
    forall a, b | 0 <= a < b < |r| ensures key(r[a]) < key(r[b]) {
      var a', b' := if a < i then a else a + 1, if b < i then b else b + 1;
      assert r[a] == t[a'] && r[b] == t[b'];
    }
    forall j | 0 <= j < |r| ensures key(r[j]) != key(t[i]) {
      if j < i { assert r[j] == t[j]; } else { assert r[j] == t[j + 1]; }
    }
    forall x ensures x in r <==> exists j :: 0 <= j < |t| && j != i && t[j] == x {
      if x in r {
        var j :| 0 <= j < |r| && r[j] == x;
        if j < i { assert t[j] == x; } else { assert t[j + 1] == x; }
      }
      if exists j :: 0 <= j < |t| && j != i && t[j] == x {
        var j :| 0 <= j < |t| && j != i && t[j] == x;
        if j < i { assert r[j] == x; } else { assert r[j - 1] == x; }
      }
    }
  }

  /** Replacing a row by one with the same key keeps the keys ascending. */
  lemma ReplaceAscending<T>(t: seq<T>, key: T -> int, i: nat, x: T)
    requires Ascending(t, key) && i < |t| && key(x) == key(t[i])
    ensures Ascending(t[i := x], key)
  {
  }
}
