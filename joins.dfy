/**
 * Queries over the ProductOption join table that the product handlers issue
 * (ecomsync/resources/product.py): the rows of one product, the options a
 * product reaches through them, and the table after rows are deleted or
 * appended.
 */
module Joins {
  import opened Json
  import opened Models
  import opened Tables

  /** `ProductOption.query.filter_by(product_id=pid).all()`, in table order. */
  function RowsOf(rows: seq<ProductOption>, pid: int): (r: seq<ProductOption>)
    ensures forall x :: x in r <==> x in rows && x.productId == pid
    ensures (forall x :: x in rows ==> x.productId != pid) ==> r == []
  {
    if rows == [] then []
    else (if rows[0].productId == pid then [rows[0]] else []) + RowsOf(rows[1..], pid)
  }

  /** The join table once every row of product `pid` is gone; the other rows keep their order. */
  function DropRowsOf(rows: seq<ProductOption>, pid: int): (r: seq<ProductOption>)
    ensures forall x :: x in r <==> x in rows && x.productId != pid
  {
    if rows == [] then []
    else (if rows[0].productId != pid then [rows[0]] else []) + DropRowsOf(rows[1..], pid)
  }

  /** The join table without the rows whose primary key is in `ids`. */
  function WithoutIds(rows: seq<ProductOption>, ids: set<int>): (r: seq<ProductOption>)
    ensures forall x :: x in r <==> x in rows && x.productOptionId !in ids
  {
    if rows == [] then []
    else (if rows[0].productOptionId !in ids then [rows[0]] else []) + WithoutIds(rows[1..], ids)
  }

  /** The primary keys of some join rows. */
  function IdSet(rows: seq<ProductOption>): set<int> {
    set r | r in rows :: r.productOptionId
  }

  /** Deleting no keys changes nothing. */
  lemma {:induction false} WithoutNoIds(rows: seq<ProductOption>)
    ensures WithoutIds(rows, {}) == rows
  {
    if rows != [] {
      WithoutNoIds(rows[1..]);
      assert rows == [rows[0]] + rows[1..];
    }
  }

  /** Loop steps over the returned rows: nothing deleted yet, one more key deleted, all deleted. */
  lemma IdSetStart(rows: seq<ProductOption>, linked: seq<ProductOption>)
    ensures rows == WithoutIds(rows, IdSet(linked[..0]))
  {
    assert IdSet(linked[..0]) == {};
    WithoutNoIds(rows);
  }

  lemma IdSetStep(linked: seq<ProductOption>, k: nat)
    requires k < |linked|
    ensures IdSet(linked[..k + 1]) == IdSet(linked[..k]) + {linked[k].productOptionId}
  {
    assert linked[..k + 1] == linked[..k] + [linked[k]];
  }

  lemma IdSetEnd(rows: seq<ProductOption>, pid: int, linked: seq<ProductOption>, k: nat)
    requires Ascending(rows, ProductOptionKey) && linked == RowsOf(rows, pid) && k == |linked|
    ensures WithoutIds(rows, IdSet(linked[..k])) == DropRowsOf(rows, pid)
    ensures Ascending(DropRowsOf(rows, pid), ProductOptionKey)
  {
    assert linked[..k] == linked;
    DeleteQueriedRows(rows, pid);
    DropRowsOfAscending(rows, pid);
  }

  /** Deleting rows one key at a time is deleting all those keys at once. */
  lemma {:induction false} WithoutIdsAccumulate(rows: seq<ProductOption>, s: set<int>, t: set<int>)
    ensures WithoutIds(WithoutIds(rows, s), t) == WithoutIds(rows, s + t)
  {
    if rows != [] {
      WithoutIdsAccumulate(rows[1..], s, t);
      var head := if rows[0].productOptionId !in s then [rows[0]] else [];
      assert WithoutIds(rows, s) == head + WithoutIds(rows[1..], s);
      WithoutIdsConcat(head, WithoutIds(rows[1..], s), t);
    }
  }

  lemma {:induction false} WithoutIdsConcat(a: seq<ProductOption>, b: seq<ProductOption>, ids: set<int>)
    ensures WithoutIds(a + b, ids) == WithoutIds(a, ids) + WithoutIds(b, ids)
  {
    if a == [] {
      assert a + b == b;
    } else {
      assert (a + b)[1..] == a[1..] + b;
      WithoutIdsConcat(a[1..], b, ids);
    }
  }

  /** Removing by key the rows `keep` rejects, when keys decide `keep`, is `DropRowsOf`. */
  lemma {:induction false} WithoutIdsIsDrop(rows: seq<ProductOption>, ids: set<int>, pid: int)
    requires forall x :: x in rows ==> (x.productOptionId in ids <==> x.productId == pid)
    ensures WithoutIds(rows, ids) == DropRowsOf(rows, pid)
  {
    if rows != [] {
      assert rows[0] in rows;
      forall x | x in rows[1..] ensures x in rows { }
      WithoutIdsIsDrop(rows[1..], ids, pid);
    }
  }

  /**
   * Deleting, by primary key, every row the product's query returned leaves
   * exactly the rows of other products.
   */
  lemma DeleteQueriedRows(rows: seq<ProductOption>, pid: int)
    requires Ascending(rows, ProductOptionKey)
    ensures WithoutIds(rows, IdSet(RowsOf(rows, pid))) == DropRowsOf(rows, pid)
  {
    var ids := IdSet(RowsOf(rows, pid));
    forall x | x in rows ensures x.productOptionId in ids <==> x.productId == pid {
      if x.productOptionId in ids {
        var y :| y in RowsOf(rows, pid) && y.productOptionId == x.productOptionId;
        var i :| 0 <= i < |rows| && rows[i] == x;
        var j :| 0 <= j < |rows| && rows[j] == y;
        assert i == j;
      }
    }
    WithoutIdsIsDrop(rows, ids, pid);
  }

  /** A sub-table of a table with ascending keys has ascending keys. */
  lemma {:induction false} DropRowsOfAscending(rows: seq<ProductOption>, pid: int)
    requires Ascending(rows, ProductOptionKey)
    ensures Ascending(DropRowsOf(rows, pid), ProductOptionKey)
  {
    if rows != [] {
      DropRowsOfAscending(rows[1..], pid);
      var rest := DropRowsOf(rows[1..], pid);
      forall x | x in rest ensures rows[0].productOptionId < x.productOptionId {
        var k :| 1 <= k < |rows| && rows[k] == x;
      }
    }
  }

  /** The join rows `POST /product/` adds: one per selected option, in list order, with consecutive keys. */
  function JoinRows(start: int, pid: int, optionIds: seq<Value>): (r: seq<ProductOption>)
    ensures |r| == |optionIds|
    ensures forall i :: 0 <= i < |r| ==> r[i] == ProductOption(start + i, pid, optionIds[i])
  {
    seq(|optionIds|, i requires 0 <= i < |optionIds| => ProductOption(start + i, pid, optionIds[i]))
  }

  /** Adding the row for one more selected option extends the added rows by that row. */
  lemma JoinRowsSnoc(rows: seq<ProductOption>, start: int, pid: int, optionIds: seq<Value>, i: nat)
    requires i < |optionIds|
    ensures rows + JoinRows(start, pid, optionIds[..i + 1])
            == (rows + JoinRows(start, pid, optionIds[..i])) + [ProductOption(start + i, pid, optionIds[i])]
  {
    var a := rows + JoinRows(start, pid, optionIds[..i + 1]);
    var b := (rows + JoinRows(start, pid, optionIds[..i])) + [ProductOption(start + i, pid, optionIds[i])];
    assert |a| == |b|;
    forall k | 0 <= k < |a| ensures a[k] == b[k] {
      if k >= |rows| {
        assert a[k] == JoinRows(start, pid, optionIds[..i + 1])[k - |rows|];
      }
    }
  }

  /**
   * The rows added after the last one keep the table's keys ascending, all
   * belong to `pid`, and the next key follows the last added one.
   */
  lemma JoinRowsAppend(rows: seq<ProductOption>, pid: int, optionIds: seq<Value>)
    requires Ascending(rows, ProductOptionKey)
    ensures Ascending(rows + JoinRows(NextRowId(rows, ProductOptionKey), pid, optionIds), ProductOptionKey)
    ensures RowsOf(JoinRows(NextRowId(rows, ProductOptionKey), pid, optionIds), pid)
            == JoinRows(NextRowId(rows, ProductOptionKey), pid, optionIds)
    ensures NextRowId(rows + JoinRows(NextRowId(rows, ProductOptionKey), pid, optionIds), ProductOptionKey)
            == NextRowId(rows, ProductOptionKey) + |optionIds|
  {
    var start := NextRowId(rows, ProductOptionKey);
    var added := JoinRows(start, pid, optionIds);
    var t := rows + added;
    forall a, b | 0 <= a < b < |t| ensures ProductOptionKey(t[a]) < ProductOptionKey(t[b]) {
      if b >= |rows| {
        assert t[b] == added[b - |rows|];
        if a >= |rows| { assert t[a] == added[a - |rows|]; }
      }
    }
    RowsOfAll(added, pid);
  }

  /** After some join rows were added, the next key is the one after the last added. */
  lemma NextJoinRowId(rows: seq<ProductOption>, pid: int, optionIds: seq<Value>)
    requires Ascending(rows, ProductOptionKey)
    ensures Ascending(rows + JoinRows(NextRowId(rows, ProductOptionKey), pid, optionIds), ProductOptionKey)
    ensures NextRowId(rows + JoinRows(NextRowId(rows, ProductOptionKey), pid, optionIds), ProductOptionKey)
            == NextRowId(rows, ProductOptionKey) + |optionIds|
  {
    JoinRowsAppend(rows, pid, optionIds);
  }

  lemma {:induction false} RowsOfAll(rows: seq<ProductOption>, pid: int)
    requires forall i :: 0 <= i < |rows| ==> rows[i].productId == pid
    ensures RowsOf(rows, pid) == rows
  {
    if rows != [] {
      RowsOfAll(rows[1..], pid);
    }
  }

  /** The options whose id is `v`: at most one when option ids are unique. */
  function OptionsWithId(options: seq<Options>, v: Value): (r: seq<Options>)
    ensures forall o :: o in r <==> o in options && Int(o.optionId) == v
  {
    if options == [] then []
    else (if Int(options[0].optionId) == v then [options[0]] else []) + OptionsWithId(options[1..], v)
  }

  /**
   * The inner join of Options with ProductOption filtered by product id, as
   * SQL returns it: one option per matching join row, in join-row order.
   */
  function JoinedOptions(options: seq<Options>, rows: seq<ProductOption>, pid: int): seq<Options>
  {
    if rows == [] then []
    else (if rows[0].productId == pid then OptionsWithId(options, rows[0].optionId) else [])
         + JoinedOptions(options, rows[1..], pid)
  }

  /** The joined rows hold an option exactly when some join row of that product points at it. */
  lemma {:induction false} JoinedOptionsSpec(options: seq<Options>, rows: seq<ProductOption>, pid: int, o: Options)
    ensures o in JoinedOptions(options, rows, pid) <==>
            o in options && exists r :: r in rows && r.productId == pid && r.optionId == Int(o.optionId)
  {
    if rows != [] {
      JoinedOptionsSpec(options, rows[1..], pid, o);
      if o in options && exists r :: r in rows && r.productId == pid && r.optionId == Int(o.optionId) {
        var r :| r in rows && r.productId == pid && r.optionId == Int(o.optionId);
        if r != rows[0] {
          assert r in rows[1..];
        }
      }
    }
  }

  /** No option appears twice. */
  predicate NoRepeats(s: seq<Options>) {
    forall i, j :: 0 <= i < j < |s| ==> s[i] != s[j]
  }

  /**
   * The ORM's uniquing of a query over one entity: each option is kept at
   * its first occurrence and later repeats are dropped.
   */
  function FirstOccurrences(s: seq<Options>): (r: seq<Options>)
    ensures forall x :: x in r <==> x in s
    ensures NoRepeats(r)
    ensures |r| <= |s|
  {
    if s == [] then []
    else
      var init, last := s[..|s| - 1], s[|s| - 1];
      assert s == init + [last];
      if last in init then FirstOccurrences(init) else FirstOccurrences(init) + [last]
  }

  /** Options that already appear only once are kept as they are, in order. */
  lemma {:induction false} FirstOccurrencesOfDistinct(s: seq<Options>)
    requires NoRepeats(s)
    ensures FirstOccurrences(s) == s
  {
    if s != [] {
      var init := s[..|s| - 1];
      assert s == init + [s[|s| - 1]];
      FirstOccurrencesOfDistinct(init);
      assert s[|s| - 1] !in init by {
        forall k | 0 <= k < |init| ensures init[k] != s[|s| - 1] {
          assert s[k] == init[k];
        }
      }
    }
  }

  /**
   * `Options.query.join(ProductOption, ...).filter(...).all()`: the joined
   * options once each, in the order of their first matching join row.
   */
  function OptionsOfProduct(options: seq<Options>, rows: seq<ProductOption>, pid: int): (r: seq<Options>)
    ensures NoRepeats(r)
  {
    FirstOccurrences(JoinedOptions(options, rows, pid))
  }

  /** An option is listed for a product exactly when some join row of that product points at it. */
  lemma OptionsOfProductSpec(options: seq<Options>, rows: seq<ProductOption>, pid: int, o: Options)
    ensures o in OptionsOfProduct(options, rows, pid) <==>
            o in options && exists r :: r in rows && r.productId == pid && r.optionId == Int(o.optionId)
  {
    JoinedOptionsSpec(options, rows, pid, o);
  }
}
