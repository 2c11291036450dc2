/**
 * What the ORM does to the rows that refer to a deleted row. None of the
 * relationships in ecomsync/models.py cascades deletes, so on a delete
 * SQLAlchemy sets the foreign key of every referring row to NULL and keeps
 * the row.
 */
module Orphans {
  import opened Json
  import opened Models
  import opened Tables

  /** Deleting product `pid` clears `product_id` in its orders. */
  function DetachOrders(orders: seq<Order>, pid: int): (r: seq<Order>)
    ensures |r| == |orders|
  {
    seq(|orders|, i requires 0 <= i < |orders| =>
      if orders[i].productId == Int(pid) then orders[i].(productId := Null) else orders[i])
  }

  /** Deleting manufacturer `mid` clears `manufacturer_id` in its products. */
  function DetachProducts(products: seq<Product>, mid: int): (r: seq<Product>)
    ensures |r| == |products|
  {
    seq(|products|, i requires 0 <= i < |products| =>
      if products[i].manufacturerId == Int(mid) then products[i].(manufacturerId := Null) else products[i])
  }

  /** Deleting option `oid` clears `option_id` in the join rows that named it. */
  function DetachJoinRows(rows: seq<ProductOption>, oid: int): (r: seq<ProductOption>)
    ensures |r| == |rows|
  {
    seq(|rows|, i requires 0 <= i < |rows| =>
      if rows[i].optionId == Int(oid) then rows[i].(optionId := Null) else rows[i])
  }

  /** No order refers to the deleted product any more; every other column of every order is kept. */
  lemma DetachOrdersSpec(orders: seq<Order>, pid: int)
    requires Ascending(orders, OrderKey)
    ensures Ascending(DetachOrders(orders, pid), OrderKey)
    ensures forall o :: o in DetachOrders(orders, pid) ==> o.productId != Int(pid)
    ensures forall i :: 0 <= i < |orders| ==>
              DetachOrders(orders, pid)[i] == orders[i].(productId := DetachOrders(orders, pid)[i].productId)
    ensures forall i :: 0 <= i < |orders| && orders[i].productId != Int(pid) ==> DetachOrders(orders, pid)[i] == orders[i]
  {
    var r := DetachOrders(orders, pid);
    forall a, b | 0 <= a < b < |r| ensures OrderKey(r[a]) < OrderKey(r[b]) {
      assert OrderKey(r[a]) == OrderKey(orders[a]) && OrderKey(r[b]) == OrderKey(orders[b]);
    }
  }

  /** No product refers to the deleted manufacturer any more; every other column is kept. */
  lemma DetachProductsSpec(products: seq<Product>, mid: int)
    requires Ascending(products, ProductKey)
    ensures Ascending(DetachProducts(products, mid), ProductKey)
    ensures forall p :: p in DetachProducts(products, mid) ==> p.manufacturerId != Int(mid)
    ensures forall i :: 0 <= i < |products| ==>
              DetachProducts(products, mid)[i] == products[i].(manufacturerId := DetachProducts(products, mid)[i].manufacturerId)
    ensures forall i :: 0 <= i < |products| && products[i].manufacturerId != Int(mid) ==> DetachProducts(products, mid)[i] == products[i]
  {
    var r := DetachProducts(products, mid);
    forall a, b | 0 <= a < b < |r| ensures ProductKey(r[a]) < ProductKey(r[b]) {
      assert ProductKey(r[a]) == ProductKey(products[a]) && ProductKey(r[b]) == ProductKey(products[b]);
    }
  }

  /** No join row names the deleted option any more; every join row is kept with its product. */
  lemma DetachJoinRowsSpec(rows: seq<ProductOption>, oid: int)
    requires Ascending(rows, ProductOptionKey)
    ensures Ascending(DetachJoinRows(rows, oid), ProductOptionKey)
    ensures forall x :: x in DetachJoinRows(rows, oid) ==> x.optionId != Int(oid)
    ensures forall i :: 0 <= i < |rows| ==>
              DetachJoinRows(rows, oid)[i] == rows[i].(optionId := DetachJoinRows(rows, oid)[i].optionId)
    ensures forall i :: 0 <= i < |rows| && rows[i].optionId != Int(oid) ==> DetachJoinRows(rows, oid)[i] == rows[i]
  {
    var r := DetachJoinRows(rows, oid);
    forall a, b | 0 <= a < b < |r| ensures ProductOptionKey(r[a]) < ProductOptionKey(r[b]) {
      assert ProductOptionKey(r[a]) == ProductOptionKey(rows[a]) && ProductOptionKey(r[b]) == ProductOptionKey(rows[b]);
    }
  }
}
