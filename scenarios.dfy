/**
 * Sequences of requests a client of the API makes, with what the handlers'
 * contracts promise about the second answer given the first.
 */
module Scenarios {
  import opened Wrappers
  import opened Json
  import opened Http
  import opened Models
  import opened Tables
  import opened Joins
  import opened Orphans
  import opened Catalogue
  import PR = ProductResource
  import MR = ManufacturerResource

  /** A manufacturer just created is shown under the next id with the posted name, image and description. */
  method CreateThenShowManufacturer(store: Store, json: Option<Value>) returns (created: Response, shown: Response)
    requires store.Valid()
    modifies store
    ensures created.status == Created ==>
              && json.Some? && json.value.Obj? && {"name", "image", "description"} <= json.value.fields.Keys
              && var f := json.value.fields;
              && shown == Response(OK, MR.ManufacturerPage(
                   Manufacturer(NextRowId(old(store.manufacturers), ManufacturerKey), f["name"], f["image"], f["description"]),
                   store.products))
  {
    ghost var before := store.manufacturers;
    var id := NextRowId(store.manufacturers, ManufacturerKey);
    created := MR.Post(store, json);
    if created.status == Created {
      AppendAscending(before, ManufacturerKey, store.manufacturers[|before|]);
      IndexOfUnique(store.manufacturers, ManufacturerKey, |before|);
    }
    shown := MR.GetItem(store, id);
  }

  /** After a product is deleted its page is not found and no join row points at it. */
  method DeleteThenShowProduct(store: Store, id: int, form: Option<string>) returns (deleted: Response, shown: Response)
    requires store.Valid()
    modifies store
    ensures deleted.status == OK ==> shown == Message(NotFound, "Product_item not found")
    ensures deleted.status == OK ==> RowsOf(store.productOptions, id) == []
  {
    deleted := PR.Delete(store, id);
    if deleted.status == OK {
      var i := IndexOf(old(store.products), ProductKey, id).value;
      RemoveAtSpec(old(store.products), ProductKey, i);
    }
    shown := PR.GetItem(store, id, form);
  }

  /**
   * Deleting a manufacturer leaves its products in place with no
   * manufacturer, so showing any of them then fails with a server error.
   */
  method DeleteManufacturerThenShowProduct(store: Store, mid: int, k: nat, form: Option<string>)
    returns (deleted: Response, shown: Response)
    requires store.Valid() && k < |store.products| && store.products[k].manufacturerId == Int(mid)
    modifies store
    ensures deleted.status == OK ==> shown == Empty(ServerError)
  {
    ghost var before := store.products;
    var pid := store.products[k].productId;
    deleted := MR.Delete(store, mid);
    if deleted.status == OK {
      DetachProductsSpec(before, mid);
      assert store.products[k].productId == pid;
      IndexOfUnique(store.products, ProductKey, k);
      assert store.products[k].manufacturerId == Null;
    }
    shown := PR.GetItem(store, pid, form);
  }
}
