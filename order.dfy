/**
 * The order endpoint (ecomsync/resources/order.py): `/api/order/` lists and
 * creates orders.
 */
module OrderResource {
  import opened Wrappers
  import opened Json
  import opened Http
  import opened Models
  import opened Tables
  import opened Platform
  import opened Requests
  import opened Catalogue

  // ---- GET /api/order/ ----

  /** The serialised orders, in table order. */
  function OrderDocs(os: seq<Order>, shortForm: bool): (r: seq<Value>)
    ensures |r| == |os|
  {
    if os == [] then [] else OrderDocs(os[..|os| - 1], shortForm) + [Obj(SerializeOrder(os[|os| - 1], shortForm))]
  }

  /** The document at each position is the serialisation of the order at that position. */
  lemma {:induction false} OrderDocsAt(os: seq<Order>, shortForm: bool, k: nat)
    requires k < |os|
    ensures OrderDocs(os, shortForm)[k] == Obj(SerializeOrder(os[k], shortForm))
  {
    if k < |os| - 1 {
      OrderDocsAt(os[..|os| - 1], shortForm, k);
    }
  }

  /** `get`: every order, in the detailed form unless `form=short`. */
  method List(store: Store, form: Option<string>) returns (resp: Response)
    ensures resp == Response(OK, Obj(map["orders" := Arr(OrderDocs(store.orders, FormIs(form, "long", "short")))]))
  {
    var shortForm := FormIs(form, "long", "short");
    var os := store.orders;
    var docs: seq<Value> := [];
    var i := 0;
    while i < |os|
      invariant 0 <= i <= |os|
      invariant docs == OrderDocs(os[..i], shortForm)
    {
      assert os[..i + 1][..i] == os[..i];
      docs := docs + [Obj(SerializeOrder(os[i], shortForm))];
      i := i + 1;
    }
    assert os[..i] == os;
    resp := Response(OK, Obj(map["orders" := Arr(docs)]));
  }

  // ---- POST /api/order/ ----

  /** The keys `post` reads with `request_data[...]` before the date. */
  const OrderKeys: set<string> :=
    {"firstname", "lastname", "email", "telephone", "payment_address_1", "payment_city",
     "payment_postcode", "payment_country", "total"}

  /** Every order is recorded against this product, whatever the request says. */
  const PlacedProduct := 212

  /** Every key is present and the date is a string. */
  predicate OrderReadable(body: Value) {
    body.Obj? && OrderKeys + {"date_added"} <= body.fields.Keys && body.fields["date_added"].Str?
  }

  /** Some column declared NOT NULL would receive a null. */
  predicate NullColumn(f: map<string, Value>)
    requires OrderKeys <= f.Keys
  {
    exists k :: k in OrderKeys && f[k] == Null
  }

  /**
   * The row `post` inserts: a missing key or a non-string date raises
   * (500), a date string that does not parse is a bad request (400), a null
   * in any of the nine NOT NULL columns read from the request is refused
   * (409); otherwise the row holds the posted values, the parsed date and
   * product 212, under the next free id.
   */
  function NewOrder(env: Env, body: Value, id: int): (r: Step<Order>)
    ensures r == Halt(Empty(ServerError)) <==> !OrderReadable(body)
    ensures r == Halt(Empty(BadRequest)) <==>
              OrderReadable(body) && env.fromIsoFormat(body.fields["date_added"].s).None?
    ensures r == Halt(Empty(Conflict)) <==>
              OrderReadable(body) && env.fromIsoFormat(body.fields["date_added"].s).Some? && NullColumn(body.fields)
    ensures r.Proceed? <==>
              OrderReadable(body) && env.fromIsoFormat(body.fields["date_added"].s).Some? && !NullColumn(body.fields)
    ensures r.Proceed? ==>
              && OrderReadable(body) && !NullColumn(body.fields)
              && var f := body.fields;
              && r.value == Order(id, f["firstname"], f["lastname"], f["email"], f["telephone"], Int(PlacedProduct),
                                  f["payment_address_1"], f["payment_city"], f["payment_postcode"], f["payment_country"],
                                  f["total"], env.fromIsoFormat(f["date_added"].s).value)
  {
    if !body.Obj? || !(OrderKeys + {"date_added"} <= body.fields.Keys) then Halt(Empty(ServerError))
    else
      var f := body.fields;
      match ReadDate(env, f["date_added"])
      case Halt(resp) => Halt(resp)
      case Proceed(date) =>
        if NullColumn(f) then Halt(Empty(Conflict))
        else Proceed(Order(id, f["firstname"], f["lastname"], f["email"], f["telephone"], Int(PlacedProduct),
                           f["payment_address_1"], f["payment_city"], f["payment_postcode"], f["payment_country"],
                           f["total"], date))
  }

  /** A `product_id` in the request is ignored: the order depends only on the keys the handler reads. */
  lemma NewOrderIgnoresProductId(env: Env, f: map<string, Value>, v: Value, id: int)
    ensures NewOrder(env, Obj(f["product_id" := v]), id) == NewOrder(env, Obj(f), id)
  {
    var g := f["product_id" := v];
    assert forall k :: k in OrderKeys + {"date_added"} ==> (k in g <==> k in f);
    if OrderKeys + {"date_added"} <= f.Keys {
      assert forall k :: k in OrderKeys + {"date_added"} ==> g[k] == f[k];
    }
  }

  /** The detailed serialisation of a created order gives back the posted contact, address and total. */
  lemma NewOrderSerializes(env: Env, body: Value, id: int)
    requires NewOrder(env, body, id).Proceed?
    ensures var doc, f := SerializeOrder(NewOrder(env, body, id).value, false), body.fields;
            && doc["firstname"] == f["firstname"] && doc["email"] == f["email"] && doc["telephone"] == f["telephone"]
            && doc["payment_address_1"] == f["payment_address_1"] && doc["payment_city"] == f["payment_city"]
            && doc["payment_postcode"] == f["payment_postcode"] && doc["payment_country"] == f["payment_country"]
            && doc["total"] == f["total"]
  {
    SerializeOrderDetails(NewOrder(env, body, id).value);
  }

  /** `post`: 415 unless the request is JSON, then the row above. */
  method Post(store: Store, env: Env, json: Option<Value>) returns (resp: Response)
    requires store.Valid()
    modifies store
    ensures store.Valid()
    ensures store.apiKeys == old(store.apiKeys) && store.manufacturers == old(store.manufacturers)
    ensures store.products == old(store.products) && store.options == old(store.options)
    ensures store.productOptions == old(store.productOptions)
    ensures !JsonRequest(json) ==>
              resp == Message(UnsupportedMediaType, "Request content type must be JSON") && store.orders == old(store.orders)
    ensures JsonRequest(json) ==>
              var step := NewOrder(env, json.value, NextRowId(old(store.orders), OrderKey));
              && (step.Halt? ==> resp == step.response && store.orders == old(store.orders))
              && (step.Proceed? ==>
                    resp == Message(Created, "Order Added Successfully") && store.orders == old(store.orders) + [step.value])
  {
    if !JsonRequest(json) {
      return Message(UnsupportedMediaType, "Request content type must be JSON");
    }
    var step := NewOrder(env, json.value, NextRowId(store.orders, OrderKey));
    if step.Halt? {
      return step.response;
    }
    AppendAscending(store.orders, OrderKey, step.value);
    store.orders := store.orders + [step.value];
    resp := Message(Created, "Order Added Successfully");
  }
}
