/**
 * The product endpoints (ecomsync/resources/product.py): `/api/product/`
 * lists and creates products, `/api/product/<id>` shows, deletes and
 * updates one. Validation is stated as functions from the request to either
 * the new row or the response that ends the request; the handlers are
 * methods over the `Store`.
 */
module ProductResource {
  import opened Wrappers
  import opened Json
  import opened Http
  import opened Models
  import opened Tables
  import opened Joins
  import opened Orphans
  import opened Routes
  import opened Mason
  import opened Platform
  import opened Requests
  import opened Catalogue

  // ---- GET /api/product/ ----

  /** A product's serialisation holds neither builder section, so it is well formed and a first control can be added to it. */
  lemma NoControlsInProduct(p: Product, detailed: bool)
    ensures "@controls" !in SerializeProduct(p, detailed) && "@namespaces" !in SerializeProduct(p, detailed)
    ensures WellFormed(SerializeProduct(p, detailed))
  {
    forall k | k in SerializeProduct(p, detailed) ensures |k| > 0 && k[0] != '@' {
    }
  }

  /** One listed product: its serialisation plus a `self` link to its own page. */
  function ProductListEntry(p: Product, detailed: bool): (entry: Value)
    ensures entry.Obj?
    ensures entry.fields.Keys == SerializeProduct(p, detailed).Keys + {"@controls"}
    ensures forall k :: k in SerializeProduct(p, detailed) ==> entry.fields[k] == SerializeProduct(p, detailed)[k]
    ensures entry.fields["@controls"] == Obj(map["self" := Obj(map["href" := Str(ProductItemUrl(p.productId))])])
  {
    NoControlsInProduct(p, detailed);
    WithFirstControl(SerializeProduct(p, detailed), "self", ProductItemUrl(p.productId), map[]);
    Obj(WithControl(SerializeProduct(p, detailed), "self", ProductItemUrl(p.productId), map[]))
  }

  /** The entries of the listing, in table order. */
  function ProductEntries(ps: seq<Product>, detailed: bool): (r: seq<Value>)
    ensures |r| == |ps|
  {
    if ps == [] then [] else ProductEntries(ps[..|ps| - 1], detailed) + [ProductListEntry(ps[|ps| - 1], detailed)]
  }

  /** The `k`-th entry of the listing is the `k`-th product's. */
  lemma {:induction false} ProductEntriesAt(ps: seq<Product>, detailed: bool, k: nat)
    requires k < |ps|
    ensures ProductEntries(ps, detailed)[k] == ProductListEntry(ps[k], detailed)
  {
    if k < |ps| - 1 {
      ProductEntriesAt(ps[..|ps| - 1], detailed, k);
    }
  }

  lemma ProductEntriesSnoc(ps: seq<Product>, detailed: bool, i: nat)
    requires i < |ps|
    ensures ProductEntries(ps[..i + 1], detailed) == ProductEntries(ps[..i], detailed) + [ProductListEntry(ps[i], detailed)]
  {
    assert ps[..i + 1][..i] == ps[..i];
  }

  /** The listing: one entry per product, in table order. */
  function ProductListing(products: seq<Product>, detailed: bool): Value {
    Obj(map["products" := Arr(ProductEntries(products, detailed))])
  }

  /** One `MasonBuilder` of the listing loop, built and read back. */
  method BuildListEntry(p: Product, detailed: bool) returns (entry: Value)
    ensures entry == ProductListEntry(p, detailed)
  {
    NoControlsInProduct(p, detailed);
    var item := new MasonBuilder.FromMap(SerializeProduct(p, detailed));
    item.AddControl("self", ProductItemUrl(p.productId), map[]);
    entry := Obj(item.doc);
  }

  /** The detailed form is the default only for `form=long`; the list is built one product at a time. */
  method List(store: Store, form: Option<string>) returns (resp: Response)
    ensures resp == Response(OK, ProductListing(store.products, FormIs(form, "short", "long")))
  {
    var detailed := FormIs(form, "short", "long");
    var products := store.products;
    var entries: seq<Value> := [];
    var i := 0;
    while i < |products|
      invariant 0 <= i <= |products|
      invariant entries == ProductEntries(products[..i], detailed)
    {
      var entry := BuildListEntry(products[i], detailed);
      ProductEntriesSnoc(products, detailed, i);
      entries := entries + [entry];
      i := i + 1;
    }
    assert products[..i] == products;
    resp := Response(OK, Obj(map["products" := Arr(entries)]));
  }

  /** A detailed entry, without its link, decodes to the listed product. */
  lemma ProductListEntryRoundTrip(p: Product)
    ensures DecodeProduct(ProductListEntry(p, true).fields - {"@controls"}) == Some(p)
  {
    assert ProductListEntry(p, true).fields - {"@controls"} == SerializeProduct(p, true);
    ProductRoundTrip(p);
  }

  /** With unique ids, two entries of the listing never link to the same page. */
  lemma ListingLinksDistinct(products: seq<Product>, detailed: bool, i: nat, j: nat)
    requires Ascending(products, ProductKey) && i < j < |products|
    ensures var items := ProductListing(products, detailed).fields["products"].items;
            && |items| == |products|
            && items[i] == ProductListEntry(products[i], detailed) && items[j] == ProductListEntry(products[j], detailed)
            && items[i].fields["@controls"] != items[j].fields["@controls"]
  {
    assert ProductKey(products[i]) < ProductKey(products[j]);
    ProductEntriesAt(products, detailed, i);
    ProductEntriesAt(products, detailed, j);
    var a, b := ProductListEntry(products[i], detailed), ProductListEntry(products[j], detailed);
    if a.fields["@controls"] == b.fields["@controls"] {
      assert a.fields["@controls"].fields["self"].fields["href"] == Str(ProductItemUrl(products[i].productId));
      assert b.fields["@controls"].fields["self"].fields["href"] == Str(ProductItemUrl(products[j].productId));
      ProductItemUrlInjective(products[i].productId, products[j].productId);
    }
  }

  // ---- POST /api/product/ ----

  /** A validated product row with the option ids the request asked to link to it. */
  datatype Draft = Draft(product: Product, selectedOptions: Value)

  /** The keys the handler reads with `request_data[...]`. */
  const PostKeys: set<string> :=
    {"sku", "name", "description", "manufacturerId", "quantity", "image", "price", "width", "selectedOptions", "date_added"}

  function ProductSku(p: Product): Value { p.sku }

  /** `Product.query.filter_by(sku=sku).first()` finds a row (a null `sku` looks for a null one). */
  function SkuTaken(products: seq<Product>, sku: Value): (r: bool)
    ensures r <==> exists j :: 0 <= j < |products| && products[j].sku == sku
  {
    IndexOf(products, ProductSku, sku).Some?
  }

  /** The request names a SKU that some product already has. */
  predicate SkuRejected(body: Value, products: seq<Product>) {
    body.Obj? && "sku" in body.fields && SkuTaken(products, body.fields["sku"])
  }

  /** Every key is present and both `float()` calls succeed. */
  predicate Readable(env: Env, body: Value) {
    && body.Obj? && PostKeys <= body.fields.Keys
    && PyFloat(env.parseFloat, body.fields["price"]).Some?
    && PyFloat(env.parseFloat, body.fields["width"]).Some?
  }

  /**
   * Everything `post` does before the first commit, and that commit's
   * outcome: a taken SKU is refused with 400; a missing key, a failed
   * `float()` or a date that is not a string raises (500); a date string
   * that does not parse is a bad request (400); a null quantity or image
   * violates NOT NULL (409); otherwise the new row holds the posted values
   * under the next free id.
   */
  function ReadNewProduct(env: Env, body: Value, products: seq<Product>, id: int): (r: Step<Draft>)
    ensures r == Halt(Message(BadRequest, "SKU already exists")) <==> SkuRejected(body, products)
    ensures r == Halt(Empty(ServerError)) <==>
              !SkuRejected(body, products) && !(Readable(env, body) && body.fields["date_added"].Str?)
    ensures r == Halt(Empty(BadRequest)) <==>
              && !SkuRejected(body, products) && Readable(env, body) && body.fields["date_added"].Str?
              && env.fromIsoFormat(body.fields["date_added"].s).None?
    ensures r == Halt(Empty(Conflict)) <==>
              && !SkuRejected(body, products) && Readable(env, body)
              && ReadDate(env, body.fields["date_added"]).Proceed?
              && (body.fields["quantity"] == Null || body.fields["image"] == Null)
    ensures r.Proceed? <==> ProductAccepted(env, body, products)
    ensures r.Proceed? ==>
              && Readable(env, body) && !SkuTaken(products, body.fields["sku"])
              && var f, p := body.fields, r.value.product;
              && p.productId == id
              && p.name == f["name"] && p.description == f["description"]
              && p.manufacturerId == f["manufacturerId"] && p.sku == f["sku"]
              && p.quantity == f["quantity"] && p.image == f["image"]
              && PyFloat(env.parseFloat, f["price"]) == Some(p.price)
              && PyFloat(env.parseFloat, f["width"]) == Some(p.width)
              && ReadDate(env, f["date_added"]) == Proceed(p.dateAdded)
              && p.quantity != Null && p.image != Null
              && r.value.selectedOptions == f["selectedOptions"]
  {
    if !body.Obj? || "sku" !in body.fields then Halt(Empty(ServerError))
    else if SkuTaken(products, body.fields["sku"]) then Halt(Message(BadRequest, "SKU already exists"))
    else if !(PostKeys <= body.fields.Keys) then Halt(Empty(ServerError))
    else
      var f := body.fields;
      var price, width := PyFloat(env.parseFloat, f["price"]), PyFloat(env.parseFloat, f["width"]);
      if price.None? || width.None? then Halt(Empty(ServerError))
      else match ReadDate(env, f["date_added"])
        case Halt(resp) => Halt(resp)
        case Proceed(date) =>
          if f["quantity"] == Null || f["image"] == Null then Halt(Empty(Conflict))
          else Proceed(Draft(Product(id, f["name"], f["description"], f["manufacturerId"], f["sku"],
                                     f["quantity"], f["image"], price.value, width.value, date),
                             f["selectedOptions"]))
  }

  /** A request the handler accepts: no taken SKU, every field readable, a date that parses, and no null in a NOT NULL column. */
  predicate ProductAccepted(env: Env, body: Value, products: seq<Product>) {
    && !SkuRejected(body, products) && Readable(env, body)
    && ReadDate(env, body.fields["date_added"]).Proceed?
    && body.fields["quantity"] != Null && body.fields["image"] != Null
  }

  /**
   * Validation as lines 46-98 behave, with the date read as lines 74-78 are
   * written: the outcomes of `ReadNewProduct`, except that a date string
   * that does not parse is a server error.
   */
  function ReadNewProductAsWritten(env: Env, body: Value, products: seq<Product>, id: int): (r: Step<Draft>)
    ensures r == Halt(Message(BadRequest, "SKU already exists")) <==> SkuRejected(body, products)
    ensures r == Halt(Empty(ServerError)) <==>
              !SkuRejected(body, products) && !(Readable(env, body) && ProductDateAsWritten(env, body.fields["date_added"]).Proceed?)
    ensures r.Halt? && r.response.status == BadRequest ==> SkuRejected(body, products)
    ensures r == Halt(Empty(Conflict)) <==>
              && !SkuRejected(body, products) && Readable(env, body)
              && ProductDateAsWritten(env, body.fields["date_added"]).Proceed?
              && (body.fields["quantity"] == Null || body.fields["image"] == Null)
    ensures r.Proceed? <==> ProductAccepted(env, body, products)
    ensures r.Proceed? ==> r == ReadNewProduct(env, body, products, id)
  {
    if !SkuRejected(body, products) && Readable(env, body) then
      match ProductDateAsWritten(env, body.fields["date_added"])
      case Halt(resp) => Halt(resp)
      case Proceed(_) => ReadNewProduct(env, body, products, id)
    else ReadNewProduct(env, body, products, id)
  }

  /** The two readings differ only on a date string that does not parse. */
  lemma ReadNewProductAgrees(env: Env, body: Value, products: seq<Product>, id: int)
    requires !(Readable(env, body) && body.fields["date_added"].Str? && env.fromIsoFormat(body.fields["date_added"].s).None?)
    ensures ReadNewProductAsWritten(env, body, products, id) == ReadNewProduct(env, body, products, id)
  {
  }

  /** A valid request whose date string does not parse: 500 as written, 400 as intended. */
  lemma ReadNewProductFinding(env: Env, body: Value, products: seq<Product>, id: int)
    requires !SkuRejected(body, products) && Readable(env, body)
    requires body.fields["date_added"].Str? && env.fromIsoFormat(body.fields["date_added"].s).None?
    ensures ReadNewProductAsWritten(env, body, products, id) == Halt(Empty(ServerError))
    ensures ReadNewProduct(env, body, products, id) == Halt(Empty(BadRequest))
  {
    ProductDateFinding(env, body.fields["date_added"].s);
  }

  /**
   * Lines 74-78 as written: the `except` clause names jsonschema's
   * ValidationError, which `fromisoformat` never raises, so the ValueError
   * of a malformed date escapes to the framework.
   */
  function ProductDateAsWritten(env: Env, v: Value): (r: Step<Date>)
    ensures r.Proceed? <==> v.Str? && env.fromIsoFormat(v.s).Some?
    ensures r.Halt? ==> r.response == Empty(ServerError)
  {
    if v.Str? && env.fromIsoFormat(v.s).Some? then Proceed(env.fromIsoFormat(v.s).value)
    else Halt(Empty(ServerError))
  }

  /** A date string that does not parse: a server error as written, a bad request as intended. */
  lemma ProductDateFinding(env: Env, s: string)
    requires env.fromIsoFormat(s).None?
    ensures ProductDateAsWritten(env, Str(s)) == Halt(Empty(ServerError))
    ensures ReadDate(env, Str(s)) == Halt(Empty(BadRequest))
  {
  }

  /** No two products share a SKU. */
  ghost predicate DistinctSkus(products: seq<Product>) {
    forall i, j :: 0 <= i < j < |products| ==> products[i].sku != products[j].sku
  }

  /** Creating products never introduces a duplicate SKU. */
  lemma PostKeepsSkusDistinct(env: Env, body: Value, products: seq<Product>, id: int)
    requires DistinctSkus(products) && ReadNewProduct(env, body, products, id).Proceed?
    ensures DistinctSkus(products + [ReadNewProduct(env, body, products, id).value.product])
  {
    var p := ReadNewProduct(env, body, products, id).value.product;
    var t := products + [p];
    forall i, j | 0 <= i < j < |t| ensures t[i].sku != t[j].sku {
      if j == |products| {
        assert t[i] == products[i];
      }
    }
  }

  /**
   * `post`: 415 unless the request is JSON; then the validation above. A
   * valid product is committed on its own, then one join row per element of
   * `selectedOptions` is added in order. When `selectedOptions` cannot be
   * iterated the loop raises after the product was committed: the product
   * stays, without join rows, and the client sees a server error.
   */
  method Post(store: Store, env: Env, json: Option<Value>) returns (resp: Response)
    requires store.Valid()
    modifies store
    ensures store.Valid()
    ensures store.apiKeys == old(store.apiKeys) && store.manufacturers == old(store.manufacturers)
    ensures store.options == old(store.options) && store.orders == old(store.orders)
    ensures !JsonRequest(json) ==>
              && resp == Message(UnsupportedMediaType, "Request content type must be JSON")
              && store.products == old(store.products) && store.productOptions == old(store.productOptions)
    ensures JsonRequest(json) ==>
              var step := ReadNewProduct(env, json.value, old(store.products), NextRowId(old(store.products), ProductKey));
              && (step.Halt? ==>
                    resp == step.response && store.products == old(store.products)
                    && store.productOptions == old(store.productOptions))
              && (step.Proceed? ==> store.products == old(store.products) + [step.value.product])
              && (step.Proceed? && Elements(step.value.selectedOptions).None? ==>
                    resp == Empty(ServerError) && store.productOptions == old(store.productOptions))
              && (step.Proceed? && Elements(step.value.selectedOptions).Some? ==>
                    && resp == Message(Created, "Product Added Successfully")
                    && store.productOptions == old(store.productOptions)
                         + JoinRows(NextRowId(old(store.productOptions), ProductOptionKey),
                                    step.value.product.productId, Elements(step.value.selectedOptions).value))
  {
    if !JsonRequest(json) {
      return Message(UnsupportedMediaType, "Request content type must be JSON");
    }
    var step := ReadNewProduct(env, json.value, store.products, NextRowId(store.products, ProductKey));
    if step.Halt? {
      return step.response;
    }
    var product := step.value.product;
    AppendAscending(store.products, ProductKey, product);
    store.products := store.products + [product];
    var selected := Elements(step.value.selectedOptions);
    if selected.None? {
      return Empty(ServerError);
    }
    AddJoinRows(store, product.productId, selected.value);
    resp := Message(Created, "Product Added Successfully");
  }

  /** The second half of `post`: one join row per selected option, added in order and committed together. */
  method AddJoinRows(store: Store, pid: int, items: seq<Value>)
    requires store.Valid()
    modifies store
    ensures store.Valid()
    ensures store.productOptions == old(store.productOptions)
              + JoinRows(NextRowId(old(store.productOptions), ProductOptionKey), pid, items)
    ensures store.apiKeys == old(store.apiKeys) && store.manufacturers == old(store.manufacturers)
    ensures store.products == old(store.products)
    ensures store.options == old(store.options) && store.orders == old(store.orders)
  {
    var rows := InsertJoinRows(store.productOptions, pid, items);
    store.productOptions := rows;
  }

  /**
   * The session's inserts, in order: each new join row takes the next free
   * key of the table as it stands, so the keys stay ascending.
   */
  method InsertJoinRows(rows: seq<ProductOption>, pid: int, items: seq<Value>) returns (r: seq<ProductOption>)
    requires Ascending(rows, ProductOptionKey)
    ensures r == rows + JoinRows(NextRowId(rows, ProductOptionKey), pid, items)
    ensures Ascending(r, ProductOptionKey)
  {
    var start := NextRowId(rows, ProductOptionKey);
    r := rows;
    var i := 0;
    while i < |items|
      invariant 0 <= i <= |items|
      invariant r == rows + JoinRows(start, pid, items[..i])
    {
      NextJoinRowId(rows, pid, items[..i]);
      var row := ProductOption(NextRowId(r, ProductOptionKey), pid, items[i]);
      JoinRowsSnoc(rows, start, pid, items, i);
      assert r + [row] == rows + JoinRows(start, pid, items[..i + 1]);
      r := r + [row];
      i := i + 1;
    }
    assert items[..i] == items;
    JoinRowsAppend(rows, pid, items);
  }

  // ---- GET /api/product/<id> ----

  /** The entry a product page shows for one of its options. */
  function OptionEntry(o: Options): (entry: Value)
    ensures entry.Obj? && entry.fields.Keys == {"option_id", "option_name", "option_image"}
    ensures entry.fields["option_id"] == Int(o.optionId)
    ensures entry.fields["option_name"] == o.name && entry.fields["option_image"] == o.image
  {
    Obj(map["option_id" := Int(o.optionId), "option_name" := o.name, "option_image" := o.image])
  }

  /** The option entries of a product page, in the order the query returned the options. */
  function OptionEntries(opts: seq<Options>): (r: seq<Value>)
    ensures |r| == |opts|
  {
    if opts == [] then [] else OptionEntries(opts[..|opts| - 1]) + [OptionEntry(opts[|opts| - 1])]
  }

  /** The `k`-th entry shows the `k`-th option. */
  lemma {:induction false} OptionEntriesAt(opts: seq<Options>, k: nat)
    requires k < |opts|
    ensures OptionEntries(opts)[k] == OptionEntry(opts[k])
  {
    if k < |opts| - 1 {
      OptionEntriesAt(opts[..|opts| - 1], k);
    }
  }

  lemma OptionEntriesSnoc(opts: seq<Options>, i: nat)
    requires i < |opts|
    ensures OptionEntries(opts[..i + 1]) == OptionEntries(opts[..i]) + [OptionEntry(opts[i])]
  {
    assert opts[..i + 1][..i] == opts[..i];
  }

  /** The product page: the product's serialisation, its options and its manufacturer's name. */
  function ProductPage(p: Product, opts: seq<Options>, manufacturerName: Value, detailed: bool): (doc: map<string, Value>)
    ensures doc.Keys == SerializeProduct(p, detailed).Keys + {"options", "manufacturer_name"}
    ensures forall k :: k in SerializeProduct(p, detailed) ==> doc[k] == SerializeProduct(p, detailed)[k]
    ensures doc["options"] == Arr(OptionEntries(opts))
    ensures doc["manufacturer_name"] == manufacturerName
  {
    PageKeysAreNew(p, detailed);
    SerializeProduct(p, detailed)["options" := Arr(OptionEntries(opts))]["manufacturer_name" := manufacturerName]
  }

  /** The keys the page adds are not product columns, so they replace nothing. */
  lemma PageKeysAreNew(p: Product, detailed: bool)
    ensures "options" !in SerializeProduct(p, detailed) && "manufacturer_name" !in SerializeProduct(p, detailed)
  {
    forall k | k in SerializeProduct(p, detailed) ensures |k| != 7 && |k| != 17 {
    }
  }

  /** A page lists an option exactly when one of the product's join rows points at it. */
  lemma ProductPageListsLinkedOptions(options: seq<Options>, rows: seq<ProductOption>, p: Product,
                                      manufacturerName: Value, detailed: bool, o: Options)
    ensures OptionEntry(o) in ProductPage(p, OptionsOfProduct(options, rows, p.productId), manufacturerName, detailed)["options"].items
            <==> o in options && exists r :: r in rows && r.productId == p.productId && r.optionId == Int(o.optionId)
  {
    var opts := OptionsOfProduct(options, rows, p.productId);
    var entries := OptionEntries(opts);
    if OptionEntry(o) in entries {
      var k :| 0 <= k < |entries| && entries[k] == OptionEntry(o);
      OptionEntriesAt(opts, k);
      assert opts[k].optionId == o.optionId && opts[k].name == o.name && opts[k].image == o.image;
      assert opts[k] == o;
    }
    if o in opts {
      var k :| 0 <= k < |opts| && opts[k] == o;
      OptionEntriesAt(opts, k);
    }
    OptionsOfProductSpec(options, rows, p.productId, o);
  }

  /** A page never shows an option twice, however many join rows name it. */
  lemma ProductPageOptionsDistinct(options: seq<Options>, rows: seq<ProductOption>, p: Product,
                                   manufacturerName: Value, detailed: bool)
    ensures var items := ProductPage(p, OptionsOfProduct(options, rows, p.productId), manufacturerName, detailed)["options"].items;
            forall i, j :: 0 <= i < j < |items| ==> items[i] != items[j]
  {
    var opts := OptionsOfProduct(options, rows, p.productId);
    var items := OptionEntries(opts);
    forall i, j | 0 <= i < j < |items| ensures items[i] != items[j] {
      OptionEntriesAt(opts, i);
      OptionEntriesAt(opts, j);
    }
  }

  /** Manufacturer rows are found by the product's `manufacturer_id`, which may be null. */
  function ManufacturerRef(m: Manufacturer): Value { Int(m.manufacturerId) }

  /**
   * `get` on one product: 404 when the id is unknown; the detailed form
   * unless `form` says otherwise; a server error when the product's
   * manufacturer cannot be found, because its name is read from nothing.
   */
  method GetItem(store: Store, id: int, form: Option<string>) returns (resp: Response)
    ensures IndexOf(store.products, ProductKey, id).None? ==> resp == Message(NotFound, "Product_item not found")
    ensures IndexOf(store.products, ProductKey, id).Some? ==>
              var p := store.products[IndexOf(store.products, ProductKey, id).value];
              var m := IndexOf(store.manufacturers, ManufacturerRef, p.manufacturerId);
              && (m.None? ==> resp == Empty(ServerError))
              && (m.Some? ==> resp == Response(OK, Obj(ProductPage(p, OptionsOfProduct(store.options, store.productOptions, p.productId),
                                                                   store.manufacturers[m.value].name, FormIs(form, "long", "long")))))
  {
    var found := IndexOf(store.products, ProductKey, id);
    if found.None? {
      return Message(NotFound, "Product_item not found");
    }
    var p := store.products[found.value];
    var item := SerializeProduct(p, FormIs(form, "long", "long"));
    var opts := OptionsOfProduct(store.options, store.productOptions, p.productId);
    var lensColors: seq<Value> := [];
    var i := 0;
    while i < |opts|
      invariant 0 <= i <= |opts|
      invariant lensColors == OptionEntries(opts[..i])
    {
      OptionEntriesSnoc(opts, i);
      lensColors := lensColors + [OptionEntry(opts[i])];
      i := i + 1;
    }
    assert opts[..i] == opts;
    item := item["options" := Arr(lensColors)];
    var m := IndexOf(store.manufacturers, ManufacturerRef, p.manufacturerId);
    if m.None? {
      return Empty(ServerError);
    }
    item := item["manufacturer_name" := store.manufacturers[m.value].name];
    resp := Response(OK, Obj(item));
  }

  // ---- DELETE /api/product/<id> ----

  /**
   * `delete`: 404 for an unknown id; otherwise the product's join rows are
   * deleted one by one, then the product, and its orders lose their
   * reference to it.
   */
  method Delete(store: Store, id: int) returns (resp: Response)
    requires store.Valid()
    modifies store
    ensures store.Valid()
    ensures store.apiKeys == old(store.apiKeys) && store.manufacturers == old(store.manufacturers)
    ensures store.options == old(store.options)
    ensures IndexOf(old(store.products), ProductKey, id).None? ==>
              && resp == Message(NotFound, "Product not found")
              && store.products == old(store.products) && store.productOptions == old(store.productOptions)
              && store.orders == old(store.orders)
    ensures IndexOf(old(store.products), ProductKey, id).Some? ==>
              && resp == Message(OK, "Product Deleted Successfully")
              && store.products == RemoveAt(old(store.products), IndexOf(old(store.products), ProductKey, id).value)
              && store.productOptions == DropRowsOf(old(store.productOptions), id)
              && store.orders == DetachOrders(old(store.orders), id)
  {
    var found := IndexOf(store.products, ProductKey, id);
    if found.None? {
      return Message(NotFound, "Product not found");
    }
    DeleteJoinRows(store, id);
    RemoveAtSpec(store.products, ProductKey, found.value);
    DetachOrdersSpec(store.orders, id);
    store.products := RemoveAt(store.products, found.value);
    store.orders := DetachOrders(store.orders, id);
    resp := Message(OK, "Product Deleted Successfully");
  }

  /** The loop of `delete`: every join row the product's query returned is deleted by its key. */
  method DeleteJoinRows(store: Store, id: int)
    requires store.Valid()
    modifies store
    ensures store.Valid()
    ensures store.productOptions == DropRowsOf(old(store.productOptions), id)
    ensures store.apiKeys == old(store.apiKeys) && store.manufacturers == old(store.manufacturers)
    ensures store.products == old(store.products)
    ensures store.options == old(store.options) && store.orders == old(store.orders)
  {
    var rows := DeleteLinkedRows(store.productOptions, id);
    store.productOptions := rows;
  }

  /** Deleting, one key at a time, the rows `filter_by(product_id=id)` returned leaves the other products' rows. */
  method DeleteLinkedRows(rows: seq<ProductOption>, id: int) returns (r: seq<ProductOption>)
    requires Ascending(rows, ProductOptionKey)
    ensures r == DropRowsOf(rows, id)
    ensures Ascending(r, ProductOptionKey)
  {
    var linked := RowsOf(rows, id);
    IdSetStart(rows, linked);
    r := rows;
    var k := 0;
    while k < |linked|
      invariant 0 <= k <= |linked|
      invariant r == WithoutIds(rows, IdSet(linked[..k]))
    {
      WithoutIdsAccumulate(rows, IdSet(linked[..k]), {linked[k].productOptionId});
      IdSetStep(linked, k);
      r := WithoutIds(r, {linked[k].productOptionId});
      k := k + 1;
    }
    IdSetEnd(rows, id, linked, k);
  }

  // ---- PUT /api/product/<id> ----

  /** The keys `put` reads with `request_data[...]`. */
  const PutKeys: set<string> :=
    {"name_update", "description_update", "sku_update", "quantity_update", "image_update", "price_update", "width_update"}

  /** `float(v) if v else 0.0`. */
  function FloatOrZero(parse: string -> Option<real>, v: Value): (r: Option<real>)
    ensures !Truthy(v) ==> r == Some(0.0)
    ensures Truthy(v) ==> r == PyFloat(parse, v)
  {
    if Truthy(v) then PyFloat(parse, v) else Some(0.0)
  }

  /** Every key is present and both price and width convert. */
  predicate UpdateReadable(env: Env, body: Value) {
    && body.Obj? && PutKeys <= body.fields.Keys
    && FloatOrZero(env.parseFloat, body.fields["price_update"]).Some?
    && FloatOrZero(env.parseFloat, body.fields["width_update"]).Some?
  }

  /**
   * The row `put` commits: the seven updated columns from the request, with
   * a falsy price or width stored as 0.0; the id, manufacturer and date are
   * kept. A missing key or failed conversion raises (500); a null quantity
   * or image violates NOT NULL (409).
   */
  function UpdatedProduct(env: Env, body: Value, p: Product): (r: Step<Product>)
    ensures r.Proceed? <==>
              UpdateReadable(env, body) && body.fields["quantity_update"] != Null && body.fields["image_update"] != Null
    ensures r.Halt? ==> r.response == Empty(if UpdateReadable(env, body) then Conflict else ServerError)
    ensures r.Proceed? ==>
              var f, q := body.fields, r.value;
              && q.productId == p.productId && q.manufacturerId == p.manufacturerId && q.dateAdded == p.dateAdded
              && q.name == f["name_update"] && q.description == f["description_update"] && q.sku == f["sku_update"]
              && q.quantity == f["quantity_update"] && q.image == f["image_update"]
              && FloatOrZero(env.parseFloat, f["price_update"]) == Some(q.price)
              && FloatOrZero(env.parseFloat, f["width_update"]) == Some(q.width)
  {
    if !body.Obj? || !(PutKeys <= body.fields.Keys) then Halt(Empty(ServerError))
    else
      var f := body.fields;
      var price, width := FloatOrZero(env.parseFloat, f["price_update"]), FloatOrZero(env.parseFloat, f["width_update"]);
      if price.None? || width.None? then Halt(Empty(ServerError))
      else if f["quantity_update"] == Null || f["image_update"] == Null then Halt(Empty(Conflict))
      else Proceed(p.(name := f["name_update"], description := f["description_update"], sku := f["sku_update"],
                      quantity := f["quantity_update"], image := f["image_update"], price := price.value, width := width.value))
  }

  /** Repeating an update changes nothing more: `put` is idempotent. */
  lemma UpdateIdempotent(env: Env, body: Value, p: Product)
    requires UpdatedProduct(env, body, p).Proceed?
    ensures UpdatedProduct(env, body, UpdatedProduct(env, body, p).value) == UpdatedProduct(env, body, p)
  {
  }

  /** `put`: 415 unless the request is JSON, 404 for an unknown id, then the update above; join rows are not touched. */
  method Put(store: Store, env: Env, id: int, json: Option<Value>) returns (resp: Response)
    requires store.Valid()
    modifies store
    ensures store.Valid()
    ensures store.apiKeys == old(store.apiKeys) && store.manufacturers == old(store.manufacturers)
    ensures store.options == old(store.options) && store.productOptions == old(store.productOptions)
    ensures store.orders == old(store.orders)
    ensures !JsonRequest(json) ==>
              resp == Message(UnsupportedMediaType, "Request content type must be JSON") && store.products == old(store.products)
    ensures JsonRequest(json) && IndexOf(old(store.products), ProductKey, id).None? ==>
              resp == Message(NotFound, "Product not found") && store.products == old(store.products)
    ensures JsonRequest(json) && IndexOf(old(store.products), ProductKey, id).Some? ==>
              var i := IndexOf(old(store.products), ProductKey, id).value;
              var step := UpdatedProduct(env, json.value, old(store.products)[i]);
              && (step.Halt? ==> resp == step.response && store.products == old(store.products))
              && (step.Proceed? ==>
                    resp == Message(OK, "Product Updated Successfully") && store.products == old(store.products)[i := step.value])
  {
    if !JsonRequest(json) {
      return Message(UnsupportedMediaType, "Request content type must be JSON");
    }
    var found := IndexOf(store.products, ProductKey, id);
    if found.None? {
      return Message(NotFound, "Product not found");
    }
    var step := UpdatedProduct(env, json.value, store.products[found.value]);
    if step.Halt? {
      return step.response;
    }
    ReplaceAscending(store.products, ProductKey, found.value, step.value);
    store.products := store.products[found.value := step.value];
    resp := Message(OK, "Product Updated Successfully");
  }
}
