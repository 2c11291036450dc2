/**
 * The manufacturer endpoints (ecomsync/resources/manufacturer.py):
 * `/api/manufacturer/<mid>` shows, deletes and updates one manufacturer;
 * `/api/manufacturer/` lists them (admin only) and creates one.
 */
module ManufacturerResource {
  import opened Wrappers
  import opened Json
  import opened Http
  import opened Models
  import opened Tables
  import opened Orphans
  import opened Routes
  import opened Mason
  import opened Auth
  import opened Platform
  import opened Requests
  import opened Catalogue

  // ---- GET /api/manufacturer/<mid> ----

  /** `Product.query.filter_by(manufacturer_id=mid).all()`, in table order. */
  function ProductsOf(products: seq<Product>, mid: int): (r: seq<Product>)
    ensures forall p :: p in r <==> p in products && p.manufacturerId == Int(mid)
    ensures |r| <= |products|
  {
    if products == [] then []
    else (if products[0].manufacturerId == Int(mid) then [products[0]] else []) + ProductsOf(products[1..], mid)
  }

  /**
   * A product as the manufacturer page lists it: id, name, and a single
   * GET control written directly under `@controls` (not under a relation
   * name, unlike the MasonBuilder controls).
   */
  function ProductSummary(p: Product): (entry: Value)
    ensures entry.Obj? && entry.fields.Keys == {"product_id", "product_name", "@controls"}
    ensures entry.fields["product_id"] == Int(p.productId) && entry.fields["product_name"] == p.name
    ensures entry.fields["@controls"] ==
              Obj(map["method" := Str("GET"), "title" := Str("View product"), "href" := Str(ProductItemUrl(p.productId))])
  {
    Obj(map["product_id" := Int(p.productId), "product_name" := p.name,
            "@controls" := Obj(map["method" := Str("GET"), "title" := Str("View product"), "href" := Str(ProductItemUrl(p.productId))])])
  }

  function ProductSummaries(ps: seq<Product>): (r: seq<Value>)
    ensures |r| == |ps|
  {
    if ps == [] then [] else ProductSummaries(ps[..|ps| - 1]) + [ProductSummary(ps[|ps| - 1])]
  }

  lemma {:induction false} ProductSummariesAt(ps: seq<Product>, k: nat)
    requires k < |ps|
    ensures ProductSummaries(ps)[k] == ProductSummary(ps[k])
  {
    if k < |ps| - 1 {
      ProductSummariesAt(ps[..|ps| - 1], k);
    }
  }

  lemma ProductSummariesSnoc(ps: seq<Product>, i: nat)
    requires i < |ps|
    ensures ProductSummaries(ps[..i + 1]) == ProductSummaries(ps[..i]) + [ProductSummary(ps[i])]
  {
    assert ps[..i + 1][..i] == ps[..i];
  }

  function PageOf(m: Manufacturer, summaries: seq<Value>): Value {
    Obj(map["manufacturer" := Arr([Obj(map[
      "id" := Int(m.manufacturerId),
      "name" := m.name,
      "image" := m.image,
      "description" := m.description,
      "@controls" := Obj(map["self" := Obj(map["href" := Str(ManufacturerItemUrl(m.manufacturerId))])]),
      "products" := Arr(summaries)])])])
  }

  function ManufacturerPage(m: Manufacturer, products: seq<Product>): (body: Value)
    ensures body.Obj? && body.fields.Keys == {"manufacturer"}
    ensures body.fields["manufacturer"].Arr? && |body.fields["manufacturer"].items| == 1
    ensures var e := body.fields["manufacturer"].items[0];
            && e.Obj? && e.fields.Keys == {"id", "name", "image", "description", "@controls", "products"}
            && e.fields["id"] == Int(m.manufacturerId) && e.fields["name"] == m.name
            && e.fields["image"] == m.image && e.fields["description"] == m.description
            && e.fields["@controls"] == Obj(map["self" := Obj(map["href" := Str(ManufacturerItemUrl(m.manufacturerId))])])
            && e.fields["products"] == Arr(ProductSummaries(ProductsOf(products, m.manufacturerId)))
  {
    PageOf(m, ProductSummaries(ProductsOf(products, m.manufacturerId)))
  }

  /** With unique product ids, a product is summarised on the page exactly when it refers to the manufacturer. */
  lemma ManufacturerPageListsItsProducts(m: Manufacturer, products: seq<Product>, p: Product)
    requires Ascending(products, ProductKey) && p in products
    ensures ProductSummary(p) in ManufacturerPage(m, products).fields["manufacturer"].items[0].fields["products"].items
            <==> p.manufacturerId == Int(m.manufacturerId)
  {
    var ps := ProductsOf(products, m.manufacturerId);
    var sums := ProductSummaries(ps);
    assert ManufacturerPage(m, products).fields["manufacturer"].items[0].fields["products"].items == sums;
    if ProductSummary(p) in sums {
      var k :| 0 <= k < |sums| && sums[k] == ProductSummary(p);
      ProductSummariesAt(ps, k);
      assert ProductSummary(ps[k]).fields["product_id"] == Int(p.productId);
      assert ps[k] in products;
      var a :| 0 <= a < |products| && products[a] == ps[k];
      var b :| 0 <= b < |products| && products[b] == p;
      assert a == b;
    }
    if p.manufacturerId == Int(m.manufacturerId) {
      var k :| 0 <= k < |ps| && ps[k] == p;
      ProductSummariesAt(ps, k);
    }
  }

  /** `get`: 404 for an unknown id, otherwise the page built product by product. */
  method GetItem(store: Store, mid: int) returns (resp: Response)
    ensures IndexOf(store.manufacturers, ManufacturerKey, mid).None? ==>
              resp == Message(NotFound, "Manufacturer_item not found")
    ensures IndexOf(store.manufacturers, ManufacturerKey, mid).Some? ==>
              resp == Response(OK, ManufacturerPage(store.manufacturers[IndexOf(store.manufacturers, ManufacturerKey, mid).value], store.products))
  {
    var found := IndexOf(store.manufacturers, ManufacturerKey, mid);
    if found.None? {
      return Message(NotFound, "Manufacturer_item not found");
    }
    var m := store.manufacturers[found.value];
    var products := ProductsOf(store.products, mid);
    var productsList: seq<Value> := [];
    var i := 0;
    while i < |products|
      invariant 0 <= i <= |products|
      invariant productsList == ProductSummaries(products[..i])
    {
      ProductSummariesSnoc(products, i);
      productsList := productsList + [ProductSummary(products[i])];
      i := i + 1;
    }
    assert products[..i] == products;
    resp := Response(OK, PageOf(m, productsList));
  }

  // ---- DELETE /api/manufacturer/<mid> ----

  /** `delete`: 404 for an unknown id; otherwise the row goes and its products lose their reference to it. */
  method Delete(store: Store, mid: int) returns (resp: Response)
    requires store.Valid()
    modifies store
    ensures store.Valid()
    ensures store.apiKeys == old(store.apiKeys) && store.options == old(store.options)
    ensures store.productOptions == old(store.productOptions) && store.orders == old(store.orders)
    ensures IndexOf(old(store.manufacturers), ManufacturerKey, mid).None? ==>
              && resp == Message(NotFound, "Product not found")
              && store.manufacturers == old(store.manufacturers) && store.products == old(store.products)
    ensures IndexOf(old(store.manufacturers), ManufacturerKey, mid).Some? ==>
              && resp == Message(OK, "Manufacturer Deleted Successfully")
              && store.manufacturers == RemoveAt(old(store.manufacturers), IndexOf(old(store.manufacturers), ManufacturerKey, mid).value)
              && store.products == DetachProducts(old(store.products), mid)
  {
    var found := IndexOf(store.manufacturers, ManufacturerKey, mid);
    if found.None? {
      return Message(NotFound, "Product not found");
    }
    RemoveAtSpec(store.manufacturers, ManufacturerKey, found.value);
    DetachProductsSpec(store.products, mid);
    store.manufacturers := RemoveAt(store.manufacturers, found.value);
    store.products := DetachProducts(store.products, mid);
    resp := Message(OK, "Manufacturer Deleted Successfully");
  }

  // ---- PUT /api/manufacturer/<mid> ----

  /**
   * The row `put` commits: name, description and image all replaced by the
   * request's `*_update` values, a key the request leaves out becoming
   * NULL; nothing when the document is not an object (`.get` raises).
   */
  function UpdatedManufacturer(body: Value, m: Manufacturer): (r: Option<Manufacturer>)
    ensures r.Some? <==> body.Obj?
    ensures r.Some? ==> r.value.manufacturerId == m.manufacturerId
    ensures r.Some? ==> Some(r.value.name) == GetKey(body, "name_update")
    ensures r.Some? ==> Some(r.value.description) == GetKey(body, "description_update")
    ensures r.Some? ==> Some(r.value.image) == GetKey(body, "image_update")
  {
    match (GetKey(body, "name_update"), GetKey(body, "description_update"), GetKey(body, "image_update"))
    case (Some(name), Some(description), Some(image)) =>
      Some(m.(name := name, description := description, image := image))
    case _ => None
  }

  /** The update is not partial: whatever the row held before, the result depends on the request alone. */
  lemma UpdateIgnoresOldColumns(body: Value, m: Manufacturer, m': Manufacturer)
    requires body.Obj? && m.manufacturerId == m'.manufacturerId
    ensures UpdatedManufacturer(body, m) == UpdatedManufacturer(body, m')
  {
  }

  /** `put`: 415 unless the request is JSON, 404 for an unknown id, 500 when the document is not an object. */
  method Put(store: Store, mid: int, json: Option<Value>) returns (resp: Response)
    requires store.Valid()
    modifies store
    ensures store.Valid()
    ensures store.apiKeys == old(store.apiKeys) && store.products == old(store.products)
    ensures store.options == old(store.options) && store.productOptions == old(store.productOptions)
    ensures store.orders == old(store.orders)
    ensures !JsonRequest(json) ==>
              resp == Message(UnsupportedMediaType, "Request content type must be JSON")
              && store.manufacturers == old(store.manufacturers)
    ensures JsonRequest(json) && IndexOf(old(store.manufacturers), ManufacturerKey, mid).None? ==>
              resp == Message(NotFound, "Manufacturer not found") && store.manufacturers == old(store.manufacturers)
    ensures JsonRequest(json) && IndexOf(old(store.manufacturers), ManufacturerKey, mid).Some? ==>
              var i := IndexOf(old(store.manufacturers), ManufacturerKey, mid).value;
              var u := UpdatedManufacturer(json.value, old(store.manufacturers)[i]);
              && (u.None? ==> resp == Empty(ServerError) && store.manufacturers == old(store.manufacturers))
              && (u.Some? ==>
                    resp == Message(OK, "Manufacturer Updated Successfully")
                    && store.manufacturers == old(store.manufacturers)[i := u.value])
  {
    if !JsonRequest(json) {
      return Message(UnsupportedMediaType, "Request content type must be JSON");
    }
    var found := IndexOf(store.manufacturers, ManufacturerKey, mid);
    if found.None? {
      return Message(NotFound, "Manufacturer not found");
    }
    var u := UpdatedManufacturer(json.value, store.manufacturers[found.value]);
    if u.None? {
      return Empty(ServerError);
    }
    ReplaceAscending(store.manufacturers, ManufacturerKey, found.value, u.value);
    store.manufacturers := store.manufacturers[found.value := u.value];
    resp := Message(OK, "Manufacturer Updated Successfully");
  }

  // ---- GET /api/manufacturer/ ----

  /** One listed manufacturer: its serialisation plus the control that leads to its page. */
  function ManufacturerEntry(m: Manufacturer, shortForm: bool): (entry: Value)
    ensures entry.Obj?
    ensures entry.fields.Keys == SerializeManufacturer(m, shortForm).Keys + {"@controls"}
    ensures forall k :: k in SerializeManufacturer(m, shortForm) ==> entry.fields[k] == SerializeManufacturer(m, shortForm)[k]
    ensures entry.fields["@controls"] ==
              Obj(map["storage:manufacturer" := Obj(ViewManufacturerControl["href" := Str(ManufacturerItemUrl(m.manufacturerId))])])
  {
    var doc := SerializeManufacturer(m, shortForm);
    assert "@controls" !in doc;
    WithFirstControl(doc, "storage:manufacturer", ManufacturerItemUrl(m.manufacturerId), ViewManufacturerControl);
    Obj(WithControl(doc, "storage:manufacturer", ManufacturerItemUrl(m.manufacturerId), ViewManufacturerControl))
  }

  /** The collection document: the entries under `items`, and the control listing all manufacturers. */
  function CollectionDoc(entries: seq<Value>): (doc: map<string, Value>)
    ensures doc.Keys == {"items", "@controls"}
    ensures doc["items"] == Arr(entries)
    ensures Controls(doc) == map["storage:manufacturer-all" := Obj(AllManufacturersControl["href" := Str(ManufacturerCollectionUrl)])]
  {
    WithFirstControl(map["items" := Arr([])], "storage:manufacturer-all", ManufacturerCollectionUrl, AllManufacturersControl);
    WithControl(map["items" := Arr([])], "storage:manufacturer-all", ManufacturerCollectionUrl, AllManufacturersControl)
      ["items" := Arr(entries)]
  }

  /** The entries of the listing, in table order. */
  function ManufacturerEntries(ms: seq<Manufacturer>, shortForm: bool): (r: seq<Value>)
    ensures |r| == |ms|
  {
    if ms == [] then [] else ManufacturerEntries(ms[..|ms| - 1], shortForm) + [ManufacturerEntry(ms[|ms| - 1], shortForm)]
  }

  /** Every manufacturer is listed, in table order: the `k`-th entry is the `k`-th manufacturer's. */
  lemma {:induction false} ManufacturerEntriesAt(ms: seq<Manufacturer>, shortForm: bool, k: nat)
    requires k < |ms|
    ensures ManufacturerEntries(ms, shortForm)[k] == ManufacturerEntry(ms[k], shortForm)
  {
    if k < |ms| - 1 {
      ManufacturerEntriesAt(ms[..|ms| - 1], shortForm, k);
    }
  }

  lemma ManufacturerEntriesSnoc(ms: seq<Manufacturer>, shortForm: bool, i: nat)
    requires i < |ms|
    ensures ManufacturerEntries(ms[..i + 1], shortForm) == ManufacturerEntries(ms[..i], shortForm) + [ManufacturerEntry(ms[i], shortForm)]
  {
    assert ms[..i + 1][..i] == ms[..i];
  }

  /** Replacing the list under `items` leaves the rest of the collection document alone. */
  lemma CollectionDocSet(items: seq<Value>, items': seq<Value>)
    ensures CollectionDoc(items)["items" := Arr(items')] == CollectionDoc(items')
  {
  }

  /** One `ManufacturerBuilder` of the listing loop, built and read back. */
  method BuildEntry(m: Manufacturer, shortForm: bool) returns (entry: Value)
    ensures entry == ManufacturerEntry(m, shortForm)
  {
    var b := new ManufacturerBuilder.FromMap(SerializeManufacturer(m, shortForm));
    b.AddControlViewProduct(m);
    entry := Obj(b.base.doc);
  }

  /**
   * `get` on the collection, behind `require_admin`: refused with 403 for a
   * wrong key and a server error when no admin key exists; the brief form
   * only for `form=short`.
   */
  method List(store: Store, env: Env, header: Option<string>, form: Option<string>) returns (resp: Response)
    ensures AdminCheck(env.sha256, header, store.apiKeys) == Refused ==> resp == Empty(Forbidden)
    ensures AdminCheck(env.sha256, header, store.apiKeys) == NoAdminKey ==> resp == Empty(ServerError)
    ensures AdminCheck(env.sha256, header, store.apiKeys) == Admitted ==>
              resp == Response(OK, Obj(CollectionDoc(ManufacturerEntries(store.manufacturers, FormIs(form, "long", "short")))))
  {
    var guard := AdminCheck(env.sha256, header, store.apiKeys);
    if guard == Refused {
      return Empty(Forbidden);
    } else if guard == NoAdminKey {
      return Empty(ServerError);
    }
    var doc := BuildCollection(store.manufacturers, FormIs(form, "long", "short"));
    resp := Response(OK, Obj(doc));
  }

  /** The body of the collection `get`: a `ManufacturerBuilder` filled one manufacturer at a time. */
  method BuildCollection(manufacturers: seq<Manufacturer>, shortForm: bool) returns (doc: map<string, Value>)
    ensures doc == CollectionDoc(ManufacturerEntries(manufacturers, shortForm))
  {
    var body := new ManufacturerBuilder();
    body.base.Set("items", Arr([]));
    body.AddControlAllManufacturers();
    var items: seq<Value> := [];
    var i := 0;
    while i < |manufacturers|
      invariant 0 <= i <= |manufacturers|
      invariant body.Valid() && fresh(body.base)
      invariant items == ManufacturerEntries(manufacturers[..i], shortForm)
      invariant body.base.doc == CollectionDoc(items)
    {
      var entry := BuildEntry(manufacturers[i], shortForm);
      ManufacturerEntriesSnoc(manufacturers, shortForm, i);
      CollectionDocSet(items, items + [entry]);
      items := items + [entry];
      body.base.Set("items", Arr(items));
      i := i + 1;
    }
    assert manufacturers[..i] == manufacturers;
    doc := body.base.doc;
  }

  // ---- POST /api/manufacturer/ ----

  /**
   * The row `post` inserts: name, image and description read with
   * `request_data[...]` under the next free id; nothing when a key is
   * missing or the document is not an object. Every column is nullable, so
   * the commit cannot be refused.
   */
  function NewManufacturer(body: Value, id: int): (r: Option<Manufacturer>)
    ensures r.Some? <==> body.Obj? && {"name", "image", "description"} <= body.fields.Keys
    ensures r.Some? ==> r.value == Manufacturer(id, body.fields["name"], body.fields["image"], body.fields["description"])
  {
    match (Field(body, "name"), Field(body, "image"), Field(body, "description"))
    case (Some(name), Some(image), Some(description)) => Some(Manufacturer(id, name, image, description))
    case _ => None
  }

  /** A created manufacturer serialises back to the posted name and description. */
  lemma NewManufacturerSerializes(body: Value, id: int)
    requires NewManufacturer(body, id).Some?
    ensures SerializeManufacturer(NewManufacturer(body, id).value, false) ==
              map["name" := body.fields["name"], "description" := body.fields["description"]]
  {
  }

  /** `post`: 415 unless the request is JSON, 500 for a missing key, otherwise 201 and one new row. */
  method Post(store: Store, json: Option<Value>) returns (resp: Response)
    requires store.Valid()
    modifies store
    ensures store.Valid()
    ensures store.apiKeys == old(store.apiKeys) && store.products == old(store.products)
    ensures store.options == old(store.options) && store.productOptions == old(store.productOptions)
    ensures store.orders == old(store.orders)
    ensures !JsonRequest(json) ==>
              resp == Message(UnsupportedMediaType, "Request content type must be JSON")
              && store.manufacturers == old(store.manufacturers)
    ensures JsonRequest(json) ==>
              var m := NewManufacturer(json.value, NextRowId(old(store.manufacturers), ManufacturerKey));
              && (m.None? ==> resp == Empty(ServerError) && store.manufacturers == old(store.manufacturers))
              && (m.Some? ==>
                    resp == Message(Created, "Manufacturer Added Successfully")
                    && store.manufacturers == old(store.manufacturers) + [m.value])
  {
    if !JsonRequest(json) {
      return Message(UnsupportedMediaType, "Request content type must be JSON");
    }
    var m := NewManufacturer(json.value, NextRowId(store.manufacturers, ManufacturerKey));
    if m.None? {
      return Empty(ServerError);
    }
    AppendAscending(store.manufacturers, ManufacturerKey, m.value);
    store.manufacturers := store.manufacturers + [m.value];
    resp := Message(Created, "Manufacturer Added Successfully");
  }
}
