/**
 * The records of the catalogue database and their JSON serialisations
 * (ecomsync/models.py). Column values that the handlers take straight from a
 * request body are kept as JSON values; ids are integers, prices and widths
 * are the reals `float()` produced, and a date is identified with the text
 * `str()` gives for it.
 */
module Models {
  import opened Wrappers
  import opened Json

  /** A SHA-256 digest, as stored in the `key` column of `ApiKey`. */
  type Digest = seq<bv8>

  /** A `datetime`, known to the model only through its `str()` rendering. */
  datatype Date = Date(text: string)

  datatype ApiKey = ApiKey(key: Digest, admin: bool)

  datatype Options = Options(optionId: int, name: Value, image: Value)

  /** A row of the join table between products and options. */
  datatype ProductOption = ProductOption(productOptionId: int, productId: int, optionId: Value)

  /** `manufacturerId`, like every reference column, may be NULL (JSON null). */
  datatype Product = Product(
    productId: int,
    name: Value,
    description: Value,
    manufacturerId: Value,
    sku: Value,
    quantity: Value,
    image: Value,
    price: real,
    width: real,
    dateAdded: Date)

  datatype Manufacturer = Manufacturer(manufacturerId: int, name: Value, image: Value, description: Value)

  datatype Order = Order(
    orderId: int,
    firstname: Value,
    lastname: Value,
    email: Value,
    telephone: Value,
    productId: Value,
    paymentAddress1: Value,
    paymentCity: Value,
    paymentPostcode: Value,
    paymentCountry: Value,
    total: Value,
    dateAdded: Date)

  // Primary keys, as functions for the generic table operations.
  function OptionsKey(o: Options): int { o.optionId }
  function ProductOptionKey(r: ProductOption): int { r.productOptionId }
  function ProductKey(p: Product): int { p.productId }
  function ManufacturerKey(m: Manufacturer): int { m.manufacturerId }
  function OrderKey(o: Order): int { o.orderId }
  function AdminFlag(k: ApiKey): bool { k.admin }

  /**
   * `ApiKey.key_hash`: the SHA-256 digest of the key's UTF-8 encoding.
   * `sha256` stands for that composition, which the model does not open.
   */
  function KeyHash(sha256: string -> Digest, key: string): Digest {
    sha256(key)
  }

  // ---- Options ----

  /** `Options.serialize`: exactly the option's id, name and image. */
  function SerializeOptions(o: Options): (doc: map<string, Value>)
    ensures doc.Keys == {"id", "name", "image"}
    ensures doc["id"] == Int(o.optionId) && doc["name"] == o.name && doc["image"] == o.image
  {
    map["id" := Int(o.optionId), "name" := o.name, "image" := o.image]
  }

  /** Reads an option back from its serialisation. */
  function DecodeOptions(doc: map<string, Value>): Option<Options> {
    if "id" in doc && doc["id"].Int? && "name" in doc && "image" in doc
    then Some(Options(doc["id"].i, doc["name"], doc["image"]))
    else None
  }

  /** The serialisation of an option loses nothing. */
  lemma OptionsRoundTrip(o: Options)
    ensures DecodeOptions(SerializeOptions(o)) == Some(o)
  {
  }

  // ---- Product ----

  const ProductDetailKeys: set<string> :=
    {"description", "manufacturer_id", "sku", "quantity", "image", "price", "width", "date_added"}

  /**
   * `Product.serialize(short_form)`. The flag works the opposite way round
   * from its documentation: `true` adds every detail column, `false` yields
   * just the id and the name.
   */
  function SerializeProduct(p: Product, shortForm: bool): (doc: map<string, Value>)
    ensures doc.Keys == if shortForm then {"id", "name"} + ProductDetailKeys else {"id", "name"}
    ensures doc["id"] == Int(p.productId) && doc["name"] == p.name
  {
    var doc := map["id" := Int(p.productId), "name" := p.name];
    if shortForm then
      doc["description" := p.description]
         ["manufacturer_id" := p.manufacturerId]
         ["sku" := p.sku]
         ["quantity" := p.quantity]
         ["image" := p.image]
         ["price" := Num(p.price)]
         ["width" := Num(p.width)]
         ["date_added" := Str(p.dateAdded.text)]
    else
      doc
  }

  /** The detailed form holds every column, the date as its `str()`. */
  lemma SerializeProductDetails(p: Product)
    ensures var doc := SerializeProduct(p, true);
      && doc["description"] == p.description
      && doc["manufacturer_id"] == p.manufacturerId
      && doc["sku"] == p.sku
      && doc["quantity"] == p.quantity
      && doc["image"] == p.image
      && doc["price"] == Num(p.price)
      && doc["width"] == Num(p.width)
      && doc["date_added"] == Str(p.dateAdded.text)
  {
    var d4 := map["id" := Int(p.productId), "name" := p.name]
                 ["description" := p.description]
                 ["manufacturer_id" := p.manufacturerId]
                 ["sku" := p.sku]
                 ["quantity" := p.quantity];
    assert d4["description"] == p.description && d4["manufacturer_id"] == p.manufacturerId;
    assert "image"[0] != "price"[0] && "image"[0] != "width"[0] && "price"[0] != "width"[0];
    assert SerializeProduct(p, true) ==
      d4["image" := p.image]["price" := Num(p.price)]["width" := Num(p.width)]["date_added" := Str(p.dateAdded.text)];
  }

  /** Reads a product back from its detailed serialisation. */
  function DecodeProduct(doc: map<string, Value>): Option<Product> {
    if && "id" in doc && doc["id"].Int? && "name" in doc
       && ProductDetailKeys <= doc.Keys
       && doc["price"].Num? && doc["width"].Num? && doc["date_added"].Str?
    then Some(Product(doc["id"].i, doc["name"], doc["description"], doc["manufacturer_id"],
                      doc["sku"], doc["quantity"], doc["image"], doc["price"].r,
                      doc["width"].r, Date(doc["date_added"].s)))
    else None
  }

  /** The detailed product serialisation loses nothing; the brief one is not enough to rebuild it. */
  lemma ProductRoundTrip(p: Product)
    ensures DecodeProduct(SerializeProduct(p, true)) == Some(p)
    ensures DecodeProduct(SerializeProduct(p, false)) == None
  {
    SerializeProductDetails(p);
    assert "price" !in SerializeProduct(p, false);
  }

  /** The brief product form is the detailed one cut down to id and name. */
  lemma ProductBriefIsRestriction(p: Product)
    ensures SerializeProduct(p, false) == map k | k in SerializeProduct(p, true) && k in {"id", "name"} :: SerializeProduct(p, true)[k]
  {
    var brief, full := SerializeProduct(p, false), SerializeProduct(p, true);
    var cut := map k | k in full && k in {"id", "name"} :: full[k];
    assert cut.Keys == {"id", "name"};
    assert cut["id"] == brief["id"] && cut["name"] == brief["name"];
  }

  // ---- Manufacturer ----

  /**
   * `Manufacturer.json_schema`: an object schema requiring name, image
   * and description, each declared as a string property.
   */
  function ManufacturerSchema(): (schema: map<string, Value>)
    ensures schema.Keys == {"type", "required", "properties"}
    ensures schema["type"] == Str("object")
    ensures schema["required"] == Arr([Str("name"), Str("image"), Str("description")])
    ensures schema["properties"].Obj?
    ensures schema["properties"].fields.Keys == {"name", "image", "description"}
    ensures forall r :: r in schema["required"].items ==> r.Str? && r.s in schema["properties"].fields
    ensures forall k :: k in schema["properties"].fields ==>
              && schema["properties"].fields[k].Obj?
              && "type" in schema["properties"].fields[k].fields
              && schema["properties"].fields[k].fields["type"] == Str("string")
  {
    var props := map[
      "name" := Obj(map["description" := Str("handle of the Product"), "type" := Str("string")]),
      "image" := Obj(map["description" := Str("weight of the Product"), "type" := Str("string")]),
      "description" := Obj(map["description" := Str("Price of the Product"), "type" := Str("string")])];
    map["type" := Str("object"),
        "required" := Arr([Str("name"), Str("image"), Str("description")]),
        "properties" := Obj(props)]
  }

  /**
   * `Manufacturer.serialize(short_form)`: always the name, the description
   * unless `short_form`; never the id or the image, whatever the
   * documentation says.
   */
  function SerializeManufacturer(m: Manufacturer, shortForm: bool): (doc: map<string, Value>)
    ensures "name" in doc && doc["name"] == m.name
    ensures "description" in doc <==> !shortForm
    ensures !shortForm ==> doc["description"] == m.description
    ensures doc.Keys <= {"name", "description"}
  {
    var doc := map["name" := m.name];
    if !shortForm then doc["description" := m.description] else doc
  }

  /** Manufacturers that differ only in id and image serialise alike. */
  lemma ManufacturerSerializeIgnoresIdAndImage(m: Manufacturer, id: int, image: Value, shortForm: bool)
    ensures SerializeManufacturer(m.(manufacturerId := id, image := image), shortForm) == SerializeManufacturer(m, shortForm)
  {
  }

  // ---- Order ----

  const OrderDetailKeys: set<string> :=
    {"telephone", "payment_address_1", "payment_city", "payment_postcode", "payment_country", "total", "date_added"}

  /**
   * `Order.serialize(short_form)`: first name and e-mail always; telephone,
   * address, total and date unless `short_form`; never the last name or the
   * product id.
   */
  function SerializeOrder(o: Order, shortForm: bool): (doc: map<string, Value>)
    ensures doc.Keys == if shortForm then {"firstname", "email"} else {"firstname", "email"} + OrderDetailKeys
    ensures doc["firstname"] == o.firstname && doc["email"] == o.email
  {
    var doc := map["firstname" := o.firstname, "email" := o.email];
    if !shortForm then
      doc["telephone" := o.telephone]
         ["payment_address_1" := o.paymentAddress1]
         ["payment_city" := o.paymentCity]
         ["payment_postcode" := o.paymentPostcode]
         ["payment_country" := o.paymentCountry]
         ["total" := o.total]
         ["date_added" := Str(o.dateAdded.text)]
    else
      doc
  }

  /** The long form holds the contact, address, total and date columns. */
  lemma SerializeOrderDetails(o: Order)
    ensures var doc := SerializeOrder(o, false);
      && doc["telephone"] == o.telephone
      && doc["payment_address_1"] == o.paymentAddress1
      && doc["payment_city"] == o.paymentCity
      && doc["payment_postcode"] == o.paymentPostcode
      && doc["payment_country"] == o.paymentCountry
      && doc["total"] == o.total
      && doc["date_added"] == Str(o.dateAdded.text)
  {
  }

  /** Orders that differ only in last name, product and id serialise alike. */
  lemma OrderSerializeIgnoresHiddenColumns(o: Order, lastname: Value, productId: Value, orderId: int, shortForm: bool)
    ensures SerializeOrder(o.(lastname := lastname, productId := productId, orderId := orderId), shortForm) == SerializeOrder(o, shortForm)
  {
  }
}
