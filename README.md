# ecomsync, modelled in Dafny

ecomsync is a small Flask and SQLAlchemy web shop that serves a hypermedia (Mason) JSON API. This project models its core:

- the six tables of `ecomsync/models.py`: `ApiKey`, `ProductOption`, `Options`, `Product`, `Manufacturer` and `Order`. The model covers their columns, NULL rules and `serialize` methods.
- the helpers of `ecomsync/utils.py`:
  - the `MasonBuilder` and `ManufacturerBuilder` document builders;
  - the two path converters;
  - the `require_admin` access-key guard.
- the four resource modules under `ecomsync/resources/`: product, manufacturer, option and order. The model covers every HTTP method they define, with each branch and each status code.

The model is built in layers:

- **Database.** Each table is a sequence of rows in row-id order, with its primary keys kept ascending (`Tables.Ascending`).
  - A new row gets the next free row id: the last id plus one, as SQLite assigns it.
  - `filter_by(...).first()` is `Tables.IndexOf`.
  - `Catalogue.Store` is a class that holds the six tables as fields. The handlers modify them in place.
- **Request bodies.** A body is an optional JSON value (`Json.Value`, with Python truthiness).
- **Handler validation.** Each handler's validation is a pure function. It either yields the row to commit or ends the request with a response (`Http.Step`). The handler is a method over the `Store`. Its `ensures` gives the response and the new contents of every table.
- **Exceptions the handler does not catch.** A `KeyError`, a failed `float()`, or `.get` on a non-object becomes a bare 500 (`Http.Empty(500)`).
- **Failed commits.** A commit that breaks a NOT NULL column is the 409 the handlers give for `IntegrityError`.
- **Deletes.** Deleting a parent row nulls the reference in its children (`Orphans`), as SQLAlchemy does for a relationship without a cascade.
- **Outside behaviour as parameters.** Hashing, `float()` on strings and `datetime.fromisoformat` are fields of `Platform.Env`. Each is a parameter of whatever uses it.
- **Strings.** `Text.Strip` takes the whitespace test as a parameter, as `str.strip(chars)` does. The access-key guard passes `Text.IsSpace`, Python's whitespace set, which is what `str.strip()` with no argument uses.

`Product.serialize(short_form)` gives the detailed form when `short_form` is true, despite the name. The model keeps that inversion. Each handler's `form` default is modelled as written:

- `"short"` for the product list;
- `"long"` for a product page, the order list and the manufacturer collection.

## Model

| member | source | states |
|---|---|---|
| Models.SerializeOptions | ecomsync/models.py:72-84 | An option serialises to exactly `id`, `name` and `image`, holding its columns. |
| Models.OptionsRoundTrip | ecomsync/models.py:72-84 | Decoding the serialisation of an option gives back the option. |
| Models.SerializeProduct | ecomsync/models.py:112-137 | `id` and `name` always appear, holding the product's id and name. The eight detail keys appear exactly when `short_form` is true. |
| Models.SerializeProductDetails | ecomsync/models.py:128-136 | The eight detail keys hold the product's columns, with the date as its `str()`. |
| Models.ProductRoundTrip | ecomsync/models.py:112-137 | The detailed form decodes back to the product. The brief form cannot be decoded. |
| Models.ProductBriefIsRestriction | ecomsync/models.py:124-137 | The brief form is the detailed one restricted to `id` and `name`. |
| Models.ManufacturerSchema | ecomsync/models.py:151-176 | The schema is an object type. Its three required keys are its three string properties, in the order name, image, description. |
| Models.SerializeManufacturer | ecomsync/models.py:178-196 | `name` always appears. `description` appears exactly in the long form. There are no other keys. |
| Models.ManufacturerSerializeIgnoresIdAndImage | ecomsync/models.py:191-196 | The id and image never reach the serialisation. |
| Models.SerializeOrder | ecomsync/models.py:223-247 | The short form holds `firstname` and `email`, and the long form adds the seven detail keys. |
| Models.SerializeOrderDetails | ecomsync/models.py:239-246 | The seven detail keys hold the order's columns. |
| Models.OrderSerializeIgnoresHiddenColumns | ecomsync/models.py:235-247 | Last name, product reference and id never reach the serialisation. |
| Tables.IndexOf | ecomsync/resources/manufacturer.py:98-101 | `filter_by(...).first()`: the first row with that key, or none exactly when no row has it. |
| Tables.IndexOfUnique | ecomsync/models.py:97 | On a primary key, the row found is the only row with that key. |
| Tables.NextRowId | ecomsync/models.py:97 | The id SQLite gives a new row is above every stored id. It is 1 for an empty table and otherwise the largest id plus one. |
| Tables.AppendAscending | ecomsync/models.py:97 | Inserting a row under the next id keeps the primary keys ascending. |
| Tables.RemoveAt | ecomsync/resources/product.py:189-190 | Deleting a row keeps the other rows in their order. |
| Tables.RemoveAtSpec | ecomsync/resources/product.py:189-190 | After a delete the keys are still ascending and the deleted key is no longer found. Exactly the other rows remain. |
| Tables.ReplaceAscending | ecomsync/resources/product.py:221-236 | An update that keeps the primary key keeps the keys ascending. |
| Json.Field | ecomsync/resources/product.py:62-71 | `d[k]` succeeds exactly on an object holding `k`, and yields its value. |
| Json.GetKey | ecomsync/resources/manufacturer.py:103-105 | `d.get(k)` succeeds exactly on an object. It yields the value, or null when the key is absent. |
| Json.PyFloat | ecomsync/resources/product.py:66-67 | `float(v)`: integers and decimals convert, strings go through the parser, and null, lists and objects raise. |
| Json.Elements | ecomsync/resources/product.py:100-109 | Iterating a list yields its items and a string yields one element per character. Anything else raises. |
| Requests.FormIs | ecomsync/resources/order.py:23-26 | `request.args.get('form', default) == wanted`, with and without the argument. |
| Requests.ReadDate | ecomsync/resources/order.py:58-61 | A date is accepted exactly when it is a string that parses, and yields the parsed date. A string that does not parse is a 400. Any other value raises (500). |
| Catalogue.Store.constructor | ecomsync/models.py:12-221 | A store holds the given tables, with their primary keys ascending. |
| Orphans.DetachOrdersSpec | ecomsync/models.py:213-221 | Once a product's row is deleted, no order refers to it. Every other column and every other order is kept, and the keys stay ascending. |
| Orphans.DetachProductsSpec | ecomsync/models.py:100-109 | Once a manufacturer is deleted, no product refers to it. Every other column and every other product is kept. |
| Orphans.DetachJoinRowsSpec | ecomsync/models.py:49-55 | Once an option is deleted, no join row names it. Each join row keeps its product and its key. |
| Joins.RowsOf | ecomsync/resources/product.py:139-141 | `filter_by(product_id=pid).all()` returns exactly the join rows of that product. It is empty when there are none. |
| Joins.DropRowsOf | ecomsync/resources/product.py:183-187 | The join table without the product's rows keeps exactly the other rows. |
| Joins.WithoutIds | ecomsync/resources/product.py:183-187 | Deleting join rows by key keeps exactly the rows whose key is not deleted. |
| Joins.WithoutNoIds | ecomsync/resources/product.py:183-187 | Deleting no keys changes nothing. |
| Joins.WithoutIdsAccumulate | ecomsync/resources/product.py:183-187 | Deleting one key set and then another equals deleting their union. |
| Joins.WithoutIdsConcat | ecomsync/resources/product.py:183-187 | Deleting by key distributes over the two halves of a table. |
| Joins.WithoutIdsIsDrop | ecomsync/resources/product.py:183-187 | Deleting the keys of exactly the product's rows gives the table without the product's rows. |
| Joins.IdSetStart | ecomsync/resources/product.py:183-187 | Before the delete loop runs, nothing has been deleted. |
| Joins.IdSetStep | ecomsync/resources/product.py:183-187 | Each turn of the delete loop adds one key to the deleted set. |
| Joins.IdSetEnd | ecomsync/resources/product.py:183-187 | After the loop, the deleted keys are exactly the product's rows, and the table stays ascending. |
| Joins.DeleteQueriedRows | ecomsync/resources/product.py:183-187 | Deleting every row the query returned removes exactly the product's join rows. |
| Joins.DropRowsOfAscending | ecomsync/resources/product.py:183-187 | Removing rows keeps the join table's keys ascending. |
| Joins.JoinRows | ecomsync/resources/product.py:100-109 | One join row per selected option, in list order, with consecutive keys. |
| Joins.JoinRowsSnoc | ecomsync/resources/product.py:100-109 | Adding the row for one more selected option extends the added rows by exactly that row. |
| Joins.NextJoinRowId | ecomsync/resources/product.py:100-109 | After some rows are added, the keys stay ascending and the next key follows the last added one. |
| Joins.JoinRowsAppend | ecomsync/resources/product.py:100-109 | After the rows are added, the keys are still ascending. The new product's query returns exactly the added rows, and the next id has moved on by their number. |
| Joins.RowsOfAll | ecomsync/resources/product.py:139-141 | A table holding only the product's rows is its own query result. |
| Joins.OptionsWithId | ecomsync/resources/product.py:142-150 | The options looked up for a join row are those whose id it names. |
| Joins.JoinedOptionsSpec | ecomsync/resources/product.py:139-140 | The SQL join holds an option exactly when one of the product's join rows names it. |
| Joins.FirstOccurrences | ecomsync/resources/product.py:139-140 | The ORM's uniquing of a one-entity query: the same options, none repeated, and no more of them. |
| Joins.FirstOccurrencesOfDistinct | ecomsync/resources/product.py:139-140 | A result without repeats is returned unchanged and in order. |
| Joins.OptionsOfProduct | ecomsync/resources/product.py:139-140 | The query result lists no option twice, even when several join rows name it. |
| Joins.OptionsOfProductSpec | ecomsync/resources/product.py:139-150 | An option is shown for a product exactly when one of the product's join rows names it. |
| Routes.ProductItemUrlInjective | ecomsync/api.py:25 | Different products have different item paths. |
| Routes.ManufacturerItemUrlInjective | ecomsync/api.py:22-23 | Different manufacturers have different item paths, none equal to the collection path. |
| Text.LeadingSpaces | ecomsync/utils.py:272 | The leading run that `strip()` drops: every character in it is whitespace, and the next one is not. |
| Text.TrailingSpaces | ecomsync/utils.py:272 | The trailing run that `strip()` drops: every character in it is whitespace, and the one before it is not. |
| Text.Strip | ecomsync/utils.py:272 | `strip()` is no longer than its input and neither starts nor ends with whitespace. |
| Text.StripSplit | ecomsync/utils.py:272 | The input is whitespace, then the result of `strip()`, then whitespace. |
| Text.StripUnique | ecomsync/utils.py:272 | Any split into whitespace, a middle without whitespace ends, and whitespace has `strip()` as its middle. |
| Text.StripPadded | ecomsync/utils.py:272 | Whitespace added on either side of the header does not change what `strip()` returns. |
| Text.StripTrimmed | ecomsync/utils.py:272 | A trimmed string is its own `strip()`. |
| Text.StripIdempotent | ecomsync/utils.py:272 | `strip()` applied twice is `strip()` applied once. |
| Text.DecimalString | ecomsync/utils.py:215 | `str(n)`: the digits of `n`, with a minus sign when it is negative. |
| Text.ParseInteger | ecomsync/utils.py:185-198 | A path segment reads as an integer only when it is a decimal numeral. |
| Text.DecimalRoundTrip | ecomsync/utils.py:205-215 | Reading back `str(n)` gives `n`. |
| Text.DecimalStringInjective | ecomsync/utils.py:205-215 | Distinct ids print differently. |
| Mason.WithError | ecomsync/utils.py:27-41 | `@error` holds the title and a one-element message list. Every other entry is kept. |
| Mason.WithNamespace | ecomsync/utils.py:43-57 | `@namespaces` is created when absent and maps the prefix to its URI. The other namespaces and entries are kept. |
| Mason.WithControl | ecomsync/utils.py:59-75 | The document stays well formed and gains exactly the key `@controls`. |
| Mason.WithControlSpec | ecomsync/utils.py:59-75 | `@controls` is created when absent and maps the name to the keyword arguments plus `href`, replacing that control. The other controls and entries are kept. |
| Mason.WithFirstControl | ecomsync/utils.py:71-75 | On a document without controls, the control becomes the only entry of a new `@controls`. |
| Mason.WithControlIdempotent | ecomsync/utils.py:59-75 | Adding the same control twice equals adding it once. |
| Mason.TwoControls | ecomsync/utils.py:59-75 | Two controls added one after the other: the document gets one `@controls` holding both, the second written last. |
| Mason.WithControlCommutes | ecomsync/utils.py:59-75 | Controls with different names can be added in either order. |
| Mason.MasonBuilder.constructor | ecomsync/utils.py:12 | A new builder is an empty document. |
| Mason.MasonBuilder.FromMap | ecomsync/utils.py:12 | A builder made from a dict starts with its entries. |
| Mason.MasonBuilder.Set | ecomsync/resources/manufacturer.py:133 | Item assignment replaces one entry and leaves the document well formed. |
| Mason.MasonBuilder.AddError | ecomsync/utils.py:27-41 | The document becomes `WithError` of the old one. |
| Mason.MasonBuilder.AddNamespace | ecomsync/utils.py:43-57 | The document becomes `WithNamespace` of the old one. |
| Mason.MasonBuilder.AddControl | ecomsync/utils.py:59-75 | The two in-place steps (store the keyword arguments, then set `href`) give `WithControl` of the old document. |
| Mason.MasonBuilder.AddControlPost | ecomsync/utils.py:77-96 | Adds a POST control with JSON encoding, title and schema. |
| Mason.MasonBuilder.AddControlPut | ecomsync/utils.py:98-116 | Adds the control `edit` with PUT, JSON encoding, title and schema. |
| Mason.MasonBuilder.AddControlDelete | ecomsync/utils.py:118-134 | Adds the control `mumeta:delete` with DELETE and a title, and no encoding. |
| Mason.ManufacturerBuilder.constructor | ecomsync/utils.py:136 | A new manufacturer builder is an empty document. |
| Mason.ManufacturerBuilder.FromMap | ecomsync/resources/manufacturer.py:137 | A manufacturer builder made from a serialisation starts with its entries. |
| Mason.ManufacturerBuilder.AddControlAllManufacturers | ecomsync/utils.py:144-157 | Adds `storage:manufacturer-all`, a GET to the collection titled "List of all products". |
| Mason.ManufacturerBuilder.AddControlViewProduct | ecomsync/utils.py:159-176 | Adds `storage:manufacturer`, a GET to the manufacturer's own path carrying the manufacturer schema. |
| Auth.AdminCheck | ecomsync/utils.py:271-276 | The handler runs exactly when some key is admin and the first admin key's hash equals the hash of the stripped header. The lookup fails (500) exactly when no key is admin. Otherwise the answer is 403. |
| Auth.MissingHeaderIsEmpty | ecomsync/utils.py:272 | A missing header counts as an empty one. |
| Auth.AdminCheckIgnoresPadding | ecomsync/utils.py:272 | Whitespace around the header never changes the decision. |
| Auth.OnlyFirstAdminCounts | ecomsync/utils.py:273-276 | A key that matches only a later admin row is refused. |
| Converters.ProductToPython | ecomsync/utils.py:185-203 | A segment yields the stored product whose id it spells, or NotFound exactly when none has it. |
| Converters.ProductToUrl | ecomsync/utils.py:205-215 | The path segment of a product reads back as its id. |
| Converters.ProductConverterRoundTrip | ecomsync/utils.py:185-215 | `to_url` then `to_python` gives back the stored product. |
| Converters.ManufacturerToPython | ecomsync/utils.py:224-243 | A segment yields the stored manufacturer whose id it spells, or NotFound exactly when none has it. |
| Converters.ManufacturerToUrl | ecomsync/utils.py:245-255 | The path segment of a manufacturer reads back as its id. |
| Converters.ManufacturerConverterRoundTrip | ecomsync/utils.py:224-255 | `to_url` then `to_python` gives back the stored manufacturer. |
| ProductResource.NoControlsInProduct | ecomsync/resources/product.py:36-37 | A product's serialisation holds neither `@controls` nor `@namespaces`, so the builder can start from it. |
| ProductResource.ProductListEntry | ecomsync/resources/product.py:31-41 | A listed product holds its serialisation plus a `self` control to its own page. |
| ProductResource.ProductEntries | ecomsync/resources/product.py:31-41 | The listing has one entry per product. |
| ProductResource.ProductEntriesAt | ecomsync/resources/product.py:31-41 | The `k`-th entry of the listing is the `k`-th product's, so products are listed in table order. |
| ProductResource.ProductEntriesSnoc | ecomsync/resources/product.py:31-41 | Each loop turn appends the next product's entry. |
| ProductResource.BuildListEntry | ecomsync/resources/product.py:36-39 | One loop turn's builder equals the specified entry. |
| ProductResource.List | ecomsync/resources/product.py:25-43 | 200 with every product in table order. The detailed form is used exactly for `form=long`, and the default is short. |
| ProductResource.ProductListEntryRoundTrip | ecomsync/resources/product.py:31-41 | A detailed entry, without its control, decodes back to the product. |
| ProductResource.ListingLinksDistinct | ecomsync/resources/product.py:31-41 | No two entries of the listing link to the same page. |
| ProductResource.SkuTaken | ecomsync/resources/product.py:54-59 | The SKU lookup succeeds exactly when some stored product has that SKU. |
| ProductResource.ReadNewProduct | ecomsync/resources/product.py:46-98 | Covers every outcome of validation and the first commit. A taken SKU gives 400 "SKU already exists". A missing key, a failed `float()` or a non-string date gives 500. A date string that does not parse gives the intended 400 (see Findings). A null quantity or image gives 409. The request proceeds exactly when none of these applies, and the new row then holds the posted values under the next id. |
| ProductResource.ReadNewProductAsWritten | ecomsync/resources/product.py:46-98 | The same outcomes with the date read as lines 74-78 are written: a date string that does not parse is a 500, and a 400 comes only from a taken SKU. It proceeds exactly when the corrected reading does, with the same row. |
| ProductResource.ReadNewProductAgrees | ecomsync/resources/product.py:74-78 | The as-written and corrected readings agree on every request except a readable one whose date string does not parse. |
| ProductResource.ReadNewProductFinding | ecomsync/resources/product.py:74-78 | On a valid request whose date string does not parse, the code as written answers 500 and the corrected reading answers 400. |
| ProductResource.ProductDateAsWritten | ecomsync/resources/product.py:74-78 | As written, a date that does not parse escapes the `except` clause and gives 500. |
| ProductResource.ProductDateFinding | ecomsync/resources/product.py:74-78 | On an unparseable date string the code as written answers 500, and the corrected reading answers 400. |
| ProductResource.PostKeepsSkusDistinct | ecomsync/resources/product.py:54-98 | A product created next to distinct SKUs keeps the SKUs distinct. |
| ProductResource.Post | ecomsync/resources/product.py:46-121 | Without JSON, 415. A validation halt of `ReadNewProduct` (the corrected reading) leaves the tables unchanged. Otherwise the product is inserted. If `selectedOptions` cannot be iterated, the product stays and the answer is 500. Otherwise one join row is added per element and the answer is 201. No other table changes. |
| ProductResource.AddJoinRows | ecomsync/resources/product.py:100-109 | The loop appends `JoinRows` for the new product under the next join ids, and nothing else changes. |
| ProductResource.InsertJoinRows | ecomsync/resources/product.py:100-109 | Inserting the rows one at a time, each under the next free key, appends exactly `JoinRows` and keeps the keys ascending. |
| ProductResource.OptionEntry | ecomsync/resources/product.py:142-150 | A shown option holds exactly its id, name and image. |
| ProductResource.OptionEntries | ecomsync/resources/product.py:142-150 | There is one entry per option. |
| ProductResource.OptionEntriesAt | ecomsync/resources/product.py:142-150 | The `k`-th entry shows the `k`-th option, in query order. |
| ProductResource.OptionEntriesSnoc | ecomsync/resources/product.py:146-150 | Each loop turn appends the next option's entry. |
| ProductResource.PageKeysAreNew | ecomsync/resources/product.py:150-153 | `options` and `manufacturer_name` are not product columns, so adding them replaces nothing. |
| ProductResource.ProductPage | ecomsync/resources/product.py:156-170 | The page holds the product's serialisation, its options and its manufacturer's name. |
| ProductResource.ProductPageListsLinkedOptions | ecomsync/resources/product.py:139-150 | A page shows an option exactly when a join row of the product names it. |
| ProductResource.ProductPageOptionsDistinct | ecomsync/resources/product.py:139-150 | A page never shows the same option entry twice. |
| ProductResource.GetItem | ecomsync/resources/product.py:127-170 | An unknown id gives 404 "Product_item not found". A missing manufacturer gives 500. Otherwise 200 with the product page, detailed unless `form` says otherwise. |
| ProductResource.Delete | ecomsync/resources/product.py:173-196 | An unknown id gives 404 "Product not found" and changes nothing. Otherwise the product and its join rows go, its orders lose their reference, and the answer is 200 "Product Deleted Successfully". |
| ProductResource.DeleteJoinRows | ecomsync/resources/product.py:181-187 | The product's join rows are gone, the join table stays ascending, and no other table changes. |
| ProductResource.DeleteLinkedRows | ecomsync/resources/product.py:181-187 | Deleting the queried rows one key at a time leaves exactly the join rows of other products. |
| ProductResource.FloatOrZero | ecomsync/resources/product.py:218-219 | A falsy price or width is 0.0, and anything else goes through `float()`. |
| ProductResource.UpdatedProduct | ecomsync/resources/product.py:205-236 | The update commits exactly when every key is present, both numbers convert, and quantity and image are not null. The new row holds the posted columns and keeps the id, manufacturer and date. Otherwise 500 or 409. |
| ProductResource.UpdateIdempotent | ecomsync/resources/product.py:205-236 | Applying the same update twice equals applying it once. |
| ProductResource.Put | ecomsync/resources/product.py:199-243 | Without JSON, 415. An unknown id gives 404 "Product not found". Otherwise the row is replaced by `UpdatedProduct` and the answer is 200 "Product Updated Successfully", or the halt response with nothing changed. |
| ManufacturerResource.ProductsOf | ecomsync/resources/manufacturer.py:43-44 | The manufacturer's products are exactly the stored products that refer to it. |
| ManufacturerResource.ProductSummary | ecomsync/resources/manufacturer.py:46-70 | A listed product holds its id, its name and a flat GET control to its page. |
| ManufacturerResource.ProductSummariesAt | ecomsync/resources/manufacturer.py:46-70 | The `k`-th summary is the `k`-th product's, in query order. |
| ManufacturerResource.ProductSummariesSnoc | ecomsync/resources/manufacturer.py:46-70 | Each loop turn appends the next product's summary. |
| ManufacturerResource.ManufacturerPage | ecomsync/resources/manufacturer.py:46-78 | The page is a one-element `manufacturer` list. It holds the manufacturer's columns and the summaries of its products, in order. |
| ManufacturerResource.ManufacturerPageListsItsProducts | ecomsync/resources/manufacturer.py:43-70 | A product is listed on the page exactly when it refers to the manufacturer. |
| ManufacturerResource.GetItem | ecomsync/resources/manufacturer.py:34-78 | An unknown id gives 404 "Manufacturer_item not found". Otherwise 200 with the page built product by product. |
| ManufacturerResource.Delete | ecomsync/resources/manufacturer.py:80-90 | An unknown id gives 404 "Product not found". Otherwise the row goes, its products lose their reference, and the answer is 200 "Manufacturer Deleted Successfully". |
| ManufacturerResource.UpdatedManufacturer | ecomsync/resources/manufacturer.py:103-110 | Name, description and image are all replaced by the `*_update` values, with an absent key becoming null. Nothing is committed when the body is not an object. |
| ManufacturerResource.UpdateIgnoresOldColumns | ecomsync/resources/manufacturer.py:103-110 | The updated row does not depend on the old columns. |
| ManufacturerResource.Put | ecomsync/resources/manufacturer.py:92-119 | Without JSON, 415. An unknown id gives 404 "Manufacturer not found". A body that is not an object gives 500. Otherwise 200 "Manufacturer Updated Successfully" with the row replaced. |
| ManufacturerResource.ManufacturerEntry | ecomsync/resources/manufacturer.py:136-139 | A listed manufacturer holds its serialisation and the view control to its own page. |
| ManufacturerResource.CollectionDoc | ecomsync/resources/manufacturer.py:131-142 | The collection holds exactly `items`, with the given entries, and the control to the collection. |
| ManufacturerResource.ManufacturerEntries | ecomsync/resources/manufacturer.py:136-139 | The listing has one entry per manufacturer. |
| ManufacturerResource.ManufacturerEntriesSnoc | ecomsync/resources/manufacturer.py:136-139 | Each loop turn appends the next manufacturer's entry. |
| ManufacturerResource.ManufacturerEntriesAt | ecomsync/resources/manufacturer.py:136-139 | The `k`-th entry is the `k`-th manufacturer's, so every manufacturer is listed in table order. |
| ManufacturerResource.CollectionDocSet | ecomsync/resources/manufacturer.py:133-139 | Replacing `items` leaves the rest of the collection document alone. |
| ManufacturerResource.BuildEntry | ecomsync/resources/manufacturer.py:137-138 | One loop turn's builder equals the specified entry. |
| ManufacturerResource.BuildCollection | ecomsync/resources/manufacturer.py:131-139 | The loop builds the specified collection document. |
| ManufacturerResource.List | ecomsync/resources/manufacturer.py:123-142 | A wrong key gives 403, and no admin key gives 500. Otherwise 200 with the collection, brief exactly for `form=short`. |
| ManufacturerResource.NewManufacturer | ecomsync/resources/manufacturer.py:150-161 | A row is created exactly when the body is an object with all three keys. It holds them under the next id. |
| ManufacturerResource.NewManufacturerSerializes | ecomsync/resources/manufacturer.py:150-161 | A created manufacturer serialises back to the posted name and description. |
| ManufacturerResource.Post | ecomsync/resources/manufacturer.py:145-173 | Without JSON, 415. A missing key gives 500. Otherwise one new row and 201 "Manufacturer Added Successfully". |
| OptionResource.GuardResponse | ecomsync/utils.py:271-276 | The handler runs only when admitted. A refused key gives 403 and a failed lookup gives 500. |
| OptionResource.OptionDocsRoundTrip | ecomsync/resources/option.py:27-36 | Each listed document decodes to the option at the same position. |
| OptionResource.List | ecomsync/resources/option.py:27-36 | Behind the guard, 200 with every option serialised in table order. |
| OptionResource.SerializeAll | ecomsync/resources/option.py:32-34 | The loop gives the specified list of documents. |
| OptionResource.NewOption | ecomsync/resources/option.py:44-58 | A body that is not an object gives 500. A falsy name gives 400 "Missing required field: 'name'". The request proceeds exactly when the body is an object with a truthy name, and the row then holds the name and image, or null when the image is absent. |
| OptionResource.ImageIsOptional | ecomsync/resources/option.py:47-58 | A name alone creates an option with a null image. |
| OptionResource.Post | ecomsync/resources/option.py:38-69 | The guard runs first. Then 415 when the content type is not JSON. Otherwise the row above and 201 "Option Added Successfully". |
| OptionResource.Delete | ecomsync/resources/option.py:73-84 | The guard runs first. An unknown id gives 404 "Option not found". Otherwise the row goes, join rows lose their reference to it, and the answer is 200 "Option Deleted Successfully". |
| OptionResource.UpdatedOption | ecomsync/resources/option.py:98-106 | Name and image take the non-null `*_update` values and otherwise stay. Nothing is committed for a body that is not an object. |
| OptionResource.UpdatedOptionPartial | ecomsync/resources/option.py:98-106 | A body naming neither column leaves the option unchanged, and the update is idempotent. |
| OptionResource.Put | ecomsync/resources/option.py:87-113 | There is no guard. Without JSON, 415. An unknown id gives 404 "Option not found". A body that is not an object gives 500. Otherwise 200 "Option Updated Successfully". |
| OrderResource.OrderDocsAt | ecomsync/resources/order.py:27-34 | Each listed document is the serialisation of the order at that position. |
| OrderResource.List | ecomsync/resources/order.py:22-36 | 200 with every order. The short form is used exactly for `form=short`. |
| OrderResource.NewOrder | ecomsync/resources/order.py:44-85 | A missing key or a non-string date gives 500. An unparseable date gives 400. A null in a NOT NULL column gives 409. The request proceeds exactly when none of these applies, and the row then holds the posted columns, product 212 and the parsed date. |
| OrderResource.NewOrderIgnoresProductId | ecomsync/resources/order.py:50 | A `product_id` in the request has no effect. |
| OrderResource.NewOrderSerializes | ecomsync/resources/order.py:44-85 | A created order serialises back to the posted contact, address and total. |
| OrderResource.Post | ecomsync/resources/order.py:38-91 | Without JSON, 415. A validation halt changes nothing. Otherwise one new order and 201 "Order Added Successfully". |
| Scenarios.CreateThenShowManufacturer | ecomsync/resources/manufacturer.py:34-173 | A manufacturer just created is shown under the next id as the page of the posted record. |
| Scenarios.DeleteThenShowProduct | ecomsync/resources/product.py:127-196 | After a product is deleted, its page is 404 and no join row points at it. |
| Scenarios.DeleteManufacturerThenShowProduct | ecomsync/resources/manufacturer.py:80-90 | After a manufacturer is deleted, the page of one of its products fails with 500. |

## Left out

- HTTP and Flask itself are not modelled:
  - routing, and the `<int:...>` route converter (api.py routes take integers, not the `utils.py` converters);
  - content negotiation, and the HTML error pages `abort` renders;
  - the 400 Flask gives for a body that is not valid JSON.
  - Responses carry only a status and a body.
- The CLI commands in `ecomsync/models.py` (`masterkey`, database setup), `ecomsync/resources/home.py`, the application factory and the frontend are outside the core.
- SQLite column affinity and type coercion are not modelled. A posted string stays a string even in an integer or float column.
- Binding a list or an object as a column value (SQLite refuses it) is not modelled.
- Column length limits are not modelled, since SQLite does not enforce them.
- A JSON object sent as `selectedOptions` is not modelled. Python iterates its keys. The model treats any non-list, non-string value as not iterable.
- Foreign keys are not enforced, as SQLite leaves them off by default. The ORM's nulling of child references on delete is modelled instead (`Orphans`).
- SHA-256, `float()` on strings and `datetime.fromisoformat` are parameters (`Platform.Env`), not implementations.
- `secrets.compare_digest` is modelled as equality. Its constant-time behaviour is not modelled.
- Floating point is modelled as real numbers. Rounding, infinities and NaN are not modelled.
- Row ids are modelled as the last id plus one. SQLite's random choice once the largest id is reached is not modelled.
- The order of join-query results is fixed as table order. SQL does not promise one.
- The description text of a `ValueError` is not modelled. Those 400 responses are `Empty(400)`.
- `ManufacturerConverter` and `ProductConverter` are modelled, but no route uses them.
- Transactions, concurrency and the session life cycle are not modelled. A failed commit leaves the tables as they were.
- ProductResource.ReadNewProduct: answers the intended 400 for a date string that does not parse. The source as written answers 500 there; `ReadNewProductAsWritten` states that behaviour (see Findings).
- ProductResource.Post: built on the corrected `ReadNewProduct`, so it answers 400 for a date string that does not parse, where the source as written answers 500.
- No property of `ApiKey.key_hash` (`Models.KeyHash`) is stated. The uniqueness its docstring claims (models.py:27-29) depends on the collision resistance of SHA-256, which is a parameter here. `Auth.AdminCheck` states what the guard does with the hash.

## Findings

| source | as written | input that shows it | evidently intended | confidence | as-written member | corrected member |
|---|---|---|---|---|---|---|
| ecomsync/resources/product.py:74-78 | The `except` names jsonschema's `ValidationError`, which `datetime.fromisoformat` never raises. A malformed date's `ValueError` escapes as a 500. | A POST to `/api/product/` whose `date_added` is `"yesterday"`, with every other field valid. | A 400, as `order.py` lines 58-61 give for the same parse. | not executed | ProductResource.ReadNewProductAsWritten, whose date step is ProductResource.ProductDateAsWritten (exhibited by ProductResource.ReadNewProductFinding and ProductResource.ProductDateFinding) | ProductResource.ReadNewProduct, whose date step is Requests.ReadDate, used by ProductResource.Post |
