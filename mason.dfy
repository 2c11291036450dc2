/**
 * The Mason hypermedia builder (`MasonBuilder` and `ManufacturerBuilder` in
 * ecomsync/utils.py): a JSON object under construction whose `@error`,
 * `@namespaces` and `@controls` entries are filled in step by step. The
 * functions state what each step makes of the document; the classes perform
 * the steps in place.
 */
module Mason {
  import opened Json
  import opened Models
  import opened Routes

  /** The entries the builder extends in place are objects whenever they are present. */
  predicate WellFormed(doc: map<string, Value>) {
    && ("@controls" in doc ==> doc["@controls"].Obj?)
    && ("@namespaces" in doc ==> doc["@namespaces"].Obj?)
  }

  /** The object stored under `key`, or the empty object when there is none. */
  function Section(doc: map<string, Value>, key: string): map<string, Value> {
    if key in doc && doc[key].Obj? then doc[key].fields else map[]
  }

  function Controls(doc: map<string, Value>): map<string, Value> {
    Section(doc, "@controls")
  }

  function Namespaces(doc: map<string, Value>): map<string, Value> {
    Section(doc, "@namespaces")
  }

  /** `add_error`: `@error` now holds the title and the one detail message, replacing any earlier error. */
  function WithError(doc: map<string, Value>, title: string, details: string): (r: map<string, Value>)
    ensures r.Keys == doc.Keys + {"@error"}
    ensures r["@error"] == Obj(map["@message" := Str(title), "@messages" := Arr([Str(details)])])
    ensures forall k :: k in doc && k != "@error" ==> r[k] == doc[k]
    ensures WellFormed(doc) ==> WellFormed(r)
  {
    doc["@error" := Obj(map["@message" := Str(title), "@messages" := Arr([Str(details)])])]
  }

  /**
   * `add_namespace`: `@namespaces` (created when absent) maps `ns` to its
   * URI and keeps every other namespace; no other top-level entry changes.
   */
  function WithNamespace(doc: map<string, Value>, ns: string, uri: string): (r: map<string, Value>)
    requires WellFormed(doc)
    ensures WellFormed(r)
    ensures r.Keys == doc.Keys + {"@namespaces"}
    ensures forall k :: k in doc && k != "@namespaces" ==> r[k] == doc[k]
    ensures Namespaces(r).Keys == Namespaces(doc).Keys + {ns}
    ensures Namespaces(r)[ns] == Obj(map["name" := Str(uri)])
    ensures forall n :: n in Namespaces(doc) && n != ns ==> Namespaces(r)[n] == Namespaces(doc)[n]
    ensures "@namespaces" !in doc ==> Namespaces(r).Keys == {ns}
  {
    var d := if "@namespaces" !in doc then doc["@namespaces" := Obj(map[])] else doc;
    d["@namespaces" := Obj(d["@namespaces"].fields[ns := Obj(map["name" := Str(uri)])])]
  }

  /**
   * `add_control`: `@controls` (created when absent) maps `name` to the
   * keyword arguments with `href` added, replacing any control of that name.
   * `WithControlSpec` states what else it keeps.
   */
  function WithControl(doc: map<string, Value>, name: string, href: string, kwargs: map<string, Value>): (r: map<string, Value>)
    requires WellFormed(doc)
    ensures WellFormed(r)
    ensures r.Keys == doc.Keys + {"@controls"}
  {
    var d := if "@controls" !in doc then doc["@controls" := Obj(map[])] else doc;
    d["@controls" := Obj(d["@controls"].fields[name := Obj(kwargs["href" := Str(href)])])]
  }

  /**
   * What `add_control` leaves in place: the other top-level entries and the
   * other controls are unchanged, and the new control holds exactly the
   * keyword arguments and `href`.
   */
  lemma WithControlSpec(doc: map<string, Value>, name: string, href: string, kwargs: map<string, Value>)
    requires WellFormed(doc)
    ensures var r := WithControl(doc, name, href, kwargs);
      && (forall k :: k in doc && k != "@controls" ==> r[k] == doc[k])
      && Controls(r).Keys == Controls(doc).Keys + {name}
      && Controls(r)[name].Obj?
      && Controls(r)[name].fields.Keys == kwargs.Keys + {"href"}
      && Controls(r)[name].fields["href"] == Str(href)
      && (forall k :: k in kwargs && k != "href" ==> Controls(r)[name].fields[k] == kwargs[k])
      && (forall c :: c in Controls(doc) && c != name ==> Controls(r)[c] == Controls(doc)[c])
      && ("@controls" !in doc ==> Controls(r).Keys == {name})
  {
  }

  /** On a document without controls, `add_control` creates `@controls` holding that one control. */
  lemma WithFirstControl(doc: map<string, Value>, name: string, href: string, kwargs: map<string, Value>)
    requires WellFormed(doc) && "@controls" !in doc
    ensures WithControl(doc, name, href, kwargs) == doc["@controls" := Obj(map[name := Obj(kwargs["href" := Str(href)])])]
  {
  }

  /** Adding the same control twice leaves the document as adding it once. */
  lemma WithControlIdempotent(doc: map<string, Value>, name: string, href: string, kwargs: map<string, Value>)
    requires WellFormed(doc)
    ensures WithControl(WithControl(doc, name, href, kwargs), name, href, kwargs) == WithControl(doc, name, href, kwargs)
  {
    var once := WithControl(doc, name, href, kwargs);
    var twice := WithControl(once, name, href, kwargs);
    assert twice["@controls"].fields == once["@controls"].fields;
  }

  /** Controls of different names can be added in either order. */
  lemma WithControlCommutes(doc: map<string, Value>, n1: string, h1: string, k1: map<string, Value>,
                            n2: string, h2: string, k2: map<string, Value>)
    requires WellFormed(doc) && n1 != n2
    ensures WithControl(WithControl(doc, n1, h1, k1), n2, h2, k2) == WithControl(WithControl(doc, n2, h2, k2), n1, h1, k1)
  {
    var base := if "@controls" !in doc then doc["@controls" := Obj(map[])] else doc;
    var c := base["@controls"].fields;
    var v1, v2 := Obj(k1["href" := Str(h1)]), Obj(k2["href" := Str(h2)]);
    TwoControls(doc, n1, h1, k1, n2, h2, k2);
    TwoControls(doc, n2, h2, k2, n1, h1, k1);
    assert c[n1 := v1][n2 := v2] == c[n2 := v2][n1 := v1];
  }

  /** Two controls added one after the other, written out. */
  lemma TwoControls(doc: map<string, Value>, n1: string, h1: string, k1: map<string, Value>,
                    n2: string, h2: string, k2: map<string, Value>)
    requires WellFormed(doc)
    ensures var base := if "@controls" !in doc then doc["@controls" := Obj(map[])] else doc;
      WithControl(WithControl(doc, n1, h1, k1), n2, h2, k2) ==
        base["@controls" := Obj(base["@controls"].fields[n1 := Obj(k1["href" := Str(h1)])][n2 := Obj(k2["href" := Str(h2)])])]
  {
  }

  /**
   * The relation name the source defines for delete controls. Nothing reads
   * it, since `add_control_delete` names its control `mumeta:delete`; it is
   * kept so that every constant of the builder module has a counterpart.
   */
  const DeleteRelation := ""

  class MasonBuilder {
    var doc: map<string, Value>

    ghost predicate Valid()
      reads this
    {
      WellFormed(doc)
    }

    /** `MasonBuilder()`: an empty document. */
    constructor ()
      ensures Valid() && doc == map[]
    {
      doc := map[];
    }

    /** `MasonBuilder(d)`: a builder that starts from the entries of `d`. */
    constructor FromMap(d: map<string, Value>)
      requires WellFormed(d)
      ensures Valid() && doc == d
    {
      doc := d;
    }

    /** `builder[key] = value`, for an entry the builder does not manage itself. */
    method Set(key: string, value: Value)
      requires Valid() && key != "@controls" && key != "@namespaces"
      modifies this
      ensures Valid() && doc == old(doc)[key := value]
    {
      doc := doc[key := value];
    }

    method AddError(title: string, details: string)
      requires Valid()
      modifies this
      ensures Valid() && doc == WithError(old(doc), title, details)
    {
      doc := doc["@error" := Obj(map["@message" := Str(title), "@messages" := Arr([Str(details)])])];
    }

    method AddNamespace(ns: string, uri: string)
      requires Valid()
      modifies this
      ensures Valid() && doc == WithNamespace(old(doc), ns, uri)
    {
      if "@namespaces" !in doc {
        doc := doc["@namespaces" := Obj(map[])];
      }
      doc := doc["@namespaces" := Obj(doc["@namespaces"].fields[ns := Obj(map["name" := Str(uri)])])];
    }

    method AddControl(name: string, href: string, kwargs: map<string, Value>)
      requires Valid()
      modifies this
      ensures Valid() && doc == WithControl(old(doc), name, href, kwargs)
    {
      if "@controls" !in doc {
        doc := doc["@controls" := Obj(map[])];
      }
      ghost var before := doc["@controls"].fields;
      doc := doc["@controls" := Obj(doc["@controls"].fields[name := Obj(kwargs)])];
      var control := doc["@controls"].fields[name].fields;
      doc := doc["@controls" := Obj(doc["@controls"].fields[name := Obj(control["href" := Str(href)])])];
      assert doc["@controls"].fields == before[name := Obj(kwargs["href" := Str(href)])];
    }

    /** `add_control_post`: method POST, JSON encoding, the given title and schema. */
    method AddControlPost(name: string, title: string, href: string, schema: Value)
      requires Valid()
      modifies this
      ensures Valid()
      ensures doc == WithControl(old(doc), name, href,
        map["method" := Str("POST"), "encoding" := Str("json"), "title" := Str(title), "schema" := schema])
    {
      AddControl(name, href, map["method" := Str("POST"), "encoding" := Str("json"), "title" := Str(title), "schema" := schema]);
    }

    /** `add_control_put`: always the control named `edit`, method PUT, JSON encoding. */
    method AddControlPut(title: string, href: string, schema: Value)
      requires Valid()
      modifies this
      ensures Valid()
      ensures doc == WithControl(old(doc), "edit", href,
        map["method" := Str("PUT"), "encoding" := Str("json"), "title" := Str(title), "schema" := schema])
    {
      AddControl("edit", href, map["method" := Str("PUT"), "encoding" := Str("json"), "title" := Str(title), "schema" := schema]);
    }

    /** `add_control_delete`: always the control named `mumeta:delete` (not `DeleteRelation`), method DELETE, no encoding. */
    method AddControlDelete(title: string, href: string)
      requires Valid()
      modifies this
      ensures Valid()
      ensures doc == WithControl(old(doc), "mumeta:delete", href, map["method" := Str("DELETE"), "title" := Str(title)])
      ensures "encoding" !in Controls(doc)["mumeta:delete"].fields
    {
      AddControl("mumeta:delete", href, map["method" := Str("DELETE"), "title" := Str(title)]);
    }
  }

  /** The keyword arguments of the control linking to the manufacturer collection. */
  const AllManufacturersControl: map<string, Value> :=
    map["method" := Str("GET"), "title" := Str("List of all products")]

  /** The keyword arguments of the control linking to one manufacturer, with its schema. */
  const ViewManufacturerControl: map<string, Value> :=
    map["method" := Str("GET"), "title" := Str("View a manufacturer"), "schema" := Obj(ManufacturerSchema())]

  /** `ManufacturerBuilder`: a Mason builder with the two manufacturer controls. */
  class ManufacturerBuilder {
    const base: MasonBuilder

    ghost predicate Valid()
      reads this, base
    {
      base.Valid()
    }

    constructor ()
      ensures Valid() && fresh(base) && base.doc == map[]
    {
      base := new MasonBuilder();
    }

    constructor FromMap(d: map<string, Value>)
      requires WellFormed(d)
      ensures Valid() && fresh(base) && base.doc == d
    {
      base := new MasonBuilder.FromMap(d);
    }

    /** `add_control_all_manufacturers`: a GET control named `storage:manufacturer-all` to the collection. */
    method AddControlAllManufacturers()
      requires Valid()
      modifies base
      ensures Valid()
      ensures base.doc == WithControl(old(base.doc), "storage:manufacturer-all", ManufacturerCollectionUrl, AllManufacturersControl)
    {
      base.AddControl("storage:manufacturer-all", ManufacturerCollectionUrl, AllManufacturersControl);
    }

    /** `add_control_view_product`: a GET control named `storage:manufacturer` to the manufacturer, carrying its schema. */
    method AddControlViewProduct(m: Manufacturer)
      requires Valid()
      modifies base
      ensures Valid()
      ensures base.doc == WithControl(old(base.doc), "storage:manufacturer", ManufacturerItemUrl(m.manufacturerId), ViewManufacturerControl)
    {
      base.AddControl("storage:manufacturer", ManufacturerItemUrl(m.manufacturerId), ViewManufacturerControl);
    }
  }
}
