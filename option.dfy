/**
 * The option endpoints (ecomsync/resources/option.py): `/api/option/` lists
 * and creates options, `/api/option/<oid>` deletes and updates one. All but
 * the update run behind `require_admin`.
 */
module OptionResource {
  import opened Wrappers
  import opened Json
  import opened Http
  import opened Models
  import opened Tables
  import opened Orphans
  import opened Auth
  import opened Platform
  import opened Requests
  import opened Catalogue

  /** The response `require_admin` gives in place of the handler, if any. */
  function GuardResponse(g: Guard): (r: Option<Response>)
    ensures r.None? <==> g == Admitted
    ensures g == Refused ==> r == Some(Empty(Forbidden))
    ensures g == NoAdminKey ==> r == Some(Empty(ServerError))
  {
    match g
    case Admitted => None
    case Refused => Some(Empty(Forbidden))
    case NoAdminKey => Some(Empty(ServerError))
  }

  // ---- GET /api/option/ ----

  /** The serialised options, in table order. */
  function OptionDocs(os: seq<Options>): (r: seq<Value>)
    ensures |r| == |os|
  {
    if os == [] then [] else OptionDocs(os[..|os| - 1]) + [Obj(SerializeOptions(os[|os| - 1]))]
  }

  /** Every listed document decodes back to the option at the same position. */
  lemma {:induction false} OptionDocsRoundTrip(os: seq<Options>, k: nat)
    requires k < |os|
    ensures OptionDocs(os)[k].Obj? && DecodeOptions(OptionDocs(os)[k].fields) == Some(os[k])
  {
    if k < |os| - 1 {
      OptionDocsRoundTrip(os[..|os| - 1], k);
    } else {
      OptionsRoundTrip(os[k]);
    }
  }

  /** `get`, behind the admin check: every option, serialised, one at a time. */
  method List(store: Store, env: Env, header: Option<string>) returns (resp: Response)
    ensures var g := AdminCheck(env.sha256, header, store.apiKeys);
            && (g != Admitted ==> Some(resp) == GuardResponse(g))
            && (g == Admitted ==> resp == Response(OK, Obj(map["options" := Arr(OptionDocs(store.options))])))
  {
    var g := GuardResponse(AdminCheck(env.sha256, header, store.apiKeys));
    if g.Some? {
      return g.value;
    }
    var docs := SerializeAll(store.options);
    resp := Response(OK, Obj(map["options" := Arr(docs)]));
  }

  /** The loop of `get`: each option serialised, in table order. */
  method SerializeAll(os: seq<Options>) returns (docs: seq<Value>)
    ensures docs == OptionDocs(os)
  {
    docs := [];
    var i := 0;
    while i < |os|
      invariant 0 <= i <= |os|
      invariant docs == OptionDocs(os[..i])
    {
      assert os[..i + 1][..i] == os[..i];
      docs := docs + [Obj(SerializeOptions(os[i]))];
      i := i + 1;
    }
    assert os[..i] == os;
  }

  // ---- POST /api/option/ ----

  /**
   * The row `post` inserts: the name and image read with `.get` (image is
   * optional); a document that is not an object raises (500) and a falsy
   * name is refused with 400.
   */
  function NewOption(body: Value, id: int): (r: Step<Options>)
    ensures r == Halt(Empty(ServerError)) <==> !body.Obj?
    ensures r == Halt(Message(BadRequest, "Missing required field: 'name'")) <==>
              body.Obj? && !Truthy(GetKey(body, "name").value)
    ensures r.Proceed? <==> body.Obj? && Truthy(GetKey(body, "name").value)
    ensures r.Proceed? ==>
              && r.value == Options(id, GetKey(body, "name").value, GetKey(body, "image").value)
              && Truthy(r.value.name)
  {
    match (GetKey(body, "name"), GetKey(body, "image"))
    case (Some(name), Some(image)) =>
      if !Truthy(name) then Halt(Message(BadRequest, "Missing required field: 'name'"))
      else Proceed(Options(id, name, image))
    case _ => Halt(Empty(ServerError))
  }

  /** An option posted without an image is created with a null image. */
  lemma ImageIsOptional(name: Value, id: int)
    requires Truthy(name)
    ensures NewOption(Obj(map["name" := name]), id) == Proceed(Options(id, name, Null))
  {
  }

  /** `post`: the admin check, then 415 unless the request is JSON (by content type), then the row above. */
  method Post(store: Store, env: Env, header: Option<string>, json: Option<Value>) returns (resp: Response)
    requires store.Valid()
    modifies store
    ensures store.Valid()
    ensures store.apiKeys == old(store.apiKeys) && store.manufacturers == old(store.manufacturers)
    ensures store.products == old(store.products) && store.productOptions == old(store.productOptions)
    ensures store.orders == old(store.orders)
    ensures var g := AdminCheck(env.sha256, header, old(store.apiKeys));
            && (g != Admitted ==> Some(resp) == GuardResponse(g) && store.options == old(store.options))
            && (g == Admitted && json.None? ==>
                  resp == Message(UnsupportedMediaType, "Request content type must be JSON")
                  && store.options == old(store.options))
            && (g == Admitted && json.Some? ==>
                  var step := NewOption(json.value, NextRowId(old(store.options), OptionsKey));
                  && (step.Halt? ==> resp == step.response && store.options == old(store.options))
                  && (step.Proceed? ==>
                        resp == Message(Created, "Option Added Successfully")
                        && store.options == old(store.options) + [step.value]))
  {
    var g := GuardResponse(AdminCheck(env.sha256, header, store.apiKeys));
    if g.Some? {
      return g.value;
    }
    if json.None? {
      return Message(UnsupportedMediaType, "Request content type must be JSON");
    }
    var step := NewOption(json.value, NextRowId(store.options, OptionsKey));
    if step.Halt? {
      return step.response;
    }
    AppendAscending(store.options, OptionsKey, step.value);
    store.options := store.options + [step.value];
    resp := Message(Created, "Option Added Successfully");
  }

  // ---- DELETE /api/option/<oid> ----

  /** `delete`, behind the admin check: 404 for an unknown id; otherwise the row goes and join rows lose their reference to it. */
  method Delete(store: Store, env: Env, header: Option<string>, oid: int) returns (resp: Response)
    requires store.Valid()
    modifies store
    ensures store.Valid()
    ensures store.apiKeys == old(store.apiKeys) && store.manufacturers == old(store.manufacturers)
    ensures store.products == old(store.products) && store.orders == old(store.orders)
    ensures var g := AdminCheck(env.sha256, header, old(store.apiKeys));
            var found := IndexOf(old(store.options), OptionsKey, oid);
            && (g != Admitted ==>
                  Some(resp) == GuardResponse(g)
                  && store.options == old(store.options) && store.productOptions == old(store.productOptions))
            && (g == Admitted && found.None? ==>
                  resp == Message(NotFound, "Option not found")
                  && store.options == old(store.options) && store.productOptions == old(store.productOptions))
            && (g == Admitted && found.Some? ==>
                  resp == Message(OK, "Option Deleted Successfully")
                  && store.options == RemoveAt(old(store.options), found.value)
                  && store.productOptions == DetachJoinRows(old(store.productOptions), oid))
  {
    var g := GuardResponse(AdminCheck(env.sha256, header, store.apiKeys));
    if g.Some? {
      return g.value;
    }
    var found := IndexOf(store.options, OptionsKey, oid);
    if found.None? {
      return Message(NotFound, "Option not found");
    }
    RemoveAtSpec(store.options, OptionsKey, found.value);
    DetachJoinRowsSpec(store.productOptions, oid);
    store.options := RemoveAt(store.options, found.value);
    store.productOptions := DetachJoinRows(store.productOptions, oid);
    resp := Message(OK, "Option Deleted Successfully");
  }

  // ---- PUT /api/option/<oid> ----

  /**
   * The row `put` commits: a partial update, where only `name_update` and
   * `image_update` values that are present and not null replace the
   * columns; nothing when the document is not an object (`.get` raises).
   */
  function UpdatedOption(body: Value, o: Options): (r: Option<Options>)
    ensures r.Some? <==> body.Obj?
    ensures r.Some? ==> r.value.optionId == o.optionId
    ensures r.Some? ==> r.value.name == (if GetKey(body, "name_update").value != Null then GetKey(body, "name_update").value else o.name)
    ensures r.Some? ==> r.value.image == (if GetKey(body, "image_update").value != Null then GetKey(body, "image_update").value else o.image)
  {
    match (GetKey(body, "name_update"), GetKey(body, "image_update"))
    case (Some(name), Some(image)) =>
      var o' := if name != Null then o.(name := name) else o;
      Some(if image != Null then o'.(image := image) else o')
    case _ => None
  }

  /** A document naming neither column leaves the option as it was, and an update repeated changes nothing more. */
  lemma UpdatedOptionPartial(body: Value, o: Options)
    requires body.Obj?
    ensures "name_update" !in body.fields && "image_update" !in body.fields ==> UpdatedOption(body, o) == Some(o)
    ensures UpdatedOption(body, UpdatedOption(body, o).value) == UpdatedOption(body, o)
  {
  }

  /** `put` (no admin check): 415 unless the request is JSON, 404 for an unknown id, 500 for a document that is not an object. */
  method Put(store: Store, oid: int, json: Option<Value>) returns (resp: Response)
    requires store.Valid()
    modifies store
    ensures store.Valid()
    ensures store.apiKeys == old(store.apiKeys) && store.manufacturers == old(store.manufacturers)
    ensures store.products == old(store.products) && store.productOptions == old(store.productOptions)
    ensures store.orders == old(store.orders)
    ensures !JsonRequest(json) ==>
              resp == Message(UnsupportedMediaType, "Request content type must be JSON") && store.options == old(store.options)
    ensures JsonRequest(json) && IndexOf(old(store.options), OptionsKey, oid).None? ==>
              resp == Message(NotFound, "Option not found") && store.options == old(store.options)
    ensures JsonRequest(json) && IndexOf(old(store.options), OptionsKey, oid).Some? ==>
              var i := IndexOf(old(store.options), OptionsKey, oid).value;
              var u := UpdatedOption(json.value, old(store.options)[i]);
              && (u.None? ==> resp == Empty(ServerError) && store.options == old(store.options))
              && (u.Some? ==> resp == Message(OK, "Option Updated Successfully") && store.options == old(store.options)[i := u.value])
  {
    if !JsonRequest(json) {
      return Message(UnsupportedMediaType, "Request content type must be JSON");
    }
    var found := IndexOf(store.options, OptionsKey, oid);
    if found.None? {
      return Message(NotFound, "Option not found");
    }
    var u := UpdatedOption(json.value, store.options[found.value]);
    if u.None? {
      return Empty(ServerError);
    }
    ReplaceAscending(store.options, OptionsKey, found.value, u.value);
    store.options := store.options[found.value := u.value];
    resp := Message(OK, "Option Updated Successfully");
  }
}
