/**
 * The Content API request handlers: login, the two listings, the render and
 * model uploads, the contact form and the two deletions. The metadata store
 * (three collections) and the media host (the stored assets) are fields of
 * `ContentApi`; each handler is a method that answers with a status and a JSON
 * body and changes those fields as the handler does, in the same order.
 * Errors thrown by the store or the media host are parameters of the methods.
 */
module Api {
  import opened Js
  import opened Db
  import opened SortSpec

  /** The resource classification passed to the media host (`resource_type`). */
  datatype Kind = Image | Raw

  /**
   * An asset on the media host. The host tells assets apart by handle and
   * classification together, so destroying a handle under the wrong
   * classification leaves the asset in place.
   */
  datatype Asset = Asset(handle: string, kind: Kind)

  /**
   * A file the upload middleware has already stored on the media host: `path`
   * is its public URL, `filename` its deletion handle, and `kind` the
   * classification the host chose for it (the upload asks for 'auto').
   */
  datatype File = File(path: string, filename: string, kind: Kind)

  function AssetOf(f: File): Asset {
    Asset(f.filename, f.kind)
  }

  /** The assets the middleware stored for an optional file field. */
  function Uploaded(f: Option<File>): (s: set<Asset>)
    ensures f.None? ==> s == {}
    ensures f.Some? ==> s == {AssetOf(f.value)}
  {
    if f.Some? then {AssetOf(f.value)} else {}
  }

  /** The `:id` route parameter: an ObjectId, or text the store cannot cast to one. */
  datatype IdParam = ObjectId(id: Id) | Uncastable(text: string)

  /** A destructive call made on the media host or the metadata store. */
  datatype Call = DestroyCall(asset: Asset) | DeleteRenderRow(id: Id) | DeleteModelRow(id: Id)

  /** The JSON bodies the handlers send. */
  datatype Body =
    | Succeeded(message: string)           // {success: true, message}
    | Refused(reason: string)              // {success: false, error}
    | Error(error: Option<string>)         // {error}; the key is dropped when the value is undefined
    | DatabaseError(details: Option<string>) // {error: 'Database Error', details}
    | Renders(renders: seq<Render>)
    | Models(models: seq<Model>)
    | RenderCreated(render: Render)
    | ModelCreated(model: Model)
    | MessageStored(id: Id)                // {success: true, id}

  datatype Response = Response(status: int, body: Body)

  const DefaultAdminPassword := "admin123"
  const SizeTooLarge := "File size too large for Cloudinary (Max 10MB)"

  /** The configured `ADMIN_PASSWORD`, or the built-in one when it is unset or empty. */
  function AdminPassword(configured: Option<string>): string {
    OrElse(configured, DefaultAdminPassword)
  }

  /** POST /api/login: the submitted password against the configured one; no state is involved. */
  function Login(password: Option<string>, configured: Option<string>): (r: Response)
    ensures r.status == 200 <==> password == Some(AdminPassword(configured))
    ensures r.status == 200 ==> r.body == Succeeded("Authenticated")
    ensures r.status != 200 ==> r == Response(401, Refused("Incorrect password"))
  {
    if password == Some(AdminPassword(configured)) then Response(200, Succeeded("Authenticated"))
    else Response(401, Refused("Incorrect password"))
  }

  /** The error text the upload handlers send for an error caught inside them. */
  function UploadError(message: Option<string>): (text: string)
    ensures Truthy(message) && Includes(message.value, "size") ==> text == SizeTooLarge
    ensures Truthy(message) && !Includes(message.value, "size") ==> text == message.value
    ensures !Truthy(message) ==> text == "Upload failed"
  {
    if Truthy(message) && Includes(message.value, "size") then SizeTooLarge
    else OrElse(message, "Upload failed")
  }

  /** The text of the error `findById` raises for an id it cannot cast. */
  function CastErrorMessage(text: string, modelName: string): string {
    "Cast to ObjectId failed for value \"" + text + "\" (type string) at path \"_id\" for model \"" + modelName + "\""
  }

  /** The fields the render upload hands to the schema. */
  function RenderFieldsOf(title: Option<string>, subtitle: Option<string>, f: File): RenderFields {
    RenderFields(Some(OrElse(title, "")), Some(OrElse(subtitle, "")), Some(f.path), Some(f.filename), None)
  }

  /** The fields the model upload hands to the schema. */
  function ModelFieldsOf(name: Option<string>, modelFile: File, thumbnailFile: Option<File>): ModelFields {
    ModelFields(
      Some(OrElse(name, "")), Some(modelFile.path), Some(modelFile.filename), None,
      if thumbnailFile.Some? then Some(thumbnailFile.value.path) else None,
      if thumbnailFile.Some? then Some(thumbnailFile.value.filename) else None)
  }

  /** Renders are listed by `order` ascending, then `createdAt` ascending. */
  function RenderKey(r: Render): Key {
    (r.order, r.createdAt)
  }

  /** Models are listed by `createdAt` descending. */
  function ModelKey(m: Model): Key {
    (-(m.createdAt as int), 0)
  }

  function RenderId(r: Render): Id { r.id }
  function ModelId(m: Model): Id { m.id }

  /** `rows` holds exactly the stored renders, in listing order. */
  ghost predicate RenderListing(rows: seq<Render>, stored: map<Id, Render>) {
    Listing(rows, stored, RenderId, RenderKey)
  }

  /** `rows` holds exactly the stored models, in listing order. */
  ghost predicate ModelListing(rows: seq<Model>, stored: map<Id, Model>) {
    Listing(rows, stored, ModelId, ModelKey)
  }

  /** The destroy calls the render deletion plans, in order. */
  function RenderDestroys(r: Render): (plan: seq<Asset>)
    ensures plan == [] <==> r.cloudinaryId == ""
    ensures |plan| <= 1
    ensures forall a | a in plan :: a == Asset(r.cloudinaryId, Image)
    ensures StoredRender(r) ==> plan == [Asset(r.cloudinaryId, Image)]
  {
    if r.cloudinaryId != "" then [Asset(r.cloudinaryId, Image)] else []
  }

  /** The destroy calls the model deletion plans, in order: primary file, then thumbnail. */
  function ModelDestroys(m: Model): (plan: seq<Asset>)
    ensures |plan| == (if m.cloudinaryId != "" then 1 else 0) + (if Truthy(m.thumbnailCloudinaryId) then 1 else 0)
    ensures Asset(m.cloudinaryId, Raw) in plan <==> m.cloudinaryId != ""
    ensures forall a | a in plan :: a.kind == Raw <==> a == Asset(m.cloudinaryId, Raw)
    ensures forall a | a in plan && a.kind == Image :: Truthy(m.thumbnailCloudinaryId) && a.handle == m.thumbnailCloudinaryId.value
    ensures Truthy(m.thumbnailCloudinaryId) ==> plan != [] && plan[|plan| - 1] == Asset(m.thumbnailCloudinaryId.value, Image)
    ensures StoredModel(m) ==> plan != [] && plan[0] == Asset(m.cloudinaryId, Raw)
  {
    (if m.cloudinaryId != "" then [Asset(m.cloudinaryId, Raw)] else []) + ThumbnailDestroys(m)
  }

  /** The thumbnail part of the model deletion's plan. */
  function ThumbnailDestroys(m: Model): (plan: seq<Asset>)
    ensures plan == [] <==> !Truthy(m.thumbnailCloudinaryId)
    ensures plan != [] ==> plan == [Asset(m.thumbnailCloudinaryId.value, Image)]
  {
    if Truthy(m.thumbnailCloudinaryId) then [Asset(m.thumbnailCloudinaryId.value, Image)] else []
  }

  /** The calls of `plan` that are made: all of them, up to and including the first that throws. */
  function Attempted(plan: seq<Asset>, faults: map<Asset, Fault>): (calls: seq<Asset>)
    ensures calls <= plan
    ensures forall i | 0 <= i < |calls| - 1 :: calls[i] !in faults
    ensures calls == plan || (calls != [] && calls[|calls| - 1] in faults)
  {
    if plan == [] then []
    else if plan[0] in faults then [plan[0]]
    else [plan[0]] + Attempted(plan[1..], faults)
  }

  /** The error of the first call of `plan` that throws, if any. */
  function FirstFault(plan: seq<Asset>, faults: map<Asset, Fault>): (f: Option<Fault>)
    ensures f.None? <==> forall a | a in plan :: a !in faults
    ensures f.Some? ==> exists a | a in plan :: a in faults && f.value == faults[a]
    ensures f.Some? ==>
      var calls := Attempted(plan, faults);
      calls != [] && calls[|calls| - 1] in faults && f.value == faults[calls[|calls| - 1]]
  {
    if plan == [] then None
    else if plan[0] in faults then Some(faults[plan[0]])
    else
      assert forall a | a in plan[1..] :: a in plan;
      assert forall a | a in plan :: a == plan[0] || a in plan[1..];
      FirstFault(plan[1..], faults)
  }

  /** The assets that the calls of `calls` that do not throw remove. */
  function Removed(calls: seq<Asset>, faults: map<Asset, Fault>): (gone: set<Asset>)
    ensures forall a | a in gone :: a in calls && a !in faults
    ensures forall i | 0 <= i < |calls| && calls[i] !in faults :: calls[i] in gone
  {
    if calls == [] then {}
    else (if calls[0] in faults then {} else {calls[0]}) + Removed(calls[1..], faults)
  }

  function DestroyCalls(assets: seq<Asset>): (calls: seq<Call>)
    ensures |calls| == |assets|
    ensures forall i | 0 <= i < |assets| :: calls[i] == DestroyCall(assets[i])
  {
    if assets == [] then [] else [DestroyCall(assets[0])] + DestroyCalls(assets[1..])
  }

  /**
   * What every handler keeps true of the metadata store: each row sits under its
   * own id and carries its schema's required fields; no render or model was
   * ever updated; stored models keep the default type and a thumbnail URL
   * exactly when they keep a thumbnail handle; ids are never shared between
   * collections and all lie below the next fresh id. The store hands out ids
   * and creation times from one counter (an ObjectId starts with its creation
   * time), so a row's `createdAt` is its id and no two rows share one.
   */
  ghost predicate Consistent(renders: map<Id, Render>, models: map<Id, Model>, messages: map<Id, Message>, nextId: Id) {
    && (forall id | id in renders ::
          renders[id].id == id && id < nextId && renders[id].createdAt == id && StoredRender(renders[id]))
    && (forall id | id in models ::
          && models[id].id == id && id < nextId && models[id].createdAt == id && StoredModel(models[id])
          && models[id].fileType == DefaultModelType
          && (models[id].thumbnailUrl.Some? <==> models[id].thumbnailCloudinaryId.Some?))
    && (forall id | id in messages ::
          messages[id].id == id && id < nextId && messages[id].createdAt == id && StoredMessage(messages[id]))
    && renders.Keys !! models.Keys && renders.Keys !! messages.Keys && models.Keys !! messages.Keys
  }

  /** Inserting a fresh stored render under the next fresh id keeps the store consistent. */
  lemma AddRenderConsistent(renders: map<Id, Render>, models: map<Id, Model>, messages: map<Id, Message>, nextId: Id, r: Render)
    requires Consistent(renders, models, messages, nextId)
    requires r.id == nextId && r.createdAt == nextId && StoredRender(r)
    ensures Consistent(renders[r.id := r], models, messages, nextId + 1)
  {
  }

  /** Inserting a fresh stored model under the next fresh id keeps the store consistent. */
  lemma AddModelConsistent(renders: map<Id, Render>, models: map<Id, Model>, messages: map<Id, Message>, nextId: Id, m: Model)
    requires Consistent(renders, models, messages, nextId)
    requires m.id == nextId && m.createdAt == nextId && StoredModel(m)
    requires m.fileType == DefaultModelType && (m.thumbnailUrl.Some? <==> m.thumbnailCloudinaryId.Some?)
    ensures Consistent(renders, models[m.id := m], messages, nextId + 1)
  {
  }

  /** Inserting a fresh stored message under the next fresh id keeps the store consistent. */
  lemma AddMessageConsistent(renders: map<Id, Render>, models: map<Id, Model>, messages: map<Id, Message>, nextId: Id, m: Message)
    requires Consistent(renders, models, messages, nextId)
    requires m.id == nextId && m.createdAt == nextId && StoredMessage(m)
    ensures Consistent(renders, models, messages[m.id := m], nextId + 1)
  {
  }

  /** A call that throws ends the plan, removes nothing and is the plan's error. */
  lemma AttemptedThrows(a: Asset, rest: seq<Asset>, faults: map<Asset, Fault>)
    requires a in faults
    ensures Attempted([a] + rest, faults) == [a]
    ensures FirstFault([a] + rest, faults) == Some(faults[a])
    ensures Removed([a], faults) == {}
  {
  }

  /** A plan of one call. */
  lemma AttemptedSingle(a: Asset, faults: map<Asset, Fault>)
    ensures Attempted([a], faults) == [a]
    ensures FirstFault([a], faults) == if a in faults then Some(faults[a]) else None
    ensures Removed([a], faults) == if a in faults then {} else {a}
    ensures DestroyCalls([a]) == [DestroyCall(a)]
  {
  }

  /** A call that succeeds is followed by the rest of the plan. */
  lemma {:induction false} AttemptedSucceeds(a: Asset, rest: seq<Asset>, faults: map<Asset, Fault>)
    requires a !in faults
    ensures Attempted([a] + rest, faults) == [a] + Attempted(rest, faults)
    ensures FirstFault([a] + rest, faults) == FirstFault(rest, faults)
    ensures Removed([a] + Attempted(rest, faults), faults) == {a} + Removed(Attempted(rest, faults), faults)
    ensures DestroyCalls([a] + Attempted(rest, faults)) == [DestroyCall(a)] + DestroyCalls(Attempted(rest, faults))
  {
    assert ([a] + rest)[1..] == rest;
    var calls := Attempted(rest, faults);
    if calls != [] {
      assert ([a] + calls)[|[a] + calls| - 1] == calls[|calls| - 1];
    }
    assert ([a] + calls)[1..] == calls;
  }

  class ContentApi {
    var renders: map<Id, Render>
    var models: map<Id, Model>
    var messages: map<Id, Message>
    /** The assets on the media host. */
    var media: set<Asset>
    /** The destructive calls made so far, in order. */
    var trace: seq<Call>
    /** The next fresh id, which is also the store time of the next insertion. */
    var nextId: Id

    ghost predicate Valid()
      reads this
    {
      Consistent(renders, models, messages, nextId)
    }

    /** Empty stores and an empty media host. */
    constructor ()
      ensures Valid()
      ensures renders == map[] && models == map[] && messages == map[]
      ensures media == {} && trace == [] && nextId == 0
    {
      renders, models, messages := map[], map[], map[];
      media, trace := {}, [];
      nextId := 0;
    }

    /** GET /api/renders */
    method ListRenders(fault: Option<Fault>) returns (resp: Response)
      requires Valid()
      ensures fault.Some? ==> resp == Response(500, DatabaseError(fault.value.message))
      ensures fault.None? ==> resp.status == 200 && resp.body.Renders?
      ensures fault.None? ==> RenderListing(resp.body.renders, renders)
      ensures fault.None? ==> |resp.body.renders| == |renders|
    {
      if fault.Some? {
        return Response(500, DatabaseError(fault.value.message));
      }
      var rows := SortedRows(renders, RenderId, RenderKey);
      resp := Response(200, Renders(rows));
    }

    /** GET /api/models */
    method ListModels(fault: Option<Fault>) returns (resp: Response)
      requires Valid()
      ensures fault.Some? ==> resp == Response(500, DatabaseError(fault.value.message))
      ensures fault.None? ==> resp.status == 200 && resp.body.Models?
      ensures fault.None? ==> ModelListing(resp.body.models, models)
      ensures fault.None? ==> |resp.body.models| == |models|
    {
      if fault.Some? {
        return Response(500, DatabaseError(fault.value.message));
      }
      var rows := SortedRows(models, ModelId, ModelKey);
      resp := Response(200, Models(rows));
    }

    /**
     * POST /api/upload/render. The middleware has stored `file` on the media host
     * before the handler runs; a failed save leaves that asset in place.
     */
    method UploadRender(title: Option<string>, subtitle: Option<string>, file: Option<File>, saveFault: Option<Fault>)
      returns (resp: Response)
      requires Valid()
      modifies this
      ensures Valid()
      ensures models == old(models) && messages == old(messages) && trace == old(trace)
      ensures file.None? ==> resp == Response(400, Error(Some("No file uploaded"))) && unchanged(this)
      ensures media == old(media) + Uploaded(file)
      ensures resp.status == 201 <==> file.Some? && file.value.path != "" && file.value.filename != "" && saveFault.None?
      ensures resp.status == 201 ==>
        && resp.body.RenderCreated?
        && var r := resp.body.render;
        && r.id == old(nextId) && r.id !in old(renders) && renders == old(renders)[r.id := r]
        && r.title == OrElse(title, "") && r.subtitle == OrElse(subtitle, "")
        && r.imageUrl == file.value.path && r.cloudinaryId == file.value.filename
        && r.order == 0 && r.createdAt == old(nextId) && r.updatedAt == old(nextId)
        && nextId == old(nextId) + 1
      ensures resp.status != 201 ==> renders == old(renders) && nextId == old(nextId)
      ensures file.Some? && resp.status != 201 ==>
        var built := NewRender(RenderFieldsOf(title, subtitle, file.value), old(nextId), old(nextId));
        resp == Response(500, Error(Some(UploadError(
                  if built.Err? then Some(ValidationMessage(built.error)) else saveFault.value.message))))
    {
      if file.None? {
        return Response(400, Error(Some("No file uploaded")));
      }
      var f := file.value;
      media := media + {AssetOf(f)};
      var built := NewRender(RenderFieldsOf(title, subtitle, f), nextId, nextId);
      if built.Err? {
        return Response(500, Error(Some(UploadError(Some(ValidationMessage(built.error))))));
      }
      if saveFault.Some? {
        return Response(500, Error(Some(UploadError(saveFault.value.message))));
      }
      var r := built.value;
      AddRenderConsistent(renders, models, messages, nextId, r);
      renders := renders[r.id := r];
      nextId := nextId + 1;
      resp := Response(201, RenderCreated(r));
    }

    /**
     * POST /api/upload/model. The middleware has stored both present files on the
     * media host before the handler runs, so a thumbnail sent without a model
     * file stays on the host.
     */
    method UploadModel(name: Option<string>, modelFile: Option<File>, thumbnailFile: Option<File>, saveFault: Option<Fault>)
      returns (resp: Response)
      requires Valid()
      modifies this
      ensures Valid()
      ensures renders == old(renders) && messages == old(messages) && trace == old(trace)
      ensures media == old(media) + Uploaded(modelFile) + Uploaded(thumbnailFile)
      ensures modelFile.None? ==> resp == Response(400, Error(Some("No model file uploaded")))
      ensures resp.status == 201 <==>
        modelFile.Some? && modelFile.value.path != "" && modelFile.value.filename != "" && saveFault.None?
      ensures resp.status == 201 ==>
        && resp.body.ModelCreated?
        && var m := resp.body.model;
        && m.id == old(nextId) && m.id !in old(models) && models == old(models)[m.id := m]
        && m.name == OrElse(name, "") && m.fileType == DefaultModelType
        && m.fileUrl == modelFile.value.path && m.cloudinaryId == modelFile.value.filename
        && (thumbnailFile.Some? ==>
              m.thumbnailUrl == Some(thumbnailFile.value.path)
              && m.thumbnailCloudinaryId == Some(thumbnailFile.value.filename))
        && (thumbnailFile.None? ==> m.thumbnailUrl.None? && m.thumbnailCloudinaryId.None?)
        && m.createdAt == old(nextId) && m.updatedAt == old(nextId)
        && nextId == old(nextId) + 1
      ensures resp.status != 201 ==> models == old(models) && nextId == old(nextId)
      ensures modelFile.Some? && resp.status != 201 ==>
        var built := NewModel(ModelFieldsOf(name, modelFile.value, thumbnailFile), old(nextId), old(nextId));
        resp == Response(500, Error(Some(UploadError(
                  if built.Err? then Some(ValidationMessage(built.error)) else saveFault.value.message))))
    {
      media := media + Uploaded(modelFile) + Uploaded(thumbnailFile);
      if modelFile.None? {
        return Response(400, Error(Some("No model file uploaded")));
      }
      var built := NewModel(ModelFieldsOf(name, modelFile.value, thumbnailFile), nextId, nextId);
      if built.Err? {
        return Response(500, Error(Some(UploadError(Some(ValidationMessage(built.error))))));
      }
      if saveFault.Some? {
        return Response(500, Error(Some(UploadError(saveFault.value.message))));
      }
      var m := built.value;
      AddModelConsistent(renders, models, messages, nextId, m);
      models := models[m.id := m];
      nextId := nextId + 1;
      resp := Response(201, ModelCreated(m));
    }

    /** POST /api/contact */
    method Contact(name: Option<string>, email: Option<string>, message: Option<string>, saveFault: Option<Fault>)
      returns (resp: Response)
      requires Valid()
      modifies this
      ensures Valid()
      ensures renders == old(renders) && models == old(models) && media == old(media) && trace == old(trace)
      ensures !(Truthy(name) && Truthy(email) && Truthy(message)) ==>
        resp == Response(400, Error(Some("All fields are required"))) && unchanged(this)
      ensures Truthy(name) && Truthy(email) && Truthy(message) && saveFault.Some? ==>
        resp == Response(500, Error(Some("Failed to save message"))) && unchanged(this)
      ensures Truthy(name) && Truthy(email) && Truthy(message) && saveFault.None? ==>
        && resp == Response(201, MessageStored(old(nextId)))
        && old(nextId) !in old(messages)
        && messages == old(messages)[old(nextId) :=
             Message(old(nextId), name.value, email.value, message.value, false, old(nextId), old(nextId))]
        && nextId == old(nextId) + 1
    {
      if !Truthy(name) || !Truthy(email) || !Truthy(message) {
        return Response(400, Error(Some("All fields are required")));
      }
      var built := NewMessage(MessageFields(name, email, message, None), nextId, nextId);
      if saveFault.Some? {
        return Response(500, Error(Some("Failed to save message")));
      }
      var m := built.value;
      AddMessageConsistent(renders, models, messages, nextId, m);
      messages := messages[m.id := m];
      nextId := nextId + 1;
      resp := Response(201, MessageStored(m.id));
    }

    /** `cloudinary.uploader.destroy(asset.handle, {resource_type: asset.kind})`; a missing asset is not an error. */
    method Destroy(asset: Asset, faults: map<Asset, Fault>) returns (err: Option<Fault>)
      modifies this
      ensures trace == old(trace) + [DestroyCall(asset)]
      ensures err == (if asset in faults then Some(faults[asset]) else None)
      ensures media == if asset in faults then old(media) else old(media) - {asset}
      ensures renders == old(renders) && models == old(models) && messages == old(messages)
      ensures nextId == old(nextId)
    {
      trace := trace + [DestroyCall(asset)];
      if asset in faults {
        return Some(faults[asset]);
      }
      media := media - {asset};
      err := None;
    }

    /** The destroy calls of the render deletion, in order, stopping at the first that throws. */
    method DestroyRenderAssets(r: Render, faults: map<Asset, Fault>) returns (err: Option<Fault>)
      modifies this
      ensures err == FirstFault(RenderDestroys(r), faults)
      ensures trace == old(trace) + DestroyCalls(Attempted(RenderDestroys(r), faults))
      ensures media == old(media) - Removed(Attempted(RenderDestroys(r), faults), faults)
      ensures renders == old(renders) && models == old(models) && messages == old(messages)
      ensures nextId == old(nextId)
    {
      err := None;
      if r.cloudinaryId != "" {
        err := Destroy(Asset(r.cloudinaryId, Image), faults);
      }
    }

    /** The destroy calls of the model deletion, in order, stopping at the first that throws. */
    method DestroyModelAssets(m: Model, faults: map<Asset, Fault>) returns (err: Option<Fault>)
      modifies this
      ensures err == FirstFault(ModelDestroys(m), faults)
      ensures trace == old(trace) + DestroyCalls(Attempted(ModelDestroys(m), faults))
      ensures media == old(media) - Removed(Attempted(ModelDestroys(m), faults), faults)
      ensures renders == old(renders) && models == old(models) && messages == old(messages)
      ensures nextId == old(nextId)
    {
      var primary := Asset(m.cloudinaryId, Raw);
      if m.cloudinaryId != "" {
        assert ModelDestroys(m) == [primary] + ThumbnailDestroys(m);
        err := Destroy(primary, faults);
        if err.Some? {
          AttemptedThrows(primary, ThumbnailDestroys(m), faults);
          return;
        }
        AttemptedSucceeds(primary, ThumbnailDestroys(m), faults);
      } else {
        assert ModelDestroys(m) == ThumbnailDestroys(m);
      }
      err := DestroyThumbnail(m, faults);
    }

    /** The thumbnail destroy of the model deletion, made only when the model keeps a thumbnail handle. */
    method DestroyThumbnail(m: Model, faults: map<Asset, Fault>) returns (err: Option<Fault>)
      modifies this
      ensures err == FirstFault(ThumbnailDestroys(m), faults)
      ensures trace == old(trace) + DestroyCalls(Attempted(ThumbnailDestroys(m), faults))
      ensures media == old(media) - Removed(Attempted(ThumbnailDestroys(m), faults), faults)
      ensures renders == old(renders) && models == old(models) && messages == old(messages)
      ensures nextId == old(nextId)
    {
      err := None;
      if Truthy(m.thumbnailCloudinaryId) {
        var thumb := Asset(m.thumbnailCloudinaryId.value, Image);
        AttemptedSingle(thumb, faults);
        err := Destroy(thumb, faults);
      }
    }

    /** DELETE /api/delete/render/:id */
    method DeleteRender(param: IdParam, findFault: Option<Fault>, destroyFaults: map<Asset, Fault>, removeFault: Option<Fault>)
      returns (resp: Response)
      requires Valid()
      modifies this
      ensures Valid()
      ensures models == old(models) && messages == old(messages) && nextId == old(nextId)
      ensures param.Uncastable? ==>
        resp == Response(500, Error(Some(CastErrorMessage(param.text, "Render")))) && unchanged(this)
      ensures param.ObjectId? && findFault.Some? ==>
        resp == Response(500, Error(findFault.value.message)) && unchanged(this)
      ensures param.ObjectId? && findFault.None? && param.id !in old(renders) ==>
        resp == Response(404, Error(Some("Render not found"))) && unchanged(this)
      ensures param.ObjectId? && findFault.None? && param.id in old(renders) ==>
        var plan := RenderDestroys(old(renders)[param.id]);
        var calls := Attempted(plan, destroyFaults);
        var fault := FirstFault(plan, destroyFaults);
        && media == old(media) - Removed(calls, destroyFaults)
        && (fault.Some? ==>
              && trace == old(trace) + DestroyCalls(calls)
              && renders == old(renders)
              && resp == Response(500, Error(fault.value.message)))
        && (fault.None? ==>
              && trace == old(trace) + DestroyCalls(calls) + [DeleteRenderRow(param.id)]
              && (removeFault.Some? ==>
                    renders == old(renders) && resp == Response(500, Error(removeFault.value.message)))
              && (removeFault.None? ==>
                    renders == old(renders) - {param.id} && resp == Response(200, Succeeded("Render deleted"))))
    {
      if param.Uncastable? {
        return Response(500, Error(Some(CastErrorMessage(param.text, "Render"))));
      }
      if findFault.Some? {
        return Response(500, Error(findFault.value.message));
      }
      var id := param.id;
      if id !in renders {
        return Response(404, Error(Some("Render not found")));
      }
      var err := DestroyRenderAssets(renders[id], destroyFaults);
      if err.Some? {
        return Response(500, Error(err.value.message));
      }
      trace := trace + [DeleteRenderRow(id)];
      if removeFault.Some? {
        return Response(500, Error(removeFault.value.message));
      }
      renders := renders - {id};
      resp := Response(200, Succeeded("Render deleted"));
    }

    /** DELETE /api/delete/model/:id */
    method DeleteModel(param: IdParam, findFault: Option<Fault>, destroyFaults: map<Asset, Fault>, removeFault: Option<Fault>)
      returns (resp: Response)
      requires Valid()
      modifies this
      ensures Valid()
      ensures renders == old(renders) && messages == old(messages) && nextId == old(nextId)
      ensures param.Uncastable? ==>
        resp == Response(500, Error(Some(CastErrorMessage(param.text, "Model")))) && unchanged(this)
      ensures param.ObjectId? && findFault.Some? ==>
        resp == Response(500, Error(findFault.value.message)) && unchanged(this)
      ensures param.ObjectId? && findFault.None? && param.id !in old(models) ==>
        resp == Response(404, Error(Some("Model not found"))) && unchanged(this)
      ensures param.ObjectId? && findFault.None? && param.id in old(models) ==>
        var plan := ModelDestroys(old(models)[param.id]);
        var calls := Attempted(plan, destroyFaults);
        var fault := FirstFault(plan, destroyFaults);
        && media == old(media) - Removed(calls, destroyFaults)
        && (fault.Some? ==>
              && trace == old(trace) + DestroyCalls(calls)
              && models == old(models)
              && resp == Response(500, Error(fault.value.message)))
        && (fault.None? ==>
              && trace == old(trace) + DestroyCalls(calls) + [DeleteModelRow(param.id)]
              && (removeFault.Some? ==>
                    models == old(models) && resp == Response(500, Error(removeFault.value.message)))
              && (removeFault.None? ==>
                    models == old(models) - {param.id} && resp == Response(200, Succeeded("Model deleted"))))
    {
      if param.Uncastable? {
        return Response(500, Error(Some(CastErrorMessage(param.text, "Model"))));
      }
      if findFault.Some? {
        return Response(500, Error(findFault.value.message));
      }
      var id := param.id;
      if id !in models {
        return Response(404, Error(Some("Model not found")));
      }
      var err := DestroyModelAssets(models[id], destroyFaults);
      if err.Some? {
        return Response(500, Error(err.value.message));
      }
      trace := trace + [DeleteModelRow(id)];
      if removeFault.Some? {
        return Response(500, Error(removeFault.value.message));
      }
      models := models - {id};
      resp := Response(200, Succeeded("Model deleted"));
    }
  }
}
