/**
 * Properties that relate several handlers or several calls: what the listings
 * promise about order and uniqueness, and what an upload followed by a deletion
 * leaves in the metadata store and on the media host.
 */
module Lifecycle {
  import opened Js
  import opened Db
  import opened SortSpec
  import opened Api

  /** Renders come by `order`, and by `createdAt` among equal `order`s. */
  lemma RenderListingOrder(rows: seq<Render>, stored: map<Id, Render>, i: nat, j: nat)
    requires RenderListing(rows, stored) && i < j < |rows|
    ensures rows[i].order < rows[j].order || (rows[i].order == rows[j].order && rows[i].createdAt < rows[j].createdAt)
  {
  }

  /** Models come newest first. */
  lemma ModelListingOrder(rows: seq<Model>, stored: map<Id, Model>, i: nat, j: nat)
    requires ModelListing(rows, stored) && i < j < |rows|
    ensures rows[i].createdAt > rows[j].createdAt
  {
  }

  /** The render listing of a store is determined by the store. */
  lemma RenderListingUnique(a: seq<Render>, b: seq<Render>, stored: map<Id, Render>)
    requires RenderListing(a, stored) && RenderListing(b, stored)
    ensures a == b
  {
    ListingUnique(a, b, stored, RenderId, RenderKey);
  }

  /** The model listing of a store is determined by the store. */
  lemma ModelListingUnique(a: seq<Model>, b: seq<Model>, stored: map<Id, Model>)
    requires ModelListing(a, stored) && ModelListing(b, stored)
    ensures a == b
  {
    ListingUnique(a, b, stored, ModelId, ModelKey);
  }

  /**
   * Renders stored with `order` 2, 1, 1 at increasing times are listed as the
   * earlier `order` 1, the later `order` 1, then `order` 2.
   */
  lemma EqualOrdersListOldestFirst(rows: seq<Render>, x: Render, y: Render, z: Render)
    requires x == Render(0, "A", "", "a.jpg", "a", 2, 0, 0)
    requires y == Render(1, "B", "", "b.jpg", "b", 1, 1, 1)
    requires z == Render(2, "C", "", "c.jpg", "c", 1, 2, 2)
    requires RenderListing(rows, map[0 := x, 1 := y, 2 := z])
    ensures rows == [y, z, x]
  {
    var stored := map[0 := x, 1 := y, 2 := z];
    var expected := [y, z, x];
    assert StrictlySorted(expected, RenderKey);
    assert forall r | r in expected :: r.id in stored && stored[r.id] == r;
    assert forall id | id in stored :: stored[id] in expected;
    RenderListingUnique(rows, expected, stored);
  }

  /**
   * A model whose primary file the host classified as an image keeps that file
   * on the host when the model is deleted, unless its thumbnail has the same handle:
   * the deletion asks for a raw asset.
   */
  lemma ImageClassifiedModelFileSurvives(m: Model, faults: map<Asset, Fault>)
    requires m.thumbnailCloudinaryId != Some(m.cloudinaryId)
    ensures Asset(m.cloudinaryId, Image) !in Removed(Attempted(ModelDestroys(m), faults), faults)
  {
    var calls := Attempted(ModelDestroys(m), faults);
    forall k | 0 <= k < |calls|
      ensures calls[k] != Asset(m.cloudinaryId, Image)
    {
      assert calls[k] in ModelDestroys(m);
    }
  }

  /** The login handler accepts the built-in password when none is configured. */
  lemma BuiltInPassword(configured: Option<string>, password: Option<string>)
    requires !Truthy(configured)
    ensures Login(password, configured).status == 200 <==> password == Some("admin123")
  {
  }

  /**
   * Uploading a render and deleting it again, with no store or host errors,
   * leaves the render collection as it was; the deletion destroys the image
   * asset under the uploaded handle and then removes the row.
   */
  method UploadThenDeleteRender(api: ContentApi, title: Option<string>, subtitle: Option<string>, f: File)
    requires api.Valid() && f.path != "" && f.filename != ""
    modifies api
    ensures api.Valid()
    ensures api.renders == old(api.renders)
    ensures api.models == old(api.models) && api.messages == old(api.messages)
    ensures api.media == old(api.media) + {AssetOf(f)} - {Asset(f.filename, Image)}
    ensures api.trace == old(api.trace) + [DestroyCall(Asset(f.filename, Image)), DeleteRenderRow(old(api.nextId))]
  {
    var created := api.UploadRender(title, subtitle, Some(f), None);
    assert created.status == 201;
    var r := created.body.render;
    var image := Asset(f.filename, Image);
    assert RenderDestroys(r) == [image];
    assert Attempted([image], map[]) == [image];
    assert Removed([image], map[]) == {image};
    var deleted := api.DeleteRender(ObjectId(r.id), None, map[], None);
    assert old(api.renders)[r.id := r] - {r.id} == old(api.renders);
  }

  /**
   * Deleting a stored model when neither the store nor the host throws makes
   * every planned destroy call, in order, removes the planned assets, then
   * removes the row and nothing else.
   */
  method DeleteStoredModel(api: ContentApi, id: Id) returns (resp: Response)
    requires api.Valid() && id in api.models
    modifies api
    ensures api.Valid()
    ensures resp == Response(200, Succeeded("Model deleted"))
    ensures api.models == old(api.models) - {id}
    ensures api.renders == old(api.renders) && api.messages == old(api.messages) && api.nextId == old(api.nextId)
    ensures api.trace == old(api.trace) + DestroyCalls(ModelDestroys(old(api.models)[id])) + [DeleteModelRow(id)]
    ensures api.media == old(api.media) - set a | a in ModelDestroys(old(api.models)[id])
  {
    var plan := ModelDestroys(api.models[id]);
    var calls := Attempted(plan, map[]);
    assert calls == plan;
    assert Removed(calls, map[]) == set a | a in plan by {
      forall a | a in plan
        ensures a in Removed(calls, map[])
      {
        var i :| 0 <= i < |plan| && plan[i] == a;
      }
    }
    resp := api.DeleteModel(ObjectId(id), None, map[], None);
  }

  /**
   * Uploading a model without thumbnail and deleting it again, with no store or
   * host errors, leaves the model collection as it was; the deletion destroys a
   * raw asset under the uploaded handle, so a model file the host classified as an
   * image stays on the host.
   */
  method UploadThenDeleteModel(api: ContentApi, name: Option<string>, f: File)
    requires api.Valid() && f.path != "" && f.filename != ""
    modifies api
    ensures api.Valid()
    ensures api.models == old(api.models)
    ensures api.renders == old(api.renders) && api.messages == old(api.messages)
    ensures api.media == old(api.media) + {AssetOf(f)} - {Asset(f.filename, Raw)}
    ensures f.kind == Image ==> AssetOf(f) in api.media
    ensures api.trace == old(api.trace) + [DestroyCall(Asset(f.filename, Raw)), DeleteModelRow(old(api.nextId))]
  {
    var created := api.UploadModel(name, Some(f), None, None);
    assert created.status == 201;
    var m := created.body.model;
    var raw := Asset(f.filename, Raw);
    assert ModelDestroys(m) == [raw];
    assert (set a | a in [raw]) == {raw};
    var deleted := DeleteStoredModel(api, m.id);
    assert old(api.models)[m.id := m] - {m.id} == old(api.models);
  }

  /**
   * Uploading a model with a thumbnail and deleting it again, with no store or
   * host errors, leaves the model collection as it was; the deletion destroys the
   * model file as raw, then the thumbnail as an image, then removes the row.
   */
  method UploadWithThumbnailThenDeleteModel(api: ContentApi, name: Option<string>, f: File, t: File)
    requires api.Valid() && f.path != "" && f.filename != "" && t.filename != ""
    modifies api
    ensures api.Valid()
    ensures api.models == old(api.models)
    ensures api.renders == old(api.renders) && api.messages == old(api.messages)
    ensures api.media == old(api.media) + {AssetOf(f), AssetOf(t)} - {Asset(f.filename, Raw), Asset(t.filename, Image)}
    ensures api.trace == old(api.trace) + [DestroyCall(Asset(f.filename, Raw)), DestroyCall(Asset(t.filename, Image)),
                                           DeleteModelRow(old(api.nextId))]
  {
    var created := api.UploadModel(name, Some(f), Some(t), None);
    assert created.status == 201;
    var m := created.body.model;
    var raw := Asset(f.filename, Raw);
    var thumb := Asset(t.filename, Image);
    assert ModelDestroys(m) == [raw, thumb];
    assert (set a | a in [raw, thumb]) == {raw, thumb};
    var deleted := DeleteStoredModel(api, m.id);
    assert old(api.models)[m.id := m] - {m.id} == old(api.models);
  }
}
