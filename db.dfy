/**
 * The three record kinds of the metadata store and how a record is built from
 * the field values handed to `new Render({...})`, `new Model({...})` and
 * `new Message({...})`: schema defaults fill absent fields, `required` fields must
 * hold a non-empty string, and the store stamps `createdAt` / `updatedAt`.
 */
module Db {
  import opened Js

  /** Store-assigned identifier (`_id`). */
  type Id = nat

  /** Store time, handed out by a counter that grows with every insertion. */
  type Stamp = nat

  datatype Render = Render(
    id: Id,
    title: string,
    subtitle: string,
    imageUrl: string,
    cloudinaryId: string,
    order: int,
    createdAt: Stamp,
    updatedAt: Stamp)

  /** `fileType` is the schema's `type` field. */
  datatype Model = Model(
    id: Id,
    name: string,
    fileUrl: string,
    cloudinaryId: string,
    fileType: string,
    thumbnailUrl: Option<string>,
    thumbnailCloudinaryId: Option<string>,
    createdAt: Stamp,
    updatedAt: Stamp)

  datatype Message = Message(
    id: Id,
    name: string,
    email: string,
    message: string,
    isRead: bool,
    createdAt: Stamp,
    updatedAt: Stamp)

  /** Field values given to the record constructor; `None` is a field left out. */
  datatype RenderFields = RenderFields(
    title: Option<string>,
    subtitle: Option<string>,
    imageUrl: Option<string>,
    cloudinaryId: Option<string>,
    order: Option<int>)

  datatype ModelFields = ModelFields(
    name: Option<string>,
    fileUrl: Option<string>,
    cloudinaryId: Option<string>,
    fileType: Option<string>,
    thumbnailUrl: Option<string>,
    thumbnailCloudinaryId: Option<string>)

  datatype MessageFields = MessageFields(
    name: Option<string>,
    email: Option<string>,
    message: Option<string>,
    isRead: Option<bool>)

  /** A failed `required` check: the collection's model name and the paths that failed it, in schema order. */
  datatype ValidationError = ValidationError(modelName: string, paths: seq<string>)

  const DefaultModelType := "glb"

  /** The `required` paths of each schema, in schema order. */
  const RenderRequired: seq<string> := ["imageUrl", "cloudinaryId"]
  const ModelRequired: seq<string> := ["fileUrl", "cloudinaryId"]
  const MessageRequired: seq<string> := ["name", "email", "message"]

  /** The position of `path` in `schema`, or `|schema|` when it is not there. */
  function Rank(path: string, schema: seq<string>): (k: nat)
    ensures k <= |schema|
    ensures k < |schema| <==> path in schema
    ensures k < |schema| ==> schema[k] == path
  {
    if schema == [] then 0
    else if schema[0] == path then 0
    else 1 + Rank(path, schema[1..])
  }

  /** `paths` lists schema paths without repetition, in the order the schema declares them. */
  predicate InSchemaOrder(paths: seq<string>, schema: seq<string>) {
    forall i, j | 0 <= i < j < |paths| :: Rank(paths[i], schema) < Rank(paths[j], schema)
  }

  /** The `required` check of one path: the path if its value is missing or empty. */
  function Required(path: string, value: Option<string>): seq<string> {
    if Truthy(value) then [] else [path]
  }

  /** The text of the validation error raised by `save()`. */
  function ValidationMessage(e: ValidationError): string {
    e.modelName + " validation failed: " + PathMessages(e.paths)
  }

  function PathMessages(paths: seq<string>): string {
    if paths == [] then ""
    else
      var first := paths[0] + ": Path `" + paths[0] + "` is required.";
      if |paths| == 1 then first else first + ", " + PathMessages(paths[1..])
  }

  /** A stored render: both media references are present; it was never updated. */
  ghost predicate StoredRender(r: Render) {
    r.imageUrl != "" && r.cloudinaryId != "" && r.updatedAt == r.createdAt
  }

  /** A stored model: both primary references are present; it was never updated. */
  ghost predicate StoredModel(m: Model) {
    m.fileUrl != "" && m.cloudinaryId != "" && m.updatedAt == m.createdAt
  }

  /** A stored message: all three texts are present; it is unread and was never updated. */
  ghost predicate StoredMessage(m: Message) {
    m.name != "" && m.email != "" && m.message != "" && !m.isRead && m.updatedAt == m.createdAt
  }

  /** The failing `required` checks of a message, concatenated, keep the schema's order. */
  lemma MessagePathsOrdered(name: Option<string>, email: Option<string>, message: Option<string>)
    ensures InSchemaOrder(Required("name", name) + Required("email", email) + Required("message", message), MessageRequired)
  {
    var paths := Required("name", name) + Required("email", email) + Required("message", message);
    assert Rank("name", MessageRequired) == 0;
    assert Rank("email", MessageRequired) == 1;
    assert Rank("message", MessageRequired) == 2;
    forall i, j | 0 <= i < j < |paths|
      ensures Rank(paths[i], MessageRequired) < Rank(paths[j], MessageRequired)
    {
      assert paths[i] == "name" || (paths[i] == "email" && paths[j] == "message");
    }
  }

  /** `new Render(fields).save()` at store time `now`, assigning `id`. */
  function NewRender(fields: RenderFields, id: Id, now: Stamp): (r: Result<Render, ValidationError>)
    ensures r.Ok? <==> Truthy(fields.imageUrl) && Truthy(fields.cloudinaryId)
    ensures r.Err? ==> r.error.modelName == "Render"
    ensures r.Err? ==> ("imageUrl" in r.error.paths <==> !Truthy(fields.imageUrl))
    ensures r.Err? ==> ("cloudinaryId" in r.error.paths <==> !Truthy(fields.cloudinaryId))
    ensures r.Err? ==> forall p | p in r.error.paths :: p == "imageUrl" || p == "cloudinaryId"
    ensures r.Err? ==> |r.error.paths| == (if Truthy(fields.imageUrl) then 0 else 1) + (if Truthy(fields.cloudinaryId) then 0 else 1)
    ensures r.Err? ==> InSchemaOrder(r.error.paths, RenderRequired)
    ensures r.Ok? ==> StoredRender(r.value) && r.value.id == id && r.value.createdAt == now
    ensures r.Ok? ==> r.value.imageUrl == fields.imageUrl.value && r.value.cloudinaryId == fields.cloudinaryId.value
    ensures r.Ok? ==> r.value.title == (if fields.title.Some? then fields.title.value else "")
    ensures r.Ok? ==> r.value.subtitle == (if fields.subtitle.Some? then fields.subtitle.value else "")
    ensures r.Ok? ==> r.value.order == (if fields.order.Some? then fields.order.value else 0)
  {
    var missing := Required("imageUrl", fields.imageUrl) + Required("cloudinaryId", fields.cloudinaryId);
    if missing != [] then
      Err(ValidationError("Render", missing))
    else
      Ok(Render(id, fields.title.GetOr(""), fields.subtitle.GetOr(""),
                fields.imageUrl.value, fields.cloudinaryId.value,
                fields.order.GetOr(0), now, now))
  }

  /** `new Model(fields).save()` at store time `now`, assigning `id`. */
  function NewModel(fields: ModelFields, id: Id, now: Stamp): (r: Result<Model, ValidationError>)
    ensures r.Ok? <==> Truthy(fields.fileUrl) && Truthy(fields.cloudinaryId)
    ensures r.Err? ==> r.error.modelName == "Model"
    ensures r.Err? ==> ("fileUrl" in r.error.paths <==> !Truthy(fields.fileUrl))
    ensures r.Err? ==> ("cloudinaryId" in r.error.paths <==> !Truthy(fields.cloudinaryId))
    ensures r.Err? ==> forall p | p in r.error.paths :: p == "fileUrl" || p == "cloudinaryId"
    ensures r.Err? ==> |r.error.paths| == (if Truthy(fields.fileUrl) then 0 else 1) + (if Truthy(fields.cloudinaryId) then 0 else 1)
    ensures r.Err? ==> InSchemaOrder(r.error.paths, ModelRequired)
    ensures r.Ok? ==> StoredModel(r.value) && r.value.id == id && r.value.createdAt == now
    ensures r.Ok? ==> r.value.fileUrl == fields.fileUrl.value && r.value.cloudinaryId == fields.cloudinaryId.value
    ensures r.Ok? ==> r.value.name == (if fields.name.Some? then fields.name.value else "")
    ensures r.Ok? ==> r.value.fileType == (if fields.fileType.Some? then fields.fileType.value else DefaultModelType)
    ensures r.Ok? ==> r.value.thumbnailUrl == fields.thumbnailUrl
    ensures r.Ok? ==> r.value.thumbnailCloudinaryId == fields.thumbnailCloudinaryId
  {
    var missing := Required("fileUrl", fields.fileUrl) + Required("cloudinaryId", fields.cloudinaryId);
    if missing != [] then
      Err(ValidationError("Model", missing))
    else
      Ok(Model(id, fields.name.GetOr(""), fields.fileUrl.value, fields.cloudinaryId.value,
               fields.fileType.GetOr(DefaultModelType),
               fields.thumbnailUrl, fields.thumbnailCloudinaryId, now, now))
  }

  /** `new Message(fields).save()` at store time `now`, assigning `id`. */
  function NewMessage(fields: MessageFields, id: Id, now: Stamp): (r: Result<Message, ValidationError>)
    ensures r.Ok? <==> Truthy(fields.name) && Truthy(fields.email) && Truthy(fields.message)
    ensures r.Err? ==> r.error.modelName == "Message"
    ensures r.Err? ==> ("name" in r.error.paths <==> !Truthy(fields.name))
    ensures r.Err? ==> ("email" in r.error.paths <==> !Truthy(fields.email))
    ensures r.Err? ==> ("message" in r.error.paths <==> !Truthy(fields.message))
    ensures r.Err? ==> forall p | p in r.error.paths :: p == "name" || p == "email" || p == "message"
    ensures r.Err? ==> |r.error.paths| == (if Truthy(fields.name) then 0 else 1) + (if Truthy(fields.email) then 0 else 1) + (if Truthy(fields.message) then 0 else 1)
    ensures r.Err? ==> InSchemaOrder(r.error.paths, MessageRequired)
    ensures r.Ok? ==> r.value.id == id && r.value.createdAt == now && r.value.updatedAt == now
    ensures r.Ok? ==> r.value.name == fields.name.value && r.value.email == fields.email.value
    ensures r.Ok? ==> r.value.message == fields.message.value
    ensures r.Ok? ==> r.value.isRead == (fields.isRead.Some? && fields.isRead.value)
  {
    var missing := Required("name", fields.name) + Required("email", fields.email) + Required("message", fields.message);
    MessagePathsOrdered(fields.name, fields.email, fields.message);
    if missing != [] then
      Err(ValidationError("Message", missing))
    else
      Ok(Message(id, fields.name.value, fields.email.value, fields.message.value,
                 fields.isRead.GetOr(false), now, now))
  }
}
