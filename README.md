# Portfolio Content API — a Dafny model

This project models the content service of a 3D-artist portfolio site:

- the HTTP handlers of the Content API: the admin login, the render and model listings, the render and model uploads, the contact form, and the render and model deletions;
- the three document schemas of the metadata store: renders, models and contact messages;
- the way the public gallery page merges its twelve built-in renders with the renders the API lists.

Modules follow the repository's files:

- `Js` (`js.dfy`) holds JavaScript value conventions the handlers rely on: optional values, truthiness, `a || b` and `String.prototype.includes`.
- `Db` (`db.dfy`) holds the schemas of `api/db.js`. `NewRender`, `NewModel` and `NewMessage` build a document from the given fields. They apply the schema defaults, run the `required` checks (a missing, null or empty string fails them, with a mongoose-style validation message) and stamp `createdAt`/`updatedAt`.
- `SortSpec` (`sort_spec.dfy`) gives the order in which the store returns a collection for `find().sort(...)`. It is a lexicographic key over the sort fields, with descending fields negated. `SortedRows` is the store adapter that produces a listing.
- `Api` (`api.dfy`) holds the handlers of `api/index.js`:
  - The metadata store and the media host are the fields of class `ContentApi`.
  - The store is three maps from id to document and one counter that gives each insertion a fresh id and its store time (an ObjectId begins with its creation time), so a document's `createdAt` equals its id.
  - The media host is a set of `(handle, classification)` assets.
  - `trace` records every destructive call to the host or the store, in order.
  - Each state-changing handler is a method. Its contract gives the status code, the JSON body and the whole new state, and it keeps the store invariant `Valid()`.
  - Login is stateless and is a function.
- `Gallery` (`gallery.dfy`) holds the built-in render list of `src/pages/Gallery.jsx` and its fetch-and-merge step.
- `Lifecycle` (`lifecycle.dfy`) holds properties that span several calls:
  - the listing order and the uniqueness of a listing;
  - an upload followed by a deletion restores the collection;
  - a model file the host classified as an image survives its model's deletion.

Errors that the store or the media host would throw are parameters of the methods, so every error path is reachable:

- `findFault`, `saveFault`, `removeFault` and the listing `fault` stand for the store's errors;
- `destroyFaults` gives the host's error for each asset.

The upload middleware runs before the handler and has already stored the incoming files on the media host. The upload methods therefore add those assets to `media` first and never take them back. If validation or the save then fails, the asset stays on the host with no document pointing at it. A thumbnail sent without a model file stays on the host as well.

The host tells assets apart by handle together with resource classification:

- The render deletion destroys its handle as an image.
- The model deletion destroys the primary file as raw and the thumbnail as an image.
- A model file that the host classified as an image on upload ('auto' classification) is therefore not removed when its model is deleted. `Lifecycle.ImageClassifiedModelFileSurvives` states this.

Two behaviours of the deletion handlers:

- An `:id` that is not a valid ObjectId makes `findById` throw a cast error, so the deletion answers 500 with that error's message. Only a well-formed id with no document answers 404.
- In the model deletion, a failing thumbnail destroy aborts the handler after the primary destroy call has succeeded. The handler then answers 500 and the model row stays in the store.

## Model

| member | source | states |
|---|---|---|
| Db.NewRender | api/db.js:22-28 | A render document is built iff `imageUrl` and `cloudinaryId` are non-empty strings. Otherwise a 'Render' validation error names exactly the failing paths, each once, in schema order. `title`/`subtitle` default to '' and `order` to 0 when absent (a null counts as absent, see Left out). Both timestamps are the store time. |
| Db.NewModel | api/db.js:30-37 | A model document is built iff `fileUrl` and `cloudinaryId` are non-empty strings. Otherwise a 'Model' validation error names exactly the failing paths, each once, in schema order. `name` defaults to '' and `type` to 'glb' when absent (a null counts as absent, see Left out). The thumbnail fields are kept as given (null when absent). Both timestamps are the store time. |
| Db.NewMessage | api/db.js:39-44 | A message document is built iff `name`, `email` and `message` are all non-empty strings. Otherwise a 'Message' validation error names exactly the failing paths, each once, in schema order. `isRead` defaults to false when absent (a null counts as absent, see Left out). Both timestamps are the store time. |
| Api.Uploaded | api/index.js:93 | An absent file field stores nothing on the media host; a present one stores exactly its own asset. |
| Api.Login | api/index.js:58-67 | 200 'Authenticated' iff the submitted password equals the configured admin password, or 'admin123' when none is configured. Every other request, a missing password included, gets exactly 401 'Incorrect password'. |
| Lifecycle.BuiltInPassword | api/index.js:60-62 | With no configured password, login succeeds exactly for 'admin123'. |
| Api.ContentApi.ListRenders | api/index.js:71-79 | A store error gives 500 'Database Error' with its message. Otherwise 200 with every stored render exactly once, none other, sorted by `order` then `createdAt`. The state is not changed. |
| Api.ContentApi.ListModels | api/index.js:81-89 | A store error gives 500 'Database Error' with its message. Otherwise 200 with every stored model exactly once, none other, newest first. The state is not changed. |
| SortSpec.SortedRows | api/index.js:73 | From a store whose rows sit under their ids with distinct keys, builds a sequence of exactly the stored rows, one per id, strictly in key order. |
| SortSpec.ListingUnique | api/index.js:73 | Two listings of the same store are equal, so the listing order is fully determined. |
| Lifecycle.RenderListingOrder | api/index.js:73 | In a render listing, an earlier row has a smaller `order`, or an equal `order` and an earlier `createdAt`. |
| Lifecycle.ModelListingOrder | api/index.js:83 | In a model listing, an earlier row was created strictly later. |
| Lifecycle.RenderListingUnique | api/index.js:73 | A store has exactly one render listing. |
| Lifecycle.ModelListingUnique | api/index.js:83 | A store has exactly one model listing. |
| Lifecycle.EqualOrdersListOldestFirst | api/index.js:73 | Renders with `order` 2, 1, 1 created in that sequence are listed as the older `order` 1, then the newer, then the `order` 2. |
| Api.UploadError | api/index.js:111-117 | The error text of a caught upload error is the 10 MB message when the error's message mentions 'size'. Otherwise it is the message itself, or 'Upload failed' when there is none. |
| Api.ContentApi.UploadRender | api/index.js:93-118 | No file gives 400 'No file uploaded' with nothing changed. A present file is stored on the media host whatever follows. The answer is 201 iff the file has a URL and a handle and the save succeeds. On 201 the new render has a fresh id and the given title and subtitle (or ''), with the file's URL and handle, `order` 0 and the current store time, and it is the only change to the collection. Otherwise the collection is unchanged and the answer is 500 with the upload error text of the validation or save error. |
| Api.ContentApi.UploadModel | api/index.js:120-151 | Every present file is stored on the media host, even when the answer is 400 'No model file uploaded'. The answer is 201 iff a model file with URL and handle is present and the save succeeds. On 201 the new model has a fresh id and the given name (or ''), with type 'glb' and the model file's URL and handle. Its thumbnail URL and handle are those of the thumbnail file, or none without one. It is the only change to the collection. Otherwise the collection is unchanged and the answer is 500 with the upload error text. |
| Api.ContentApi.Contact | api/index.js:155-174 | A missing or empty name, email or message gives 400 'All fields are required' with nothing changed. A save error gives 500 'Failed to save message' with nothing changed. Otherwise 201 with the id of the one new unread message, which holds exactly the submitted texts. |
| Api.ContentApi.Destroy | api/index.js:186 | One destroy call on the media host is recorded. It removes exactly that handle-and-classification asset, unless the host throws, in which case nothing is removed and the error is returned. |
| Api.RenderDestroys | api/index.js:185-187 | The render deletion plans at most one destroy call, and every planned call destroys the render's own handle as an image. It plans one exactly when the handle is non-empty. For a stored render it always does. |
| Api.ModelDestroys | api/index.js:203-210 | The model deletion asks for one raw destroy of the primary handle exactly when that handle is non-empty, and one image destroy of the thumbnail handle exactly when that handle is non-empty, and no other destroy. Only the primary is destroyed as raw and only the thumbnail as an image. The primary comes first and the thumbnail last. |
| Api.Attempted | api/index.js:185-192 | Destroy calls are made in order up to and including the first that throws. Every call before that one succeeded, and the rest are never made. |
| Api.FirstFault | api/index.js:185-192 | The deletion's destroy phase fails iff some planned destroy throws. Its error is that of the last call made, which is the first planned call that throws. |
| Api.ContentApi.DestroyRenderAssets | api/index.js:185-187 | Makes exactly the attempted destroy calls of the render's plan, in order. It removes the assets of the calls that succeed and returns the first error. |
| Api.ThumbnailDestroys | api/index.js:208-210 | The thumbnail part of the model deletion is one image destroy of the thumbnail handle, exactly when the model keeps a non-empty one. |
| Api.Removed | api/index.js:186 | An asset is removed exactly when a call on it was made and did not throw. |
| Api.ContentApi.DestroyThumbnail | api/index.js:208-210 | Makes the thumbnail destroy call exactly when a thumbnail handle is kept. It removes that image asset unless the host throws, and returns the error. |
| Api.ContentApi.DestroyModelAssets | api/index.js:203-210 | Makes exactly the attempted destroy calls of the model's plan (raw primary, then image thumbnail), in order. It removes the assets of the calls that succeed and returns the first error. |
| Api.ContentApi.DeleteRender | api/index.js:178-194 | An uncastable id gives 500 with the cast error. A lookup error gives 500. An unknown id gives 404 'Render not found'. None of these three changes anything. Otherwise the planned destroys run. A destroy error gives 500 and keeps the row. After the destroys, the row removal is called. A removal error gives 500. Success removes exactly that row and answers 200 'Render deleted'. |
| Api.ContentApi.DeleteModel | api/index.js:196-217 | The same error cases as the render deletion, with 404 'Model not found'. The raw primary and image thumbnail destroys run in that order, and an error aborts before the row is removed, even when the primary destroy call has already succeeded. Success removes exactly that row and answers 200 'Model deleted'. |
| Lifecycle.UploadThenDeleteRender | api/index.js:93-194 | A successful render upload followed by its deletion restores the render collection. It destroys the uploaded handle as an image and then removes the row, in that order. |
| Lifecycle.DeleteStoredModel | api/index.js:196-217 | Deleting a stored model when neither the store nor the host throws makes every planned destroy call in order, removes exactly the planned assets, then removes exactly that row and answers 200 'Model deleted'. |
| Lifecycle.UploadThenDeleteModel | api/index.js:120-217 | A successful model upload without a thumbnail followed by its deletion restores the model collection. It destroys the uploaded handle as raw and then removes the row, so a model file the host classified as an image stays on the host. |
| Lifecycle.UploadWithThumbnailThenDeleteModel | api/index.js:120-217 | A successful model upload with a thumbnail followed by its deletion restores the model collection. It destroys the model file as raw, then the thumbnail as an image, then removes the row. The media host loses exactly those two assets. |
| Lifecycle.ImageClassifiedModelFileSurvives | api/index.js:203-205 | Deleting a model never removes an image-classified asset under its primary handle, unless the thumbnail shares that handle. |
| Gallery.ToEntry | src/pages/Gallery.jsx:40-44 | An API render is shown with its image URL as source and its title, or 'UNTITLED' when the title is empty. The subtitle is kept as is. |
| Gallery.ToEntries | src/pages/Gallery.jsx:40-44 | Maps each API render, in order, to its gallery entry. |
| Gallery.Images | src/pages/Gallery.jsx:36-46 | The page shows the twelve built-in renders first and unchanged, followed by exactly the listed renders, in listing order, as entries. |
| Gallery.StaticCount | src/pages/Gallery.jsx:5-18 | There are twelve built-in renders. |
| Gallery.StaticOnly | src/pages/Gallery.jsx:37-48 | A fetch that throws, a non-ok answer or an empty list leaves only the built-in renders. |
| Gallery.ShowsListing | src/pages/Gallery.jsx:36-45 | A successful listing answer of the API is shown as the built-in renders followed by the mapped listing. |
| Gallery.ErrorShowsStatic | src/pages/Gallery.jsx:37 | An error answer of the API (such as the 500 'Database Error') leaves only the built-in renders. |

## Left out

- The Express wiring is not modelled: CORS, JSON body parsing, the request and console logging, and the listening port. They do not change what a handler answers.
- The upload middleware's configuration is not modelled: the media host credentials, the 10 MB limit, the format allow-list and the field names. A rejection by the middleware reaches the global error handler rather than the handlers, and the global error handler is not modelled. The middleware's effect on success (the files on the host) is modelled.
- The media host's choice of classification for an uploaded file is a parameter (`File.kind`), not computed.
- The store connection, its cached promise, the start-up error and the health route are not modelled. The single connection, the process lifecycle and request concurrency are left out as well: each handler is one atomic step over the state.
- Real time is not modelled. The store time is the counter that also hands out ids, so two documents never share a creation time and the sort keys never tie.
- `findByIdAndDelete` is modelled as removing the row it was given. A concurrent deletion between the lookup and the removal is not modelled.
- The `_id`/`__v` serialisation of documents and the JSON encoding of bodies are not modelled. A `Body` holds the fields the handlers set.
- Request values are strings or absent. Multipart fields repeated into arrays are not modelled, and neither are non-string JSON values (a numeric password, say).
- Db.NewRender: an explicit null `title`, `subtitle` or `order` is treated like an absent one and gets its default, whereas mongoose keeps an explicit null. No handler passes null for these fields, so the handler contracts are unaffected.
- Db.NewModel: an explicit null `name` or `type` is treated like an absent one and gets '' or 'glb', whereas mongoose keeps an explicit null. No handler passes null for these fields.
- Db.NewMessage: an explicit null `isRead` is treated like an absent one and becomes false, whereas mongoose keeps an explicit null. The contact handler never sets `isRead`.
- Api.ContentApi.UploadRender: the thrown validation message is modelled from the schema's `required` checks only. Mongoose's casting of other field types is not modelled.
- The rest of the frontend is not modelled: the other pages and components, the admin dashboard, the browser-side upload helper, and the page's modal and mobile handling. The one-off database scripts are not modelled either.
