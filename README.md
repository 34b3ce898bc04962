# Portfolio import pipeline

A Dafny model of the import feature of a personal-portfolio backend. The
feature turns a link to a Sketchfab model, an ArtStation artwork or a Behance
gallery into a stored `Project` record. A fourth, manual route stores the
caller-supplied fields, tagged `manual`, with the schema's defaults for absent
fields and `updatedAt` set at save time.

The model covers two source files.

- `routes/import.js`
  - The three identifier extractors: an unanchored regular-expression search
    for a host/path marker followed by a run of characters other than `/` and
    `?`. These are in `extractors.dfy` and `platforms.dfy`.
  - The Sketchfab embed template, in `embed.dfy`.
  - The three placeholder metadata adapters, in `adapters.dfy`.
  - The four `POST` routes, in `import_routes.dfy`. Each route has two forms:
    - a specification function over the sequence of stored records
      (`PlatformImport`, `ManualImport`);
    - a method that runs the route's steps against a `ProjectStore` object
      (`ImportFromPlatform`, `ImportManual`). The steps are: extract the
      identifier, `findOne`, call the adapter, `new Project`, `save`.

    The three platform routes share one sequence of steps. They are modelled
    as one operation that takes the platform as a parameter. Their object
    literals differ beyond constants: the Sketchfab route also builds an embed,
    sets no images and uses a fixed technologies list; the ArtStation and
    Behance routes take technologies (`software`, `fields`) and images from the
    adapter. `ImportInput` branches on the platform accordingly.
- `models/Project.js`
  - The schema as a datatype. Construction fills in the schema defaults
    (`NewProject`).
  - Save-time validation of the required fields (`MeetsSchema`).
  - The `pre('save')` hook that refreshes `updatedAt` (`ProjectDocument.PreSave`,
    specified by `Stamped`).
  - The document store is modelled in `store.dfy` as a class that holds the
    saved records in insertion order.

Environment inputs become parameters:
- the clock (`now`);
- the two `Math.random` counts of the Sketchfab adapter (a `Draw` whose ranges
  are `0..999` and `0..99`).

JavaScript values that may be missing are `Option`s. A request URL that is
missing, or that is not a string (so that `url.match` throws), is `None`.

Points where the code behaves differently from what a reader might expect of
an import feature (the model states the code's behaviour):
- **Extraction is unanchored.** The first match anywhere in the URL wins. The
  identifier is every character up to the next `/` or `?`, so a `#fragment`
  becomes part of the identifier. (`Extract`, `ExtractAfterMarker`)
- **The embed identifier is not escaped.** The extractor's character class
  accepts `"`, `<` and `>`. An identifier holding `<script>` reaches the stored
  `demoEmbed` unchanged. (`EmbedCarriesIdText`, `ScriptIdReachesEmbed`,
  `MarkupIdExists`)
- **A missing URL is a 500, not a 400.** The routes do not check their input.
  `url.match` on a missing URL throws, and the `catch` block answers
  500 "Failed to import project". Likewise, `projectData.title` on a missing
  manual payload throws.
- **Platform routes do not fail validation on the inputs the model
  represents.** The adapters are deterministic placeholders and never fail.
  For a string (or absent) `category` and a boolean (or absent) `featured`,
  the record a platform route builds always passes validation. So once
  extraction and the duplicate check pass, such a platform import always
  succeeds. (`PlatformImport`'s first ensures) A `category` or `featured`
  value that Mongoose cannot cast makes `save` fail with a 500. The model
  does not represent such values (see "Left out").
- **The manual route does no duplicate check and keeps `externalId`.** It
  overrides only `importedFrom`. It keeps any `externalId` the payload carries.
- **The fallback lists are never used.** The ArtStation and Behance adapters
  always supply `software`/`fields` and `images`. The `|| [...]` fallbacks on
  those routes are therefore never taken. A JavaScript array is truthy even
  when empty, so `images || []` only replaces a missing list.

The schema's `required: true` on a string rejects a missing value and also the
empty string, because Mongoose's required check on strings rejects `""`.
`MeetsSchema` is stated that way. Mongoose runs validation before the
user-defined `pre('save')` hook, so a document that fails validation is never
stamped.

## Model

| member | source | states |
|---|---|---|
| `Extractors.IdRun` | routes/import.js:239 | the greedy `([^\/?]+)` capture: the longest prefix of its input free of `/` and `?`; the next character, if any, is `/` or `?` |
| `Extractors.SearchFrom` | routes/import.js:239-240 | scanning from position i: None exactly when no match starts at or after i; otherwise the capture at the first match from i |
| `Extractors.Extract` | routes/import.js:238-251 | `url.match(...)` then `match ? match[1] : null`: None exactly when the marker is nowhere followed by a character other than `/` and `?`; otherwise the result is non-empty and free of `/` and `?`, `marker + id` occurs in the URL at the leftmost match, and the character after it is absent, `/` or `?` |
| `Extractors.CaptureIsRun` | routes/import.js:239 | a capture at a position is a match there, and it equals the greedy run after the marker |
| `Extractors.ExtractAfterMarker` | routes/import.js:238-251 | round trip: for a URL `pre + marker + id + rest`, where `rest` is empty or starts with `/` or `?` and `pre` holds no earlier match, the extractor returns exactly `id` (a trailing path or query string is ignored) |
| `Embed.SketchfabEmbed` | routes/import.js:253-273 | the fragment contains `title="<id>"` and `src="https://sketchfab.com/models/<id>/embed"` with the identifier verbatim, and the identifier sits at a fixed offset |
| `Embed.EmbedInjective` | routes/import.js:253-273 | distinct identifiers give distinct fragments |
| `Embed.EmbedKeepsMarkup` | routes/import.js:257-267 | any substring of the identifier is a substring of the fragment: nothing is escaped |
| `Adapters.FetchMetadata` | routes/import.js:276-301 | each adapter's title is the platform prefix, " - ", then the identifier, and the identifier can be read back from the title; the description is the platform's non-empty placeholder; Sketchfab adds view and like counts in 0..999 and 0..99; ArtStation adds `software`, Behance adds `fields`, and both add an empty `images` |
| `Adapters.TitleDeterminesId` | routes/import.js:278-296 | on one platform, equal adapter titles mean equal identifiers, whatever the random draw |
| `ProjectSchema.RequiredString` | models/Project.js:4-15 | defines a `required: true` string path: the value must be present and non-empty |
| `ProjectSchema.MeetsSchema` | models/Project.js:4-15 | defines the schema's validity: title, description and category all pass the required check |
| `ProjectSchema.NewProject` | models/Project.js:3-57 | construction keeps every supplied field; when absent, `images` and `technologies` become `[]`, `featured` becomes false, `importedFrom` stays null, and `createdAt` and `updatedAt` become the current time |
| `ProjectSchema.Stamped` | models/Project.js:59-62 | the pre-save hook's effect: `updatedAt` is the current time, no other field changes, and validity is unaffected |
| `ProjectSchema.ProjectDocument.constructor` | models/Project.js:3-57 | `new Project(input)` holds exactly the defaulted record |
| `ProjectSchema.ProjectDocument.PreSave` | models/Project.js:59-62 | the hook updates the document in place: `updatedAt` becomes the current time and no other field changes |
| `DocumentStore.ProjectStore.FindOne` | routes/import.js:25-28 | `findOne({importedFrom, externalId})` returns a stored record with that key exactly when one exists |
| `DocumentStore.ProjectStore.Save` | routes/import.js:55 | `save()` writes exactly when the document meets the schema; it then stamps the document and appends it as the one new record; otherwise the store and the document are unchanged |
| `DocumentStore.CountImports` | routes/import.js:25-35 | the number of records holding a key: at most the store size, and zero exactly when `findOne` would find nothing |
| `DocumentStore.AppendKeepsUnique` | routes/import.js:25-55 | appending a record whose platform key is not yet stored, or that is not a platform import, keeps `(importedFrom, externalId)` unique among platform-imported records |
| `DocumentStore.UniqueCountAtMostOne` | routes/import.js:25-35 | in a store whose platform keys are unique, each platform key is held by at most one record |
| `ImportRoutes.OrString` | routes/import.js:43-176 | at lines 43-44, 109-110 and 175-176, JavaScript `||` on a string: the value is kept exactly when it is present and non-empty, otherwise the fallback is used; a non-empty fallback always gives a value that passes the required check |
| `ImportRoutes.OrList` | routes/import.js:111-179 | at lines 111, 113, 177 and 179, defines `v || fallback` on a present-or-absent array: a present array, even an empty one, is truthy and is kept; only a missing array gives the fallback |
| `ImportRoutes.OrFalse` | routes/import.js:48-180 | at lines 48, 114 and 180, defines `featured || false` on a present-or-absent boolean: true exactly when `true` was sent |
| `ImportRoutes.ExtractId` | routes/import.js:16-22 | the platform route's choice of extractor: None exactly when the platform's marker is nowhere followed by an identifier character, otherwise a non-empty identifier free of `/` and `?` |
| `ImportRoutes.ImportInput` | routes/import.js:41-185 | the object literal passed to `new Project`: the platform tag, the identifier, the URL as both links, and the adapter output as `importData`; a category and description that always pass the required check; `featured` always set; no timestamps; an embed exactly for Sketchfab |
| `ImportRoutes.PlatformImport` | routes/import.js:9-204 | a platform route: success exactly when the URL is a string, the extractor accepts it and the identifier is not stored for the platform; a missing URL gives 500, an extractor miss gives 400 "Invalid <Platform> URL", a stored identifier gives 400 "Project already imported"; a rejection leaves the store unchanged; a success answers 200 "Project imported successfully" with the saved record and appends exactly that record |
| `ImportRoutes.ManualImport` | routes/import.js:207-235 | the manual route: success exactly when a payload is given with non-empty title, description and category; a failure is 500 "Failed to import project" and leaves the store unchanged; a success answers 200 "Project imported successfully" with the saved record and appends exactly that record; that record keeps every field the payload supplies, except that it is tagged "manual" whatever the payload said and its `updatedAt` is the save time |
| `ImportRoutes.ManualRecord` | routes/import.js:213-218 | the stored manual record is the payload: the payload's fields, `importedFrom` "manual", `updatedAt` at save time, and the schema defaults for absent fields (absent `externalId` stays absent) |
| `ImportRoutes.ManualScenario` | routes/import.js:207-226 | the payload {title "X", description "Y", category "Z"} is stored as a record titled "X", tagged "manual", with no external id, not featured and with no images |
| `ImportRoutes.ImportedRecord` | routes/import.js:41-187 | the stored record's fields: platform tag, extracted identifier, submitted URL as both `projectUrl` and `externalUrl`, the adapter output as `importData`, title "<prefix> - <id>", the adapter's description, the request category or the platform default when it is falsy, `featured` only when `true` was sent, the technologies the adapter gives (Sketchfab: its fixed list), empty images, an embed only for Sketchfab, and both timestamps at the request time |
| `ImportRoutes.PlatformImportKeepsUnique` | routes/import.js:24-55 | a platform request keeps `(importedFrom, externalId)` unique among platform-imported records |
| `ImportRoutes.ManualImportKeepsUnique` | routes/import.js:213-218 | a manual request keeps that uniqueness, since its record is tagged "manual" |
| `ImportRoutes.ManualIgnoresStore` | routes/import.js:207-235 | the manual route's response does not depend on the stored records: it does no duplicate check |
| `ImportRoutes.ReimportRejected` | routes/import.js:24-35 | after a successful import exactly one record holds the key; a second request with the same URL gets 400 "Project already imported" and leaves the store unchanged |
| `ImportRoutes.HttpsPrefixHasNoMatch` | routes/import.js:239-249 | no platform's expression matches inside a leading `https://` |
| `ImportRoutes.ExtractHttpsUrl` | routes/import.js:238-251 | a URL `https://<marker><id><rest>`, where `rest` is empty or starts with `/` or `?`, yields exactly `id` |
| `ImportRoutes.SketchfabScenario` | routes/import.js:9-63 | importing `https://sketchfab.com/3d-models/abc123?utm=x` into a store without `abc123` succeeds; the record has external id `abc123` and category "3D Modeling", and its embed loads `https://sketchfab.com/models/abc123/embed` |
| `ImportRoutes.EmbedCarriesIdText` | routes/import.js:47 | whatever the extracted Sketchfab identifier contains appears unchanged in the stored `demoEmbed` |
| `ImportRoutes.ScriptIdReachesEmbed` | routes/import.js:239-267 | a Sketchfab URL whose identifier holds `<script>` is accepted, and the stored embed contains `<script>` |
| `ImportRoutes.MarkupIdExists` | routes/import.js:239 | the capture group accepts `"><script>alert(1)` as an identifier |
| `ImportRoutes.ImportFromPlatform` | routes/import.js:9-204 | the route's steps against the store: the response and the new records are those of `PlatformImport`, and uniqueness of platform keys is preserved |
| `ImportRoutes.ImportManual` | routes/import.js:207-235 | the manual route's steps against the store: the response and the new records are those of `ManualImport`, and uniqueness of platform keys is preserved |

## Left out

- Authentication: the `auth` middleware is not part of this model. Every
  request reaching a route is treated as authorised.
- Failures of the database itself, such as a `findOne` or `save` that rejects
  because the connection is lost. These would also end in the 500 response.
  They are not modelled, so every 500 in the model comes from a missing URL or
  payload, or from failed validation.
- The server-generated `_id`, Mongoose's `__v`, and the HTTP framing of
  responses beyond status, `success`, `message` and `project`.
- Mongoose's type casting of request values of the wrong JSON type (an object
  as `category`, a string such as `"abc"` as `featured`). Request fields are
  modelled as strings and booleans that are present or absent. An explicit
  `null` is treated like an absent field. A value Mongoose cannot cast makes
  `save()` reject (routes/import.js:55). The route then answers 500 "Failed to
  import project" (lines 65-70) and stores nothing. The model does not
  represent such values, so `PlatformImport`'s "succeeds exactly when
  accepted" covers only castable requests.
- Unknown payload fields on the manual route, which the schema's strict mode
  drops. The model's payload has only schema fields. Its `importData` takes
  the adapters' shape instead of an arbitrary JSON value.
- The race between `findOne` and `save` across concurrent requests: requests
  are modelled one at a time.
- The clock is read once per request: construction defaults and the pre-save
  hook use the same `now`.
- `console.log` calls and the unused `axios` import.
- `DocumentStore.ProjectStore.FindOne`: MongoDB does not promise which matching
  document `findOne` returns. The model promises only that it returns one of
  them, and the routes use only whether it found one.
