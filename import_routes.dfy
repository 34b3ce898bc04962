/**
 * The import routes: `POST /sketchfab`, `/artstation`, `/behance` and
 * `/manual`. The three platform routes share one sequence of steps (extract
 * the identifier, reject a malformed URL, reject a known identifier, build the
 * record from the adapter's metadata, save it), so they are one operation
 * parametrised by the platform. Their records differ beyond constants: the
 * Sketchfab route also builds an embed, sets no images and uses a fixed
 * technologies list, while the ArtStation and Behance routes take their
 * technologies and images from the adapter (see `ImportInput`). Each route is given
 * as a specification function over the sequence of stored records, and as a
 * method that runs the same steps against a `ProjectStore`.
 */
module ImportRoutes {
  import opened Wrappers
  import opened Platforms
  import opened Extractors
  import opened Embed
  import opened ProjectSchema
  import opened Adapters
  import opened DocumentStore

  /**
   * The body fields a platform route reads. `url` is None when the field is
   * missing or is not a string, so that `url.match` throws.
   */
  datatype ImportRequest = ImportRequest(url: Option<string>, category: Option<string>, featured: Option<bool>)

  /** The HTTP status and JSON body a route sends. */
  datatype Response = Response(status: nat, success: bool, message: string, project: Option<Project>)

  /** What a request leaves behind: its response and the store's records afterwards. */
  datatype Outcome = Outcome(response: Response, store: seq<Project>)

  const AlreadyImported: string := "Project already imported"
  const ImportFailed: string := "Failed to import project"
  const ImportSucceeded: string := "Project imported successfully"

  function InvalidUrlMessage(p: Platform): string {
    "Invalid " + DisplayName(p) + " URL"
  }

  function BadRequest(message: string): Response {
    Response(400, false, message, None)
  }

  /** The response of the routes' `catch` block. */
  const ServerError: Response := Response(500, false, ImportFailed, None)

  /** The success answer: status 200, `success: true`, the fixed message and the saved record. */
  function Created(rec: Project): Response {
    Response(200, true, ImportSucceeded, Some(rec))
  }

  /**
   * JavaScript's `v || fallback` on a string: the empty string is falsy, so a
   * value passes through exactly when it would pass a `required` check, and a
   * non-empty fallback always yields a value that passes it.
   */
  function OrString(v: Option<string>, fallback: string): (r: string)
    ensures RequiredString(v) ==> r == v.value
    ensures !RequiredString(v) ==> r == fallback
    ensures fallback != "" ==> RequiredString(Some(r))
  {
    if v.Some? && v.value != "" then v.value else fallback
  }

  /**
   * JavaScript's `v || fallback` on an array: an array, even an empty one, is
   * truthy, so only a missing array is replaced.
   */
  function OrList(v: Option<seq<string>>, fallback: seq<string>): seq<string> {
    if v.Some? then v.value else fallback
  }

  /** `featured || false`: true only when `true` was sent; absent and `false` both give false. */
  function OrFalse(v: Option<bool>): bool {
    v == Some(true)
  }

  /**
   * The extractor a platform route calls: None exactly when the platform's
   * marker is nowhere followed by an identifier character, otherwise a
   * non-empty identifier free of '/' and '?'.
   */
  function ExtractId(p: Platform, url: string): (r: Option<string>)
    ensures r.None? <==> !HasMatch(url, Marker(p))
    ensures r.Some? ==> IsId(r.value)
  {
    Extract(Marker(p), url)
  }

  /**
   * The object literal a platform route passes to `new Project(...)`: tagged
   * with the platform and identifier, pointing at the submitted URL, carrying
   * the adapter output, with a category and description that always pass the
   * `required` check, `featured` always set, and no timestamps of its own.
   */
  function ImportInput(p: Platform, req: ImportRequest, url: string, id: string, meta: ImportData): (r: ProjectInput)
    ensures r.importedFrom == Some(Tag(p)) && r.externalId == Some(id)
    ensures r.projectUrl == Some(url) && r.externalUrl == Some(url)
    ensures r.importData == Some(meta) && r.title == Some(meta.title)
    ensures RequiredString(r.category) && RequiredString(r.description)
    ensures r.featured.Some? && r.createdAt.None? && r.updatedAt.None?
    ensures r.demoEmbed.Some? <==> p == Sketchfab
  {
    ProjectInput(
      title := Some(meta.title),
      description := Some(OrString(Some(meta.description), DefaultDescription(p))),
      category := Some(OrString(req.category, DefaultCategory(p))),
      images := if p == Sketchfab then None else Some(OrList(meta.images, [])),
      technologies := Some(match p
        case Sketchfab => DefaultTechnologies(p)
        case ArtStation => OrList(meta.software, DefaultTechnologies(p))
        case Behance => OrList(meta.fields, DefaultTechnologies(p))),
      projectUrl := Some(url),
      githubUrl := None,
      demoEmbed := if p == Sketchfab then Some(SketchfabEmbed(id)) else None,
      featured := Some(OrFalse(req.featured)),
      importedFrom := Some(Tag(p)),
      externalId := Some(id),
      externalUrl := Some(url),
      importData := Some(meta),
      createdAt := None,
      updatedAt := None)
  }

  /** The request passes both guards: the URL is a string, it yields an identifier, and that identifier is new. */
  predicate Accepted(p: Platform, records: seq<Project>, req: ImportRequest) {
    && req.url.Some?
    && ExtractId(p, req.url.value).Some?
    && !Imported(records, Tag(p), ExtractId(p, req.url.value).value)
  }

  /**
   * A platform route. A missing URL makes `url.match` throw (500); a URL the
   * extractor rejects gives 400 "Invalid <Platform> URL"; an identifier already
   * stored for the platform gives 400 "Project already imported"; a rejected
   * request leaves the store as it was. Every accepted request succeeds, since
   * the record it builds always passes validation, and appends exactly that
   * record.
   */
  function PlatformImport(p: Platform, records: seq<Project>, req: ImportRequest, now: Timestamp, draw: Draw): (out: Outcome)
    ensures out.response.success <==> Accepted(p, records, req)
    ensures !out.response.success ==> out.store == records
    ensures out.response.success ==>
      out.response.project.Some? && out.store == records + [out.response.project.value]
    ensures out.response.success ==> out.response == Created(out.response.project.value)
    ensures req.url.None? ==> out.response == ServerError
    ensures req.url.Some? && ExtractId(p, req.url.value).None? ==>
      out.response == BadRequest(InvalidUrlMessage(p))
    ensures (req.url.Some? && ExtractId(p, req.url.value).Some? &&
             Imported(records, Tag(p), ExtractId(p, req.url.value).value)) ==>
      out.response == BadRequest(AlreadyImported)
  {
    match req.url
    case None => Outcome(ServerError, records)
    case Some(url) =>
      match ExtractId(p, url)
      case None => Outcome(BadRequest(InvalidUrlMessage(p)), records)
      case Some(id) =>
        if Imported(records, Tag(p), id) then
          Outcome(BadRequest(AlreadyImported), records)
        else
          var doc := NewProject(ImportInput(p, req, url, id, FetchMetadata(p, id, draw)), now);
          assert MeetsSchema(doc) by {
            assert doc.title == Some(PlaceholderTitle(p, id));
          }
          if MeetsSchema(doc) then
            var rec := Stamped(doc, now);
            Outcome(Created(rec), records + [rec])
          else
            Outcome(ServerError, records)
  }

  /**
   * The manual route: the payload's fields with `importedFrom` forced to
   * "manual", saved without any duplicate check. A missing payload makes
   * `projectData.title` throw (500); a payload without a non-empty title,
   * description and category fails validation (500); a failed request leaves
   * the store as it was.
   */
  function ManualImport(records: seq<Project>, payload: Option<ProjectInput>, now: Timestamp): (out: Outcome)
    ensures out.response.success <==>
      payload.Some? && RequiredString(payload.value.title) &&
      RequiredString(payload.value.description) && RequiredString(payload.value.category)
    ensures !out.response.success ==> out.response == ServerError && out.store == records
    ensures out.response.success ==>
      out.response.project.Some? && out.store == records + [out.response.project.value] &&
      out.response.project.value.importedFrom == Some("manual")
    ensures out.response.success ==> out.response == Created(out.response.project.value)
    ensures out.response.success ==>
      KeepsSupplied(payload.value.(importedFrom := Some("manual"), updatedAt := None), out.response.project.value) &&
      out.response.project.value.updatedAt == now
  {
    match payload
    case None => Outcome(ServerError, records)
    case Some(data) =>
      var doc := NewProject(data.(importedFrom := Some("manual")), now);
      if MeetsSchema(doc) then
        var rec := Stamped(doc, now);
        Outcome(Created(rec), records + [rec])
      else
        Outcome(ServerError, records)
  }

  /**
   * The record a successful manual request stores is the payload: every field
   * the payload supplies is kept, except that `importedFrom` is "manual" and
   * `updatedAt` is the time of the save; absent arrays are empty, an absent
   * `featured` is false, an absent `createdAt` is the time of the request, and
   * absent optional fields such as `externalId` stay absent.
   */
  lemma ManualRecord(records: seq<Project>, data: ProjectInput, now: Timestamp)
    requires RequiredString(data.title) && RequiredString(data.description) && RequiredString(data.category)
    ensures
      var out := ManualImport(records, Some(data), now);
      var rec := out.response.project.value;
      && out.response.success
      && rec.title == data.title && rec.description == data.description && rec.category == data.category
      && rec.projectUrl == data.projectUrl && rec.githubUrl == data.githubUrl && rec.demoEmbed == data.demoEmbed
      && rec.externalId == data.externalId && rec.externalUrl == data.externalUrl && rec.importData == data.importData
      && rec.importedFrom == Some("manual")
      && rec.images == (if data.images.Some? then data.images.value else [])
      && rec.technologies == (if data.technologies.Some? then data.technologies.value else [])
      && rec.featured == (data.featured == Some(true))
      && rec.createdAt == (if data.createdAt.Some? then data.createdAt.value else now)
      && rec.updatedAt == now
  {
  }

  /**
   * The manual payload {title "X", description "Y", category "Z"} is stored
   * as a record titled "X", tagged "manual", with no external identifier,
   * not featured and with no images.
   */
  lemma ManualScenario(records: seq<Project>, now: Timestamp)
    ensures
      var data := ProjectInput(Some("X"), Some("Y"), Some("Z"), None, None, None, None, None,
                               None, None, None, None, None, None, None);
      var out := ManualImport(records, Some(data), now);
      var rec := out.response.project.value;
      && out.response.success
      && out.store == records + [rec]
      && rec.title == Some("X") && rec.importedFrom == Some("manual") && rec.externalId.None?
      && !rec.featured && rec.images == []
  {
    var data := ProjectInput(Some("X"), Some("Y"), Some("Z"), None, None, None, None, None,
                             None, None, None, None, None, None, None);
    ManualRecord(records, data, now);
  }

  /**
   * The record an accepted platform request stores: tagged with the platform
   * and the extracted identifier, pointing at the submitted URL, carrying the
   * adapter's output, titled "<prefix> - <id>", with the request's category
   * and featured flag or their defaults, the technologies the adapter gives
   * (Sketchfab: its fixed list), no images, an embed only for Sketchfab, and
   * both timestamps at the time of the request.
   */
  lemma ImportedRecord(p: Platform, records: seq<Project>, req: ImportRequest, now: Timestamp, draw: Draw)
    requires Accepted(p, records, req)
    ensures
      var url := req.url.value;
      var id := ExtractId(p, url).value;
      var rec := PlatformImport(p, records, req, now, draw).response.project.value;
      && rec.importedFrom == Some(Tag(p))
      && rec.externalId == Some(id)
      && rec.projectUrl == Some(url) && rec.externalUrl == Some(url)
      && rec.importData == Some(FetchMetadata(p, id, draw))
      && rec.title == Some(TitlePrefix(p) + " - " + id)
      && rec.description == Some(AdapterDescription(p))
      && rec.category == Some(if req.category.Some? && req.category.value != "" then req.category.value
                              else DefaultCategory(p))
      && rec.featured == (req.featured == Some(true))
      && rec.technologies == (match p
           case Sketchfab => ["Blender", "3D Modeling", "Texturing"]
           case ArtStation => ["Photoshop", "Blender", "ZBrush"]
           case Behance => ["UI/UX Design", "Graphic Design"])
      && rec.images == []
      && rec.githubUrl.None?
      && (rec.demoEmbed.Some? <==> p == Sketchfab)
      && (p == Sketchfab ==> rec.demoEmbed == Some(SketchfabEmbed(id)))
      && rec.createdAt == now && rec.updatedAt == now
  {
  }

  /** A platform request keeps the platform-imported records unique. */
  lemma PlatformImportKeepsUnique(p: Platform, records: seq<Project>, req: ImportRequest, now: Timestamp, draw: Draw)
    requires UniqueImports(records)
    ensures UniqueImports(PlatformImport(p, records, req, now, draw).store)
  {
  }

  /** A manual request keeps the platform-imported records unique: its record is tagged "manual". */
  lemma ManualImportKeepsUnique(records: seq<Project>, payload: Option<ProjectInput>, now: Timestamp)
    requires UniqueImports(records)
    ensures UniqueImports(ManualImport(records, payload, now).store)
  {
  }

  /** The manual route's outcome for the caller does not depend on what is already stored. */
  lemma ManualIgnoresStore(a: seq<Project>, b: seq<Project>, payload: Option<ProjectInput>, now: Timestamp)
    ensures ManualImport(a, payload, now).response == ManualImport(b, payload, now).response
  {
  }

  /**
   * Importing the same URL twice: after a successful import exactly one
   * record holds the identifier for the platform, and a second request for
   * that URL, whatever its other fields, is rejected as already imported and
   * leaves the store unchanged.
   */
  lemma ReimportRejected(p: Platform, records: seq<Project>, req: ImportRequest, again: ImportRequest,
                         now: Timestamp, later: Timestamp, draw: Draw, redraw: Draw)
    requires Accepted(p, records, req)
    requires again.url == req.url
    ensures
      var id := ExtractId(p, req.url.value).value;
      var first := PlatformImport(p, records, req, now, draw);
      var second := PlatformImport(p, first.store, again, later, redraw);
      && CountImports(first.store, Tag(p), id) == 1
      && second.response == BadRequest(AlreadyImported)
      && second.store == first.store
  {
    var id := ExtractId(p, req.url.value).value;
    var first := PlatformImport(p, records, req, now, draw);
    ImportedRecord(p, records, req, now, draw);
    var n := |first.store| - 1;
    assert first.store[..n] == records;
    assert Matches(first.store[n], Tag(p), id);
    assert Imported(first.store, Tag(p), id);
  }

  /** The URL prefix "https://" holds no match for any platform's expression. */
  lemma HttpsPrefixHasNoMatch(p: Platform, id: string, rest: string)
    ensures forall j :: 0 <= j < 8 ==> !MatchesAt("https://" + Marker(p) + id + rest, Marker(p), j)
  {
    var url := "https://" + Marker(p) + id + rest;
    var m := Marker(p);
    forall j | 0 <= j < 8
      ensures !MatchesAt(url, m, j)
    {
      assert url[j] == "https://"[j] && url[j + 1] == ("https://" + m)[j + 1];
      assert url[j..j + |m|][0] == url[j] && url[j..j + |m|][1] == url[j + 1];
    }
  }

  /** A platform URL of the usual form "https://<marker><id><rest>" yields id. */
  lemma ExtractHttpsUrl(p: Platform, id: string, rest: string)
    requires IsId(id)
    requires rest == [] || !IsIdChar(rest[0])
    ensures ExtractId(p, "https://" + Marker(p) + id + rest) == Some(id)
  {
    HttpsPrefixHasNoMatch(p, id, rest);
    ExtractAfterMarker(Marker(p), "https://", id, rest);
  }

  /**
   * Importing "https://sketchfab.com/3d-models/abc123?utm=x" into a store
   * that does not hold "abc123" stores a record with that identifier, whose
   * embed names the model.
   */
  lemma SketchfabScenario(records: seq<Project>, now: Timestamp, draw: Draw)
    requires !Imported(records, "sketchfab", "abc123")
    ensures
      var req := ImportRequest(Some("https://sketchfab.com/3d-models/abc123?utm=x"), None, None);
      var out := PlatformImport(Sketchfab, records, req, now, draw);
      && out.response.success
      && out.response.project.value.externalId == Some("abc123")
      && out.response.project.value.category == Some("3D Modeling")
      && IsInfix(SrcAttribute("abc123"), out.response.project.value.demoEmbed.value)
  {
    var url := "https://sketchfab.com/3d-models/abc123?utm=x";
    assert url == "https://" + Marker(Sketchfab) + "abc123" + "?utm=x";
    ExtractHttpsUrl(Sketchfab, "abc123", "?utm=x");
    ImportedRecord(Sketchfab, records, ImportRequest(Some(url), None, None), now, draw);
  }

  /**
   * Whatever the extracted identifier contains reaches the stored Sketchfab
   * embed unchanged: nothing is escaped on the way.
   */
  lemma EmbedCarriesIdText(records: seq<Project>, req: ImportRequest, now: Timestamp, draw: Draw, t: string)
    requires Accepted(Sketchfab, records, req)
    requires IsInfix(t, ExtractId(Sketchfab, req.url.value).value)
    ensures IsInfix(t, PlatformImport(Sketchfab, records, req, now, draw).response.project.value.demoEmbed.value)
  {
    ImportedRecord(Sketchfab, records, req, now, draw);
    EmbedKeepsMarkup(ExtractId(Sketchfab, req.url.value).value, t);
  }

  /**
   * A Sketchfab URL whose identifier holds a script tag is accepted, and the
   * stored fragment contains the tag as written.
   */
  lemma ScriptIdReachesEmbed(records: seq<Project>, id: string, now: Timestamp, draw: Draw)
    requires IsId(id) && IsInfix("<script>", id)
    requires !Imported(records, "sketchfab", id)
    ensures
      var req := ImportRequest(Some("https://sketchfab.com/3d-models/" + id), None, None);
      var out := PlatformImport(Sketchfab, records, req, now, draw);
      out.response.success && IsInfix("<script>", out.response.project.value.demoEmbed.value)
  {
    var url := "https://sketchfab.com/3d-models/" + id;
    assert url == "https://" + Marker(Sketchfab) + id + "";
    ExtractHttpsUrl(Sketchfab, id, "");
    EmbedCarriesIdText(records, ImportRequest(Some(url), None, None), now, draw, "<script>");
  }

  /** The extractor's character class admits markup: `"><script>alert(1)` is an identifier. */
  lemma MarkupIdExists()
    ensures exists id :: IsId(id) && IsInfix("<script>", id)
  {
    var id := "\"><script>alert(1)";
    assert InfixAt("<script>", id, 2);
    assert IsId(id);
  }

  /** `POST /sketchfab`, `/artstation` and `/behance`, run against the store. */
  method ImportFromPlatform(store: ProjectStore, p: Platform, req: ImportRequest, now: Timestamp, draw: Draw)
    returns (response: Response)
    modifies store
    ensures Outcome(response, store.records) == PlatformImport(p, old(store.records), req, now, draw)
    ensures UniqueImports(old(store.records)) ==> UniqueImports(store.records)
  {
    if UniqueImports(store.records) {
      PlatformImportKeepsUnique(p, store.records, req, now, draw);
    }
    if req.url.None? {
      return ServerError;
    }
    var url := req.url.value;
    var id := ExtractId(p, url);
    if id.None? {
      return BadRequest(InvalidUrlMessage(p));
    }
    var existing := store.FindOne(Tag(p), id.value);
    if existing.Some? {
      return BadRequest(AlreadyImported);
    }
    var projectData := FetchMetadata(p, id.value, draw);
    var project := new ProjectDocument(ImportInput(p, req, url, id.value, projectData), now);
    var saved := store.Save(project, now);
    if !saved {
      return ServerError;
    }
    response := Created(project.record);
  }

  /** `POST /manual`, run against the store. */
  method ImportManual(store: ProjectStore, payload: Option<ProjectInput>, now: Timestamp)
    returns (response: Response)
    modifies store
    ensures Outcome(response, store.records) == ManualImport(old(store.records), payload, now)
    ensures UniqueImports(old(store.records)) ==> UniqueImports(store.records)
  {
    if UniqueImports(store.records) {
      ManualImportKeepsUnique(store.records, payload, now);
    }
    if payload.None? {
      return ServerError;
    }
    var project := new ProjectDocument(payload.value.(importedFrom := Some("manual")), now);
    var saved := store.Save(project, now);
    if !saved {
      return ServerError;
    }
    response := Created(project.record);
  }
}
