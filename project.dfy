/**
 * The `Project` schema: the record the import routes write, the defaults the
 * schema fills in when a document is constructed, the `required` validation
 * run on save, and the pre-save hook that refreshes `updatedAt`.
 */
module ProjectSchema {
  import opened Wrappers

  /** Milliseconds since the epoch, as `Date.now()` returns them. */
  type Timestamp = int

  /**
   * The `importData` payload. The schema stores it as an untyped blob; the
   * adapters are its only producers, so it takes their shape: a title and
   * description plus the platform-specific fields each adapter sets.
   */
  datatype ImportData = ImportData(
    title: string,
    description: string,
    software: Option<seq<string>>,
    fields: Option<seq<string>>,
    images: Option<seq<string>>,
    viewCount: Option<nat>,
    likeCount: Option<nat>)

  /** The object handed to `new Project({...})`: any field may be absent. */
  datatype ProjectInput = ProjectInput(
    title: Option<string>,
    description: Option<string>,
    category: Option<string>,
    images: Option<seq<string>>,
    technologies: Option<seq<string>>,
    projectUrl: Option<string>,
    githubUrl: Option<string>,
    demoEmbed: Option<string>,
    featured: Option<bool>,
    importedFrom: Option<string>,
    externalId: Option<string>,
    externalUrl: Option<string>,
    importData: Option<ImportData>,
    createdAt: Option<Timestamp>,
    updatedAt: Option<Timestamp>)

  /**
   * A constructed document. Fields with a default are always set; the rest
   * stay absent until validation decides whether the document may be saved.
   */
  datatype Project = Project(
    title: Option<string>,
    description: Option<string>,
    category: Option<string>,
    images: seq<string>,
    technologies: seq<string>,
    projectUrl: Option<string>,
    githubUrl: Option<string>,
    demoEmbed: Option<string>,
    featured: bool,
    importedFrom: Option<string>,
    externalId: Option<string>,
    externalUrl: Option<string>,
    importData: Option<ImportData>,
    createdAt: Timestamp,
    updatedAt: Timestamp)

  /** A `required: true` string path accepts only a present, non-empty string. */
  predicate RequiredString(v: Option<string>) {
    v.Some? && v.value != ""
  }

  /** The document passes the schema's validation: title, description and category are set. */
  predicate MeetsSchema(p: Project) {
    RequiredString(p.title) && RequiredString(p.description) && RequiredString(p.category)
  }

  /** Every field the input supplies is kept as supplied. */
  predicate KeepsSupplied(input: ProjectInput, p: Project) {
    && p.title == input.title && p.description == input.description && p.category == input.category
    && p.projectUrl == input.projectUrl && p.githubUrl == input.githubUrl && p.demoEmbed == input.demoEmbed
    && p.importedFrom == input.importedFrom && p.externalId == input.externalId
    && p.externalUrl == input.externalUrl && p.importData == input.importData
    && (input.images.Some? ==> p.images == input.images.value)
    && (input.technologies.Some? ==> p.technologies == input.technologies.value)
    && (input.featured.Some? ==> p.featured == input.featured.value)
    && (input.createdAt.Some? ==> p.createdAt == input.createdAt.value)
    && (input.updatedAt.Some? ==> p.updatedAt == input.updatedAt.value)
  }

  /**
   * `new Project(input)` at time now: supplied fields are kept, absent arrays
   * become empty, absent `featured` becomes false, absent `importedFrom` stays
   * null, and absent timestamps become now.
   */
  function NewProject(input: ProjectInput, now: Timestamp): (p: Project)
    ensures KeepsSupplied(input, p)
    ensures input.images.None? ==> p.images == []
    ensures input.technologies.None? ==> p.technologies == []
    ensures input.featured.None? ==> !p.featured
    ensures input.importedFrom.None? ==> p.importedFrom.None?
    ensures input.createdAt.None? ==> p.createdAt == now
    ensures input.updatedAt.None? ==> p.updatedAt == now
  {
    Project(
      title := input.title,
      description := input.description,
      category := input.category,
      images := if input.images.Some? then input.images.value else [],
      technologies := if input.technologies.Some? then input.technologies.value else [],
      projectUrl := input.projectUrl,
      githubUrl := input.githubUrl,
      demoEmbed := input.demoEmbed,
      featured := if input.featured.Some? then input.featured.value else false,
      importedFrom := input.importedFrom,
      externalId := input.externalId,
      externalUrl := input.externalUrl,
      importData := input.importData,
      createdAt := if input.createdAt.Some? then input.createdAt.value else now,
      updatedAt := if input.updatedAt.Some? then input.updatedAt.value else now)
  }

  /**
   * The document as the pre-save hook leaves it: `updatedAt` is now and no
   * other field differs.
   */
  function Stamped(p: Project, now: Timestamp): (r: Project)
    ensures r.updatedAt == now
    ensures r.(updatedAt := p.updatedAt) == p
    ensures MeetsSchema(r) == MeetsSchema(p)
  {
    p.(updatedAt := now)
  }

  /** A document object, as the routes hold it between construction and save. */
  class ProjectDocument {
    var record: Project

    /** `new Project(input)`. */
    constructor (input: ProjectInput, now: Timestamp)
      ensures record == NewProject(input, now)
    {
      record := NewProject(input, now);
    }

    /** The `pre('save')` hook: refreshes `updatedAt` in place and changes no other field. */
    method PreSave(now: Timestamp)
      modifies this
      ensures record.updatedAt == now
      ensures record.(updatedAt := old(record).updatedAt) == old(record)
      ensures record == Stamped(old(record), now)
    {
      record := record.(updatedAt := now);
    }
  }
}
