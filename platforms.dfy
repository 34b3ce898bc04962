/**
 * The three external galleries the import routes know about, and the constants
 * each route hard-codes: the value stored in `importedFrom`, the URL marker its
 * extractor searches for, and the texts and lists used as defaults.
 */
module Platforms {

  datatype Platform = Sketchfab | ArtStation | Behance

  /** The `importedFrom` value a route writes and queries. */
  function Tag(p: Platform): string {
    match p
    case Sketchfab => "sketchfab"
    case ArtStation => "artstation"
    case Behance => "behance"
  }

  /** The literal part of the route's regular expression before the capture group. */
  function Marker(p: Platform): string {
    match p
    case Sketchfab => "sketchfab.com/3d-models/"
    case ArtStation => "artstation.com/artwork/"
    case Behance => "behance.net/gallery/"
  }

  /** The platform name used in the "Invalid ... URL" message. */
  function DisplayName(p: Platform): string {
    match p
    case Sketchfab => "Sketchfab"
    case ArtStation => "ArtStation"
    case Behance => "Behance"
  }

  /** The text in front of the identifier in a placeholder title. */
  function TitlePrefix(p: Platform): string {
    match p
    case Sketchfab => "Sketchfab Model"
    case ArtStation => "ArtStation Artwork"
    case Behance => "Behance Project"
  }

  /** The placeholder description each adapter produces. */
  function AdapterDescription(p: Platform): string {
    match p
    case Sketchfab => "Imported 3D model from Sketchfab"
    case ArtStation => "Imported artwork from ArtStation"
    case Behance => "Imported project from Behance"
  }

  /** What a route writes when the adapter's description is falsy. */
  function DefaultDescription(p: Platform): string {
    match p
    case Sketchfab => "3D model from Sketchfab"
    case ArtStation => "Artwork from ArtStation"
    case Behance => "Project from Behance"
  }

  /** What a route writes when the request's category is falsy. */
  function DefaultCategory(p: Platform): string {
    match p
    case Sketchfab => "3D Modeling"
    case ArtStation => "Digital Art"
    case Behance => "Design"
  }

  /**
   * The technologies list a route falls back on. The Sketchfab route always
   * writes this list; the other two only when the adapter supplies none.
   */
  function DefaultTechnologies(p: Platform): seq<string> {
    match p
    case Sketchfab => ["Blender", "3D Modeling", "Texturing"]
    case ArtStation => ["Photoshop", "Digital Painting"]
    case Behance => ["UI/UX Design", "Graphic Design"]
  }

  /** An `importedFrom` value written by one of the three platform routes. */
  predicate IsPlatformTag(s: string) {
    s == "sketchfab" || s == "artstation" || s == "behance"
  }
}
