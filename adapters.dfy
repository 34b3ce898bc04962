/**
 * The placeholder adapters `getSketchfabProjectData`, `getArtstationProjectData`
 * and `getBehanceProjectData`: each maps an identifier to a fixed-shape
 * metadata record. The Sketchfab counts come from `Math.random`; they are
 * passed in as a draw within the ranges `Math.floor(Math.random() * n)` yields.
 */
module Adapters {
  import opened Wrappers
  import opened Platforms
  import opened ProjectSchema

  /** `Math.floor(Math.random() * 1000)`. */
  type ViewCount = n: nat | n < 1000

  /** `Math.floor(Math.random() * 100)`. */
  type LikeCount = n: nat | n < 100

  /** The random numbers one Sketchfab adapter call consumes. */
  datatype Draw = Draw(views: ViewCount, likes: LikeCount)

  /** The title each adapter builds: the platform's prefix, " - ", then the identifier. */
  function PlaceholderTitle(p: Platform, id: string): string {
    TitlePrefix(p) + " - " + id
  }

  /**
   * The adapter for p. The title carries the identifier after the platform's
   * prefix, so it can be read back from the title; the description is the
   * platform's non-empty placeholder text; Sketchfab adds the two counts,
   * ArtStation a software list and Behance a fields list, both with empty images.
   */
  function FetchMetadata(p: Platform, id: string, draw: Draw): (m: ImportData)
    ensures m.title == PlaceholderTitle(p, id)
    ensures m.title[|TitlePrefix(p)| + 3..] == id
    ensures m.description == AdapterDescription(p) && m.description != ""
    ensures m.software.Some? <==> p == ArtStation
    ensures m.fields.Some? <==> p == Behance
    ensures m.images.Some? <==> p != Sketchfab
    ensures m.images.Some? ==> m.images.value == []
    ensures m.viewCount.Some? <==> p == Sketchfab
    ensures m.viewCount.Some? ==> m.viewCount.value < 1000 && m.likeCount.Some? && m.likeCount.value < 100
  {
    match p
    case Sketchfab =>
      ImportData(PlaceholderTitle(p, id), AdapterDescription(p), None, None, None,
                 Some(draw.views as nat), Some(draw.likes as nat))
    case ArtStation =>
      ImportData(PlaceholderTitle(p, id), AdapterDescription(p),
                 Some(["Photoshop", "Blender", "ZBrush"]), None, Some([]), None, None)
    case Behance =>
      ImportData(PlaceholderTitle(p, id), AdapterDescription(p),
                 None, Some(["UI/UX Design", "Graphic Design"]), Some([]), None, None)
  }

  /** Two identifiers that give the same title on one platform are equal. */
  lemma TitleDeterminesId(p: Platform, a: string, b: string, da: Draw, db: Draw)
    requires FetchMetadata(p, a, da).title == FetchMetadata(p, b, db).title
    ensures a == b
  {
  }
}
