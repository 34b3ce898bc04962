/**
 * The Sketchfab embed fragment: a fixed iframe template with the identifier
 * interpolated twice, into the `title` attribute and into the `src` URL. The
 * identifier is interpolated as it is; nothing is escaped.
 */
module Embed {

  /** t occurs in s starting at position k. */
  predicate InfixAt(t: string, s: string, k: int) {
    0 <= k && k + |t| <= |s| && s[k..k + |t|] == t
  }

  /** t occurs in s as a contiguous substring. */
  ghost predicate IsInfix(t: string, s: string) {
    exists k :: InfixAt(t, s, k)
  }

  /** A slice of a slice is a slice. */
  lemma SliceOfSlice(s: string, i: int, j: int, a: int, b: int)
    requires 0 <= i <= j <= |s| && 0 <= a <= b <= j - i
    ensures s[i..j][a..b] == s[i + a..i + b]
  {
    assert forall n :: 0 <= n < b - a ==> s[i..j][a..b][n] == s[i + a + n];
  }

  /** Whatever occurs in a slice of s occurs in s. */
  lemma InfixOfSlice(t: string, id: string, s: string, base: int)
    requires InfixAt(id, s, base)
    requires IsInfix(t, id)
    ensures IsInfix(t, s)
  {
    var k :| InfixAt(t, id, k);
    SliceOfSlice(s, base, base + |id|, k, k + |t|);
    assert InfixAt(t, s, base + k);
  }

  /** In a + t + b + u + c, t sits right after a and u right after a + t + b. */
  lemma FiveParts(a: string, t: string, b: string, u: string, c: string)
    ensures InfixAt(t, a + t + b + u + c, |a|)
    ensures InfixAt(u, a + t + b + u + c, |a| + |t| + |b|)
  {
  }

  /** When p + x + q sits at position k of s, x sits at position k + |p|. */
  lemma InfixWithin(p: string, x: string, q: string, s: string, k: int)
    requires InfixAt(p + x + q, s, k)
    ensures InfixAt(x, s, k + |p|)
  {
    SliceOfSlice(s, k, k + |p + x + q|, |p|, |p| + |x|);
    assert (p + x + q)[|p|..|p| + |x|] == x;
  }

  /** The `title` attribute of the iframe. */
  function TitleAttribute(id: string): string {
    "title=\"" + id + "\""
  }

  /** The player URL the iframe loads. */
  function PlayerUrl(id: string): string {
    "https://sketchfab.com/models/" + id + "/embed"
  }

  /** The `src` attribute of the iframe. */
  function SrcAttribute(id: string): string {
    "src=\"" + PlayerUrl(id) + "\""
  }

  /** The template text before the title attribute. */
  const Lead: string := "\n    <div class=\"sketchfab-embed-wrapper\">\n      <iframe \n        "

  /** The template text between the title and the src attributes. */
  const Attributes: string :=
    " \n        frameborder=\"0\" \n        allowfullscreen \n        mozallowfullscreen=\"true\" \n"
    + "        webkitallowfullscreen=\"true\" \n        allow=\"autoplay; fullscreen; xr-spatial-tracking\" \n"
    + "        xr-spatial-tracking \n        execution-while-out-of-viewport \n"
    + "        execution-while-not-rendered \n        web-share \n        "

  /** The template text after the src attribute. */
  const Trail: string := "\n        width=\"100%\" \n        height=\"400\">\n      </iframe>\n    </div>\n  "

  /**
   * generateSketchfabEmbed: the fragment carries the identifier verbatim in
   * `title="<id>"` and in `src="https://sketchfab.com/models/<id>/embed"`, and
   * the identifier can be read back from the fixed offset where it was put.
   */
  function SketchfabEmbed(id: string): (r: string)
    ensures IsInfix(TitleAttribute(id), r)
    ensures IsInfix(SrcAttribute(id), r)
    ensures InfixAt(id, r, |Lead| + 7)
  {
    var r := Lead + TitleAttribute(id) + Attributes + SrcAttribute(id) + Trail;
    FiveParts(Lead, TitleAttribute(id), Attributes, SrcAttribute(id), Trail);
    InfixWithin("title=\"", id, "\"", r, |Lead|);
    r
  }

  /** Distinct identifiers give distinct fragments. */
  lemma EmbedInjective(a: string, b: string)
    requires SketchfabEmbed(a) == SketchfabEmbed(b)
    ensures a == b
  {
  }

  /**
   * Markup in the identifier reaches the fragment unchanged: whatever the
   * identifier contains is a substring of the fragment.
   */
  lemma EmbedKeepsMarkup(id: string, t: string)
    requires IsInfix(t, id)
    ensures IsInfix(t, SketchfabEmbed(id))
  {
    InfixOfSlice(t, id, SketchfabEmbed(id), |Lead| + 7);
  }
}
