/**
 * The identifier extractors: `url.match(/<marker>([^\/?]+)/)`, an unanchored
 * search that takes the leftmost position where the marker is followed by at
 * least one character other than '/' and '?', and captures the longest run of
 * such characters (the `+` is greedy).
 */
module Extractors {
  import opened Wrappers

  /** A character the class `[^\/?]` accepts. */
  predicate IsIdChar(c: char) {
    c != '/' && c != '?'
  }

  /** A string the capture group `([^\/?]+)` can produce. */
  predicate IsId(s: string) {
    |s| > 0 && forall k :: 0 <= k < |s| ==> IsIdChar(s[k])
  }

  /** The regular expression matches starting at position i of url. */
  predicate MatchesAt(url: string, marker: string, i: int) {
    0 <= i && i + |marker| < |url| && url[i..i + |marker|] == marker && IsIdChar(url[i + |marker|])
  }

  /** The regular expression matches somewhere in url. */
  ghost predicate HasMatch(url: string, marker: string) {
    exists i :: MatchesAt(url, marker, i)
  }

  /**
   * id is what the group captures for a match at i: marker followed by id is
   * a substring of url at i, and the run cannot be extended.
   */
  ghost predicate CapturedAt(url: string, marker: string, i: int, id: string) {
    && 0 <= i
    && i + |marker| + |id| <= |url|
    && url[i..i + |marker| + |id|] == marker + id
    && IsId(id)
    && (i + |marker| + |id| == |url| || !IsIdChar(url[i + |marker| + |id|]))
  }

  /** The longest prefix of s made of identifier characters. */
  function IdRun(s: string): (r: string)
    ensures |r| <= |s| && r == s[..|r|]
    ensures forall k :: 0 <= k < |r| ==> IsIdChar(r[k])
    ensures |r| == |s| || !IsIdChar(s[|r|])
  {
    if |s| == 0 || !IsIdChar(s[0]) then [] else [s[0]] + IdRun(s[1..])
  }

  /** The search from position i onwards. */
  function SearchFrom(url: string, marker: string, i: nat): (r: Option<string>)
    ensures r.None? <==> forall j :: i <= j ==> !MatchesAt(url, marker, j)
    ensures r.Some? ==>
      exists j :: i <= j && CapturedAt(url, marker, j, r.value) &&
        forall k :: i <= k < j ==> !MatchesAt(url, marker, k)
    decreases |url| - i
  {
    if i + |marker| >= |url| then
      None
    else if url[i..i + |marker|] == marker && IsIdChar(url[i + |marker|]) then
      var id := IdRun(url[i + |marker|..]);
      assert url[i + |marker|..][0] == url[i + |marker|];
      assert url[i..i + |marker| + |id|] == url[i..i + |marker|] + url[i + |marker|..][..|id|];
      assert MatchesAt(url, marker, i);
      assert CapturedAt(url, marker, i, id);
      Some(id)
    else
      SearchFrom(url, marker, i + 1)
  }

  /**
   * `match ? match[1] : null`: None exactly when the expression matches
   * nowhere; otherwise the capture of the leftmost match.
   */
  function Extract(marker: string, url: string): (r: Option<string>)
    ensures r.None? <==> !HasMatch(url, marker)
    ensures r.Some? ==>
      exists i :: CapturedAt(url, marker, i, r.value) &&
        forall k :: 0 <= k < i ==> !MatchesAt(url, marker, k)
  {
    SearchFrom(url, marker, 0)
  }

  /** A capture is made at a position where the expression matches, and it is the run there. */
  lemma CaptureIsRun(url: string, marker: string, i: int, id: string)
    requires CapturedAt(url, marker, i, id)
    ensures MatchesAt(url, marker, i)
    ensures id == IdRun(url[i + |marker|..])
  {
    var whole := url[i..i + |marker| + |id|];
    assert url[i..i + |marker|] == whole[..|marker|];
    assert url[i + |marker|] == whole[|marker|] == id[0];
    var s := url[i + |marker|..];
    assert s[..|id|] == whole[|marker|..] == id;
    IdRunIsCapture(s, id);
  }

  /**
   * Round trip: a URL built as pre + marker + id + rest, where rest is empty or
   * starts with '/' or '?' (a further path segment or a query string) and pre
   * holds no earlier match, yields exactly id.
   */
  lemma ExtractAfterMarker(marker: string, pre: string, id: string, rest: string)
    requires IsId(id)
    requires rest == [] || !IsIdChar(rest[0])
    requires forall j :: 0 <= j < |pre| ==> !MatchesAt(pre + marker + id + rest, marker, j)
    ensures Extract(marker, pre + marker + id + rest) == Some(id)
  {
    var url := pre + marker + id + rest;
    CapturedAfterPrefix(pre, marker, id, rest);
    CaptureIsRun(url, marker, |pre|, id);
    assert HasMatch(url, marker);
    var r := Extract(marker, url);
    var i :| CapturedAt(url, marker, i, r.value) && forall k :: 0 <= k < i ==> !MatchesAt(url, marker, k);
    LeftmostCaptureUnique(url, marker, i, r.value, |pre|, id);
  }

  /** In pre + marker + id + rest, with rest empty or starting with '/' or '?', id is captured right after pre. */
  lemma CapturedAfterPrefix(pre: string, marker: string, id: string, rest: string)
    requires IsId(id)
    requires rest == [] || !IsIdChar(rest[0])
    ensures CapturedAt(pre + marker + id + rest, marker, |pre|, id)
  {
  }

  /** Two captures each made at a leftmost match are the same capture. */
  lemma LeftmostCaptureUnique(url: string, marker: string, i: int, a: string, j: int, b: string)
    requires CapturedAt(url, marker, i, a) && forall k :: 0 <= k < i ==> !MatchesAt(url, marker, k)
    requires CapturedAt(url, marker, j, b) && forall k :: 0 <= k < j ==> !MatchesAt(url, marker, k)
    ensures i == j && a == b
  {
    CaptureIsRun(url, marker, i, a);
    CaptureIsRun(url, marker, j, b);
  }

  /** A maximal run of identifier characters at the front of s is IdRun(s). */
  lemma {:induction false} IdRunIsCapture(s: string, id: string)
    requires |id| <= |s| && s[..|id|] == id
    requires forall k :: 0 <= k < |id| ==> IsIdChar(id[k])
    requires |id| == |s| || !IsIdChar(s[|id|])
    ensures IdRun(s) == id
  {
    if id != [] {
      assert s[1..][..|id| - 1] == id[1..];
      IdRunIsCapture(s[1..], id[1..]);
    }
  }
}
