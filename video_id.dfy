/**
 * `getVideoBv`: the video id of a link, taken from its href by the regular
 * expression `/video/([^/]+)`. The expression is written out here as the
 * search a regular-expression engine performs: try each start position from
 * the left, match the literal `/video/`, then take the greedy, non-empty run
 * of characters other than `/`.
 */
module VideoId {
  import opened Wrappers

  const VideoPath: string := "/video/"

  /** The expression matches at `p`: `/video/` followed by at least one non-`/` character. */
  predicate OccursAt(s: string, p: int) {
    0 <= p && p + |VideoPath| < |s| && s[p..p + |VideoPath|] == VideoPath && s[p + |VideoPath|] != '/'
  }

  /** `p` is the leftmost position where the expression matches. */
  predicate FirstOccurrence(s: string, p: int) {
    OccursAt(s, p) && forall q :: 0 <= q < p ==> !OccursAt(s, q)
  }

  /** `w` is the non-empty, greedy run of non-`/` characters of `s` starting at `i`. */
  predicate IsMaximalRun(s: string, i: nat, w: string) {
    w != [] && i + |w| <= |s| && s[i..i + |w|] == w && '/' !in w && (i + |w| == |s| || s[i + |w|] == '/')
  }

  /** The leftmost match at or after `from`. */
  function FindFrom(s: string, from: nat): (r: Option<nat>)
    decreases |s| - from
    ensures r.None? ==> forall q :: from <= q ==> !OccursAt(s, q)
    ensures r.Some? ==> from <= r.value && OccursAt(s, r.value)
    ensures r.Some? ==> forall q :: from <= q < r.value ==> !OccursAt(s, q)
  {
    if |s| <= from + |VideoPath| then None
    else if OccursAt(s, from) then Some(from)
    else FindFrom(s, from + 1)
  }

  /** The characters of `s` from `i` up to the next `/` or the end (`[^/]*`, greedy). */
  function RunFrom(s: string, i: nat): (w: string)
    requires i <= |s|
    decreases |s| - i
    ensures i + |w| <= |s| && s[i..i + |w|] == w && '/' !in w
    ensures i + |w| == |s| || s[i + |w|] == '/'
  {
    if i == |s| || s[i] == '/' then [] else [s[i]] + RunFrom(s, i + 1)
  }

  /** `getVideoBv(href)`: `[true, id]` on a match, `[false, ""]` otherwise. */
  function GetVideoBv(href: string): (r: (bool, string))
    ensures r.0 <==> exists p :: OccursAt(href, p)
    ensures r.0 ==> exists p :: FirstOccurrence(href, p) && IsMaximalRun(href, p + |VideoPath|, r.1)
    ensures !r.0 ==> r.1 == ""
  {
    match FindFrom(href, 0)
    case Some(p) =>
      var id := RunFrom(href, p + |VideoPath|);
      assert FirstOccurrence(href, p) && IsMaximalRun(href, p + |VideoPath|, id);
      (true, id)
    case None => (false, "")
  }

  /** Two maximal runs from the same position are the same string. */
  lemma MaximalRunUnique(s: string, i: nat, w: string, v: string)
    requires IsMaximalRun(s, i, w) && IsMaximalRun(s, i, v)
    ensures w == v
  {
    // each run is cut at the first `/` after `i`, so neither can be shorter
    assert |w| <= |v| by {
      assert forall k :: 0 <= k < |v| ==> v[k] in v;
      assert forall k :: 0 <= k < |v| ==> s[i + k] == v[k];
    }
    assert |v| <= |w| by {
      assert forall k :: 0 <= k < |w| ==> w[k] in w;
      assert forall k :: 0 <= k < |w| ==> s[i + k] == w[k];
    }
  }

  /** A match that ends inside a prefix of `s` is a match of that prefix. */
  lemma MatchWithinPrefix(prefix: string, s: string, q: nat)
    requires prefix <= s && q + |VideoPath| < |prefix|
    ensures OccursAt(s, q) ==> OccursAt(prefix, q)
  {
    assert s[q..q + |VideoPath|] == prefix[q..q + |VideoPath|];
    assert s[q + |VideoPath|] == prefix[q + |VideoPath|];
  }

  /**
   * A video path built from an id reads back as that id. `base` stands for
   * whatever precedes the path, such as the site's origin
   * (`https://www.bilibili.com`): it must not complete a match of its own
   * with the `/video/` after it, since the leftmost match wins. Whatever
   * follows the id must start with `/` or be empty, since the run is greedy.
   */
  lemma VideoUrlRoundTrip(base: string, id: string, rest: string)
    requires !GetVideoBv(base + VideoPath).0
    requires id != [] && '/' !in id
    requires rest == [] || rest[0] == '/'
    ensures GetVideoBv(base + VideoPath + id + rest) == (true, id)
  {
    var prefix := base + VideoPath;
    var s := prefix + id + rest;
    var p := |base|;
    assert s[p..p + |VideoPath|] == VideoPath;
    assert s[p + |VideoPath|] == id[0];
    assert id[0] in id;
    assert OccursAt(s, p);
    assert prefix <= s;
    forall q | 0 <= q < p
      ensures !OccursAt(s, q)
    {
      MatchWithinPrefix(prefix, s, q);
    }
    var r := GetVideoBv(s);
    var p' :| FirstOccurrence(s, p') && IsMaximalRun(s, p' + |VideoPath|, r.1);
    assert p' == p;
    assert s[p + |VideoPath|..p + |VideoPath| + |id|] == id;
    assert IsMaximalRun(s, p + |VideoPath|, id);
    MaximalRunUnique(s, p + |VideoPath|, r.1, id);
  }

  /**
   * The run is cut only at `/`, so the query string and the fragment stay part
   * of the id, and a `/` inside the fragment ends it: the link
   * `/video/BV1x?p=2&t=30#r/5` yields `BV1x?p=2&t=30#r`.
   */
  lemma QueryIsPartOfId()
    ensures GetVideoBv("/video/BV1x?p=2&t=30#r/5") == (true, "BV1x?p=2&t=30#r")
  {
    assert "/video/BV1x?p=2&t=30#r/5" == "" + VideoPath + "BV1x?p=2&t=30#r" + "/5";
    assert "" + VideoPath == VideoPath;
    VideoUrlRoundTrip("", "BV1x?p=2&t=30#r", "/5");
  }
}
