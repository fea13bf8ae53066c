/**
 * `url_to_filename`: the final file name of a download, taken from the URL
 * with the regular expression `/([^?/]+)([?].*)?$` (the last path segment,
 * without any query string), or, when the expression does not match, the
 * whole URL passed through `sanitize`.
 *
 * The expression is stated declaratively by `MatchAt`; `UrlToFilename`
 * scans for the leftmost match, as the regex engine reports it, and the
 * lemmas show the scan finds exactly that match.
 */
module UrlFilename {
  import opened Wrappers

  /** The characters the capture group `[^?/]` accepts. */
  predicate SegmentChar(c: char)
  {
    c != '?' && c != '/'
  }

  /** What `([?].*)?$` accepts: nothing, or `?` followed by characters other than a newline up to the end. */
  predicate QueryTail(t: string)
  {
    t == [] || (t[0] == '?' && forall k :: 1 <= k < |t| ==> t[k] != '\n')
  }

  /** The expression matches `url` from the `/` at position `p`, with `seg` as capture group 1. */
  ghost predicate MatchAt(url: string, p: nat, seg: string)
  {
    && p + 1 + |seg| <= |url|
    && url[p] == '/'
    && |seg| > 0
    && url[p + 1..p + 1 + |seg|] == seg
    && (forall k :: 0 <= k < |seg| ==> SegmentChar(seg[k]))
    && QueryTail(url[p + 1 + |seg|..])
  }

  /** The end of the longest run of segment characters starting at `i`. */
  function SegmentEnd(url: string, i: nat): (e: nat)
    requires i <= |url|
    ensures i <= e <= |url|
    ensures forall k :: i <= k < e ==> SegmentChar(url[k])
    ensures e == |url| || !SegmentChar(url[e])
    decreases |url| - i
  {
    if i == |url| || !SegmentChar(url[i]) then i else SegmentEnd(url, i + 1)
  }

  /** The capture of a match starting at `p`, if the expression matches there. */
  function TryAt(url: string, p: nat): (r: Option<string>)
    requires p < |url|
    ensures r.Some? ==> |r.value| > 0 && forall k :: 0 <= k < |r.value| ==> SegmentChar(r.value[k])
  {
    if url[p] != '/' then None
    else
      var e := SegmentEnd(url, p + 1);
      if e > p + 1 && QueryTail(url[e..]) then Some(url[p + 1..e]) else None
  }

  /** The leftmost position at or after `p` where the expression matches, with its capture. */
  function FirstMatch(url: string, p: nat): (r: Option<(nat, string)>)
    requires p <= |url|
    ensures r.Some? ==> p <= r.value.0 < |url| && url[r.value.0] == '/'
    ensures r.Some? ==> |r.value.1| > 0 && forall k :: 0 <= k < |r.value.1| ==> SegmentChar(r.value.1[k])
    decreases |url| - p
  {
    if p == |url| then None
    else
      match TryAt(url, p)
      case Some(seg) => Some((p, seg))
      case None => FirstMatch(url, p + 1)
  }

  /** `url_to_filename`, with `sanitize_filename::sanitize` as the parameter `sanitize`. */
  function UrlToFilename(url: string, sanitize: string -> string): (name: string)
    ensures name == sanitize(url) || (|name| > 0 && '/' !in name && '?' !in name)
  {
    match FirstMatch(url, 0)
    case Some((_, seg)) => seg
    case None => sanitize(url)
  }

  /**
   * At a given position the expression matches with at most one capture:
   * `[^?/]+` must stop where the run of segment characters stops, since the
   * next character is neither `?` nor the end of the string otherwise.
   */
  lemma TryAtExact(url: string, p: nat, seg: string)
    requires p < |url|
    ensures TryAt(url, p) == Some(seg) <==> MatchAt(url, p, seg)
  {
    if MatchAt(url, p, seg) {
      var e := SegmentEnd(url, p + 1);
      var f := p + 1 + |seg|;
      forall k | p + 1 <= k < f
        ensures SegmentChar(url[k])
      {
        assert url[k] == seg[k - (p + 1)];
      }
      if f < |url| {
        assert url[f..][0] == url[f];
        assert !SegmentChar(url[f]);
      }
      assert e == f;
    }
    if TryAt(url, p) == Some(seg) {
      var e := SegmentEnd(url, p + 1);
      assert seg == url[p + 1..e];
      assert forall k :: 0 <= k < |seg| ==> seg[k] == url[p + 1 + k];
    }
  }

  lemma {:induction false} FirstMatchSpec(url: string, p: nat)
    requires p <= |url|
    ensures FirstMatch(url, p).Some? ==>
      var (q, seg) := FirstMatch(url, p).value;
      p <= q && MatchAt(url, q, seg) &&
      forall q', seg' :: p <= q' < q ==> !MatchAt(url, q', seg')
    ensures FirstMatch(url, p).None? ==>
      forall q', seg' :: p <= q' ==> !MatchAt(url, q', seg')
    decreases |url| - p
  {
    if p == |url| {
      assert forall q', seg' :: p <= q' ==> !MatchAt(url, q', seg');
    } else {
      TryAtExact(url, p, url[p + 1..SegmentEnd(url, p + 1)]);
      match TryAt(url, p)
      case Some(seg) =>
        TryAtExact(url, p, seg);
      case None =>
        FirstMatchSpec(url, p + 1);
        forall seg' ensures !MatchAt(url, p, seg') {
          TryAtExact(url, p, seg');
        }
    }
  }

  /**
   * `url_to_filename` returns the capture of the leftmost match of
   * `/([^?/]+)([?].*)?$` when there is one, and `sanitize(url)` otherwise.
   */
  lemma UrlToFilenameSpec(url: string, sanitize: string -> string)
    ensures (exists p, seg :: MatchAt(url, p, seg)) ==>
      exists p :: MatchAt(url, p, UrlToFilename(url, sanitize)) &&
        forall q, seg :: q < p ==> !MatchAt(url, q, seg)
    ensures (forall p, seg :: !MatchAt(url, p, seg)) ==> UrlToFilename(url, sanitize) == sanitize(url)
  {
    FirstMatchSpec(url, 0);
    match FirstMatch(url, 0)
    case Some((q, seg)) =>
      assert MatchAt(url, q, UrlToFilename(url, sanitize));
    case None =>
  }

  /** When the expression matches, the file name is a non-empty run without `/` or `?`. */
  lemma MatchedNameIsSegment(url: string, sanitize: string -> string)
    requires exists p, seg :: MatchAt(url, p, seg)
    ensures |UrlToFilename(url, sanitize)| > 0
    ensures '/' !in UrlToFilename(url, sanitize) && '?' !in UrlToFilename(url, sanitize)
  {
    UrlToFilenameSpec(url, sanitize);
    var name := UrlToFilename(url, sanitize);
    var p :| MatchAt(url, p, name);
    assert forall k :: 0 <= k < |name| ==> SegmentChar(name[k]);
  }

  /**
   * For a URL whose part before the last `/` has no `?`, the file name is
   * the last path segment with any query string cut off: an earlier `/`
   * cannot start a match, because its run of segment characters stops at
   * another `/`.
   */
  lemma LastSegmentBeforeQuery(path: string, seg: string, query: string, sanitize: string -> string)
    requires '?' !in path
    requires |seg| > 0 && '/' !in seg && '?' !in seg
    requires QueryTail(query)
    ensures UrlToFilename(path + "/" + seg + query, sanitize) == seg
  {
    var url := path + "/" + seg + query;
    var a := |path|;
    assert url[a] == '/';
    assert url[a + 1..a + 1 + |seg|] == seg;
    assert url[a + 1 + |seg|..] == query;
    assert MatchAt(url, a, seg);
    forall q: nat, s | q < a
      ensures !MatchAt(url, q, s)
    {
      if url[q] == '/' {
        var e := SegmentEnd(url, q + 1);
        assert e <= a;
        assert url[e] != '?' by {
          if e < a {
            assert url[e] == path[e];
          }
        }
        assert url[e..][0] == url[e];
        assert TryAt(url, q) == None;
      }
      TryAtExact(url, q, s);
    }
    FirstMatchSpec(url, 0);
    assert FirstMatch(url, 0).Some?;
    var (q, s) := FirstMatch(url, 0).value;
    assert q == a;
    TryAtExact(url, a, s);
    TryAtExact(url, a, seg);
  }

  /** The last path segment of a URL with a query string, without the query. */
  lemma ExampleFileName(sanitize: string -> string)
    ensures UrlToFilename("https://example.com/path/file.zip?x=1", sanitize) == "file.zip"
  {
    assert "https://example.com/path/file.zip?x=1" == "https://example.com/path" + "/" + "file.zip" + "?x=1";
    LastSegmentBeforeQuery("https://example.com/path", "file.zip", "?x=1", sanitize);
  }
}
