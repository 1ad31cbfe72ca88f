/**
 * The URL classifier of the repository's companion object: the two fixed patterns
 * `/listen/[^/]+/([a-zA-Z0-9_]+)` and `/visit/[^/]+/([a-zA-Z0-9_]+)` searched with
 * leftmost-match (`Regex.find`) semantics, and the case-insensitive direct-stream test.
 */
module Classifier {
  import opened Wrappers
  import opened Text

  const ListenMarker: string := "/listen/"
  const VisitMarker: string := "/visit/"
  const DirectoryDomain: string := "radio.garden"

  /** The character class `[a-zA-Z0-9_]`. */
  predicate IsIdChar(c: char) {
    'a' <= c <= 'z' || 'A' <= c <= 'Z' || '0' <= c <= '9' || c == '_'
  }

  /** A string the capture group `([a-zA-Z0-9_]+)` can produce. */
  predicate IsId(s: string) {
    |s| > 0 && forall i | 0 <= i < |s| :: IsIdChar(s[i])
  }

  // ---------------------------------------------------------------------------------------
  // Specification of a match.

  /**
   * The pattern `<marker>[^/]+/([a-zA-Z0-9_]+)` matches `s` starting at `p`, its separating
   * slash is at `q`, and the greedy capture group takes `id`: the marker at `p`, a non-empty
   * run of non-slash characters up to `q`, then `id`, which no identifier character extends.
   */
  ghost predicate MatchShape(s: string, marker: string, p: int, q: int, id: string) {
    && 0 <= p && p + |marker| < q < |s|
    && s[p..p + |marker|] == marker
    && s[q] == '/'
    && (forall k | p + |marker| <= k < q :: s[k] != '/')
    && q + 1 + |id| <= |s|
    && s[q + 1..q + 1 + |id|] == id
    && IsId(id)
    && (q + 1 + |id| == |s| || !IsIdChar(s[q + 1 + |id|]))
  }

  /** The pattern matches somewhere starting at `p`. */
  ghost predicate MatchesAt(s: string, marker: string, p: int) {
    exists q, id :: MatchShape(s, marker, p, q, id)
  }

  /** `id` is what `find` captures: the pattern matches at `p` and at no earlier start from `from`. */
  ghost predicate LeftmostCapture(s: string, marker: string, from: int, p: int, id: string) {
    && from <= p
    && (exists q :: MatchShape(s, marker, p, q, id))
    && forall p' | from <= p' < p :: !MatchesAt(s, marker, p')
  }

  // ---------------------------------------------------------------------------------------
  // The matcher.

  /** Where `[^/]+` stops when started at `i`: the first slash at or after `i`, or `|s|`. */
  function SlashFrom(s: string, i: nat): (j: nat)
    requires i <= |s|
    ensures i <= j <= |s|
    ensures j < |s| ==> s[j] == '/'
    ensures forall k | i <= k < j :: s[k] != '/'
    decreases |s| - i
  {
    if i == |s| || s[i] == '/' then i else SlashFrom(s, i + 1)
  }

  /** Where the greedy `[a-zA-Z0-9_]+` stops when started at `i`. */
  function IdRunEnd(s: string, i: nat): (j: nat)
    requires i <= |s|
    ensures i <= j <= |s|
    ensures forall k | i <= k < j :: IsIdChar(s[k])
    ensures j < |s| ==> !IsIdChar(s[j])
    decreases |s| - i
  {
    if i == |s| || !IsIdChar(s[i]) then i else IdRunEnd(s, i + 1)
  }

  /** The capture of an attempt to match at `p` alone, with no search further right. */
  function CaptureAt(s: string, marker: string, p: nat): (r: Option<string>)
    requires p <= |s|
    ensures r.Some? ==> exists q :: MatchShape(s, marker, p, q, r.value)
    ensures forall q, id | MatchShape(s, marker, p, q, id) :: r == Some(id)
  {
    if p + |marker| <= |s| && s[p..p + |marker|] == marker then
      var q := SlashFrom(s, p + |marker|);
      if q == p + |marker| || q == |s| then None
      else
        var e := IdRunEnd(s, q + 1);
        if e == q + 1 then None
        else
          assert MatchShape(s, marker, p, q, s[q + 1..e]);
          CaptureShapeUnique(s, marker, p, q, e);
          Some(s[q + 1..e])
    else None
  }

  /** Any match at `p` has its slash at `q` and captures `s[q + 1..e]`, given where the greedy runs stop. */
  lemma CaptureShapeUnique(s: string, marker: string, p: nat, q: nat, e: nat)
    requires p + |marker| < q < e <= |s|
    requires q == SlashFrom(s, p + |marker|) && e == IdRunEnd(s, q + 1)
    ensures forall q', id | MatchShape(s, marker, p, q', id) :: q' == q && id == s[q + 1..e]
  {
    forall q', id | MatchShape(s, marker, p, q', id)
      ensures q' == q && id == s[q + 1..e]
    {
      assert q' == q;
    }
  }

  /** `Regex.find` started at `from`: the capture of the leftmost match at or after `from`. */
  function FindFrom(s: string, marker: string, from: nat): (r: Option<string>)
    requires from <= |s|
    ensures r.None? ==> forall p | from <= p :: !MatchesAt(s, marker, p)
    ensures r.Some? ==> exists p :: LeftmostCapture(s, marker, from, p, r.value)
    decreases |s| - from
  {
    var here := CaptureAt(s, marker, from);
    if here.Some? then
      assert LeftmostCapture(s, marker, from, from, here.value);
      here
    else if from == |s| then
      assert forall p | from <= p :: !MatchesAt(s, marker, p) by {
        forall p | from <= p ensures !MatchesAt(s, marker, p) {
          if p > from {
            assert forall q, id :: !MatchShape(s, marker, p, q, id);
          }
        }
      }
      None
    else
      var rest := FindFrom(s, marker, from + 1);
      if rest.Some? then LeftmostExtends(s, marker, from, from + 1, rest.value); rest else rest
  }

  /** A start where nothing matches can be added in front of a leftmost search. */
  lemma LeftmostExtends(s: string, marker: string, from: nat, next: nat, id: string)
    requires from < |s| && next == from + 1 && CaptureAt(s, marker, from).None?
    requires exists p :: LeftmostCapture(s, marker, next, p, id)
    ensures exists p :: LeftmostCapture(s, marker, from, p, id)
  {
    var p :| LeftmostCapture(s, marker, next, p, id);
    assert LeftmostCapture(s, marker, from, p, id);
  }

  /** The capture of the leftmost match of `<marker>[^/]+/([a-zA-Z0-9_]+)` in `s`, if any. */
  function Find(s: string, marker: string): (r: Option<string>)
    ensures r.None? <==> forall p :: !MatchesAt(s, marker, p)
    ensures r.Some? ==> IsId(r.value) && exists p :: LeftmostCapture(s, marker, 0, p, r.value)
  {
    CapturesAreIds(s, marker);
    FindFrom(s, marker, 0)
  }

  /** Whatever the capture group takes is an identifier, and nothing matches before index 0. */
  lemma CapturesAreIds(s: string, marker: string)
    ensures forall from, p, id | LeftmostCapture(s, marker, from, p, id) :: IsId(id)
    ensures forall from, p, id | LeftmostCapture(s, marker, from, p, id) :: MatchesAt(s, marker, p)
    ensures forall p | p < 0 :: !MatchesAt(s, marker, p)
  {
    forall from, p, id | LeftmostCapture(s, marker, from, p, id)
      ensures IsId(id) && MatchesAt(s, marker, p)
    {
      var q :| MatchShape(s, marker, p, q, id);
    }
  }

  /** A match that no earlier start has is the one `find` reports: the matcher is complete. */
  lemma LeftmostMatchIsFound(s: string, marker: string, p: int, q: int, id: string)
    requires MatchShape(s, marker, p, q, id)
    requires forall p' | 0 <= p' < p :: !MatchesAt(s, marker, p')
    ensures Find(s, marker) == Some(id)
  {
    assert MatchesAt(s, marker, p);
    var r := Find(s, marker);
    var p0 :| LeftmostCapture(s, marker, 0, p0, r.value);
    var q0 :| MatchShape(s, marker, p0, q0, r.value);
    if p0 < p {
      assert MatchesAt(s, marker, p0);
    }
    assert CaptureAt(s, marker, p) == Some(id) && CaptureAt(s, marker, p) == Some(r.value);
  }

  // ---------------------------------------------------------------------------------------
  // The companion object's functions.

  /** `extractChannelId`: the id captured by the leftmost `/listen/<segment>/<id>` match. */
  function ExtractChannelId(url: string): (r: Option<string>)
    ensures r.None? <==> forall p :: !MatchesAt(url, ListenMarker, p)
    ensures r.Some? ==> IsId(r.value) && exists p :: LeftmostCapture(url, ListenMarker, 0, p, r.value)
  {
    Find(url, ListenMarker)
  }

  /** `extractPlaceId`: the id captured by the leftmost `/visit/<segment>/<id>` match. */
  function ExtractPlaceId(url: string): (r: Option<string>)
    ensures r.None? <==> forall p :: !MatchesAt(url, VisitMarker, p)
    ensures r.Some? ==> IsId(r.value) && exists p :: LeftmostCapture(url, VisitMarker, 0, p, r.value)
  {
    Find(url, VisitMarker)
  }

  /** `extractChannelIdFromPageUrl`: the same pattern as ExtractChannelId, applied to a page url. */
  function ExtractChannelIdFromPageUrl(pageUrl: string): (r: Option<string>)
    ensures r.None? <==> forall p :: !MatchesAt(pageUrl, ListenMarker, p)
    ensures r.Some? ==> IsId(r.value) && exists p :: LeftmostCapture(pageUrl, ListenMarker, 0, p, r.value)
  {
    Find(pageUrl, ListenMarker)
  }

  /**
   * `isDirectStreamUrl`: after lowercasing, the url starts with "http://" or "https://" and
   * mentions the directory's domain nowhere.
   */
  predicate IsDirectStreamUrl(url: string)
    ensures IsDirectStreamUrl(url) ==> |url| >= 7 && (url[0] == 'h' || url[0] == 'H')
    ensures Contains(url, DirectoryDomain) ==> !IsDirectStreamUrl(url)
  {
    DomainSurvivesLowercase(url);
    var lower := Lowercase(url);
    (StartsWith(lower, "http://") || StartsWith(lower, "https://")) && !Contains(lower, DirectoryDomain)
  }

  /** The domain, written in lower case in `url`, is still there after lowercasing. */
  lemma DomainSurvivesLowercase(url: string)
    ensures Contains(url, DirectoryDomain) ==> Contains(Lowercase(url), DirectoryDomain)
  {
    if Contains(url, DirectoryDomain) {
      var i :| 0 <= i <= |url| - |DirectoryDomain| && OccursAt(url, DirectoryDomain, i);
      LowercaseSlice(url, i, i + |DirectoryDomain|);
      assert Lowercase(DirectoryDomain) == DirectoryDomain;
      assert OccursAt(Lowercase(url), DirectoryDomain, i);
    }
  }

  /** What a pasted string is, in the order the repository tries the patterns. */
  datatype Intent = DirectStreamLink | ChannelLink(channelId: string) | PlaceLink(placeId: string) | Unrecognized

  /**
   * The dispatch at the head of `resolveUrl`: a direct stream first, then a channel link,
   * then a place link; the first that applies wins.
   */
  function Classify(url: string): (i: Intent)
    ensures i.DirectStreamLink? <==> IsDirectStreamUrl(url)
    ensures i.ChannelLink? <==>
      !IsDirectStreamUrl(url) && exists p :: MatchesAt(url, ListenMarker, p)
    ensures i.ChannelLink? ==> IsId(i.channelId) && ExtractChannelId(url) == Some(i.channelId)
    ensures i.PlaceLink? <==>
      && !IsDirectStreamUrl(url)
      && (forall p :: !MatchesAt(url, ListenMarker, p))
      && exists p :: MatchesAt(url, VisitMarker, p)
    ensures i.PlaceLink? ==> IsId(i.placeId) && ExtractPlaceId(url) == Some(i.placeId)
    ensures i.Unrecognized? <==>
      && !IsDirectStreamUrl(url)
      && (forall p :: !MatchesAt(url, ListenMarker, p))
      && (forall p :: !MatchesAt(url, VisitMarker, p))
  {
    if IsDirectStreamUrl(url) then DirectStreamLink
    else match ExtractChannelId(url)
      case Some(id) => ChannelLink(id)
      case None =>
        match ExtractPlaceId(url)
        case Some(id) => PlaceLink(id)
        case None => Unrecognized
  }

  // ---------------------------------------------------------------------------------------
  // Case-insensitivity of the direct-stream test, against a reference definition.

  /** `a` and `b` differ at most in the case of ASCII letters. */
  predicate EqualIgnoringCase(a: string, b: string) {
    |a| == |b| && forall i | 0 <= i < |a| :: LowerChar(a[i]) == LowerChar(b[i])
  }

  /** `u` starts with `prefix`, ignoring case. */
  predicate StartsWithIgnoringCase(u: string, prefix: string) {
    |prefix| <= |u| && EqualIgnoringCase(u[..|prefix|], prefix)
  }

  /** The directory's domain occurs in `u` at index `i`, ignoring case. */
  predicate DomainAt(u: string, i: int) {
    0 <= i <= |u| - |DirectoryDomain| && EqualIgnoringCase(u[i..i + |DirectoryDomain|], DirectoryDomain)
  }

  lemma LowercaseSlice(u: string, i: nat, j: nat)
    requires i <= j <= |u|
    ensures Lowercase(u)[i..j] == Lowercase(u[i..j])
  {
  }

  /** Against a constant already in lower case, ignoring case is comparing the lowercased text. */
  lemma IgnoringCaseAgainstLower(x: string, t: string)
    requires Lowercase(t) == t
    ensures EqualIgnoringCase(x, t) <==> Lowercase(x) == t
  {
    if EqualIgnoringCase(x, t) {
      forall i | 0 <= i < |x| ensures Lowercase(x)[i] == t[i] {
        assert LowerChar(t[i]) == Lowercase(t)[i];
      }
    }
    if Lowercase(x) == t {
      forall i | 0 <= i < |x| ensures LowerChar(x[i]) == LowerChar(t[i]) {
        assert LowerChar(t[i]) == Lowercase(t)[i];
      }
    }
  }

  /**
   * The direct-stream test is case-insensitive for both the scheme and the domain: it holds
   * exactly when `u` starts with "http://" or "https://" in any case and contains
   * "radio.garden" in no case.
   */
  lemma DirectStreamIgnoresCase(u: string)
    ensures IsDirectStreamUrl(u) <==>
      (StartsWithIgnoringCase(u, "http://") || StartsWithIgnoringCase(u, "https://"))
      && forall i :: !DomainAt(u, i)
  {
    var lower := Lowercase(u);
    assert Lowercase("http://") == "http://";
    assert Lowercase("https://") == "https://";
    assert Lowercase(DirectoryDomain) == DirectoryDomain;
    if |u| >= 7 {
      LowercaseSlice(u, 0, 7);
      IgnoringCaseAgainstLower(u[..7], "http://");
    }
    if |u| >= 8 {
      LowercaseSlice(u, 0, 8);
      IgnoringCaseAgainstLower(u[..8], "https://");
    }
    forall i | 0 <= i <= |u| - |DirectoryDomain|
      ensures DomainAt(u, i) <==> OccursAt(lower, DirectoryDomain, i)
    {
      LowercaseSlice(u, i, i + |DirectoryDomain|);
      IgnoringCaseAgainstLower(u[i..i + |DirectoryDomain|], DirectoryDomain);
    }
  }

  /** Changing the case of letters never changes whether a url is a direct stream. */
  lemma DirectStreamCaseInvariant(u: string, v: string)
    requires EqualIgnoringCase(u, v)
    ensures IsDirectStreamUrl(u) == IsDirectStreamUrl(v)
  {
    assert Lowercase(u) == Lowercase(v);
  }

  // ---------------------------------------------------------------------------------------
  // Locality of the search, and examples.

  /** A match inside `b` is a match, with the same capture, inside any `a + b`. */
  lemma ShapeShift(a: string, b: string, marker: string, p: int, q: int, id: string)
    requires MatchShape(b, marker, p, q, id)
    ensures MatchShape(a + b, marker, |a| + p, |a| + q, id)
  {
    var s := a + b;
    assert s[|a| + p..|a| + p + |marker|] == b[p..p + |marker|];
    assert s[|a| + q + 1..|a| + q + 1 + |id|] == b[q + 1..q + 1 + |id|];
  }

  /** A match at `p` has the marker's characters at `p`. */
  lemma MarkerCharAt(s: string, marker: string, p: int, k: nat)
    requires k < |marker|
    ensures forall q, id | MatchShape(s, marker, p, q, id) :: s[p + k] == marker[k]
  {
    forall q, id | MatchShape(s, marker, p, q, id) ensures s[p + k] == marker[k] {
      assert s[p + k] == s[p..p + |marker|][k];
    }
  }

  /** No match starts where the character the marker needs at offset `k` is missing from `pre`. */
  lemma NoMatchWithin(s: string, marker: string, from: nat, pre: string, k: nat)
    requires from + |pre| <= |s| && pre == s[from..from + |pre|]
    requires k < |marker| && marker[k] !in pre
    ensures forall p | from <= p + k < from + |pre| :: !MatchesAt(s, marker, p)
  {
    forall p | 0 <= p && from <= p + k < from + |pre| ensures !MatchesAt(s, marker, p) {
      assert s[p + k] == pre[p + k - from];
      MarkerCharAt(s, marker, p, k);
    }
  }

  /** The spelling of "/listen/" matters: a url lacking a lower-case 'l' has no channel id. */
  lemma CaseSensitiveExample()
    ensures ExtractChannelId("https://radio.garden/LISTEN/x/abc") == None
  {
    var s := "https://radio.garden/LISTEN/x/abc";
    assert 'l' !in s;
    NoMatchWithin(s, ListenMarker, 0, s, 1);
  }

  /** The id is the segment after `<marker><segment>/`, not necessarily the last one. */
  lemma IdNotLastSegmentExample()
    ensures ExtractChannelId("/listen/a/b/c") == Some("b")
  {
    var s := "/listen/a/b/c";
    assert s[0..8] == ListenMarker;
    assert s[10..11] == "b";
    LeftmostMatchIsFound(s, ListenMarker, 0, 9, "b");
  }

  /** Nothing on the directory's own host is a direct stream, whatever its path. */
  lemma DirectoryHostIsNotDirect(host: string, path: string)
    requires host == "https://radio.garden"
    ensures !IsDirectStreamUrl(host + path)
  {
    var s := host + path;
    assert s[8..20] == DirectoryDomain;
    LowercaseSlice(s, 8, 20);
    assert Lowercase(DirectoryDomain) == DirectoryDomain;
    assert OccursAt(Lowercase(s), DirectoryDomain, 8);
  }

  /**
   * An attempt that finds no identifier character after the second slash fails, and the
   * search goes on to the next occurrence of the marker.
   */
  lemma SearchContinuesExample(a: string, b: string)
    requires a == "/listen/x/-" && b == "/listen/a/b"
    ensures ExtractChannelId(a + b) == Some("b")
  {
    var s := a + b;
    assert s[..8] == ListenMarker;
    assert SlashFrom(s, 8) == 9 && IdRunEnd(s, 10) == 10;
    assert CaptureAt(s, ListenMarker, 0) == None;
    assert s[2..12] == "isten/x/-/";
    NoMatchWithin(s, ListenMarker, 2, "isten/x/-/", 1);
    assert b[..8] == ListenMarker && b[10..] == "b";
    assert MatchShape(b, ListenMarker, 0, 9, "b");
    ShapeShift(a, b, ListenMarker, 0, 9, "b");
    LeftmostMatchIsFound(s, ListenMarker, 11, 20, "b");
  }

  /** A channel link on the directory's site is a channel link, not a direct stream. */
  lemma ChannelLinkExample(host: string, path: string)
    requires host == "https://radio.garden" && path == "/listen/some-name/mbAtEPnJ"
    ensures Classify(host + path) == ChannelLink("mbAtEPnJ")
  {
    ChannelIdExample(host, path);
    DirectoryHostIsNotDirect(host, path);
  }

  lemma ChannelIdExample(host: string, path: string)
    requires host == "https://radio.garden" && path == "/listen/some-name/mbAtEPnJ"
    ensures ExtractChannelId(host + path) == Some("mbAtEPnJ")
  {
    var s := host + path;
    assert path[..8] == ListenMarker;
    assert path[18..] == "mbAtEPnJ";
    assert MatchShape(path, ListenMarker, 0, 17, "mbAtEPnJ");
    ShapeShift(host, path, ListenMarker, 0, 17, "mbAtEPnJ");
    assert s[..21] == host + "/";
    NoMatchWithin(s, ListenMarker, 0, host + "/", 1);
    LeftmostMatchIsFound(s, ListenMarker, 20, 37, "mbAtEPnJ");
  }

  /** A place link on the directory's site is a place link. */
  lemma PlaceLinkExample(host: string, path: string)
    requires host == "https://radio.garden" && path == "/visit/some-city/XyZ123"
    ensures Classify(host + path) == PlaceLink("XyZ123")
  {
    var s := host + path;
    assert 'l' !in host && 'l' !in path;
    NoMatchWithin(s, ListenMarker, 0, s, 1);
    PlaceIdExample(host, path);
    DirectoryHostIsNotDirect(host, path);
  }

  lemma PlaceIdExample(host: string, path: string)
    requires host == "https://radio.garden" && path == "/visit/some-city/XyZ123"
    ensures ExtractPlaceId(host + path) == Some("XyZ123")
  {
    var s := host + path;
    assert path[..7] == VisitMarker;
    assert path[17..] == "XyZ123";
    assert MatchShape(path, VisitMarker, 0, 16, "XyZ123");
    ShapeShift(host, path, VisitMarker, 0, 16, "XyZ123");
    assert s[..21] == host + "/";
    NoMatchWithin(s, VisitMarker, 0, host + "/", 1);
    LeftmostMatchIsFound(s, VisitMarker, 20, 36, "XyZ123");
  }

  /** Text that is neither a web url nor a directory link is unrecognized. */
  lemma UnrecognizedExample()
    ensures Classify("not a url") == Unrecognized
  {
    var s := "not a url";
    assert '/' !in s;
    NoMatchWithin(s, ListenMarker, 0, s, 0);
    NoMatchWithin(s, VisitMarker, 0, s, 0);
    assert Lowercase(s)[0] == 'n';
  }
}
