/**
 * `is_valid_soundcloud_url`: a hand-written recogniser for the regular
 * language of the pattern
 *
 *   ^https?://(?:www\.)?soundcloud\.com/[\w-]+(?:/(?:sets/)?[\w-]+)*(?:\?.*)?$
 *
 * under Python `re.match` semantics (`.` stops at a newline; `$` also matches
 * just before one final newline), together with a reference description of
 * that language as the renderings of a `UrlShape`, and the lemmas that tie
 * the two together.
 */
module UrlValidator {
  import opened Optional

  /** `\w`, restricted to ASCII: letters, digits and the underscore. */
  predicate IsWordChar(c: char) {
    ('a' <= c <= 'z') || ('A' <= c <= 'Z') || ('0' <= c <= '9') || c == '_'
  }

  /** The character class `[\w-]`. */
  predicate IsSegmentChar(c: char) {
    IsWordChar(c) || c == '-'
  }

  /** `[\w-]+` */
  predicate IsSegment(s: string) {
    |s| > 0 && forall i :: 0 <= i < |s| ==> IsSegmentChar(s[i])
  }

  /** `.*` without DOTALL: no newline anywhere. */
  predicate NoNewline(s: string) {
    forall i :: 0 <= i < |s| ==> s[i] != '\n'
  }

  // ---------------------------------------------------------------------
  // The recogniser
  // ---------------------------------------------------------------------

  /** Length of the longest prefix of `s` made of `[\w-]` characters. */
  function SegmentLength(s: string): (n: nat)
    ensures n <= |s|
  {
    if s != [] && IsSegmentChar(s[0]) then 1 + SegmentLength(s[1..]) else 0
  }

  /** The scan stops exactly at the first character outside `[\w-]`. */
  lemma {:induction false} SegmentLengthIsMaximal(s: string)
    ensures var n := SegmentLength(s);
            && (forall i :: 0 <= i < n ==> IsSegmentChar(s[i]))
            && (n < |s| ==> !IsSegmentChar(s[n]))
  {
    if s != [] && IsSegmentChar(s[0]) {
      SegmentLengthIsMaximal(s[1..]);
      var n := SegmentLength(s);
      forall i | 1 <= i < n ensures IsSegmentChar(s[i]) {
        assert s[i] == s[1..][i - 1];
      }
      if n < |s| {
        assert s[n] == s[1..][n - 1];
      }
    }
  }

  /** What may follow the path: `(?:\?.*)?` and then `$`. */
  predicate TailOk(t: string) {
    if t == [] || t == "\n" then true
    else t[0] == '?' && (NoNewline(t[1..]) || (t[|t| - 1] == '\n' && NoNewline(t[1..|t| - 1])))
  }

  /**
   * `[\w-]+(?:/(?:sets/)?[\w-]+)*` followed by an acceptable tail. The
   * `sets/` marker needs no case of its own: `sets` is itself a segment.
   */
  predicate PathOk(s: string)
    decreases |s|
  {
    var n := SegmentLength(s);
    n > 0 && if n < |s| && s[n] == '/' then PathOk(s[n + 1..]) else TailOk(s[n..])
  }

  /** The scheme `https?://` removed, if present. */
  function AfterScheme(url: string): Option<string> {
    if "https://" <= url then Some(url[8..])
    else if "http://" <= url then Some(url[7..])
    else None
  }

  /** `is_valid_soundcloud_url(url)` */
  predicate IsValidSoundCloudUrl(url: string) {
    match AfterScheme(url)
    case None => false
    case Some(rest) =>
      var host := if "www." <= rest then rest[4..] else rest;
      Host <= host && PathOk(host[15..])
  }

  // ---------------------------------------------------------------------
  // The language, described by the shapes of the strings in it
  // ---------------------------------------------------------------------

  /** One `/(?:sets/)?[\w-]+` repetition; `inSet` says whether `sets/` is written. */
  datatype PathPart = PathPart(inSet: bool, name: string)

  /** The choices a matching string makes, one field per group of the pattern. */
  datatype UrlShape = UrlShape(
    secure: bool,
    www: bool,
    first: string,
    parts: seq<PathPart>,
    query: Option<string>,
    finalNewline: bool)

  predicate PartsWellFormed(ps: seq<PathPart>) {
    forall i :: 0 <= i < |ps| ==> IsSegment(ps[i].name)
  }

  predicate WellFormed(u: UrlShape) {
    && IsSegment(u.first)
    && PartsWellFormed(u.parts)
    && (u.query.Some? ==> NoNewline(u.query.value))
  }

  predicate NoSetMarkers(ps: seq<PathPart>) {
    forall i :: 0 <= i < |ps| ==> !ps[i].inSet
  }

  function SchemeText(secure: bool): string {
    if secure then "https://" else "http://"
  }

  function WwwText(www: bool): string {
    if www then "www." else ""
  }

  const Host: string := "soundcloud.com/"

  function MarkerText(p: PathPart): string {
    if p.inSet then "sets/" else ""
  }

  /** The parts `ps` written out, followed by `rest`. */
  function RenderParts(ps: seq<PathPart>, rest: string): string {
    if ps == [] then rest else "/" + (MarkerText(ps[0]) + (ps[0].name + RenderParts(ps[1..], rest)))
  }

  function RenderTail(query: Option<string>, finalNewline: bool): string {
    (match query case None => "" case Some(q) => "?" + q) + (if finalNewline then "\n" else "")
  }

  /** Everything after the host. */
  function RenderPath(u: UrlShape): string {
    u.first + RenderParts(u.parts, RenderTail(u.query, u.finalNewline))
  }

  function Render(u: UrlShape): string {
    SchemeText(u.secure) + (WwwText(u.www) + (Host + RenderPath(u)))
  }

  /** The strings the pattern matches. */
  ghost predicate InLanguage(s: string) {
    exists u :: WellFormed(u) && Render(u) == s
  }

  // ---------------------------------------------------------------------
  // Every rendering is accepted
  // ---------------------------------------------------------------------

  /** A whole segment followed by a non-segment character (or nothing) is scanned exactly. */
  lemma {:induction false} SegmentLengthOfSegment(a: string, b: string)
    requires IsSegment(a)
    requires b == [] || !IsSegmentChar(b[0])
    ensures SegmentLength(a + b) == |a|
  {
    if |a| > 1 {
      assert (a + b)[1..] == a[1..] + b;
      SegmentLengthOfSegment(a[1..], b);
    } else {
      assert (a + b)[1..] == b;
    }
  }

  /** The rendered tail is accepted, and cannot be mistaken for more path. */
  lemma RenderTailOk(query: Option<string>, finalNewline: bool)
    requires query.Some? ==> NoNewline(query.value)
    ensures TailOk(RenderTail(query, finalNewline))
    ensures var t := RenderTail(query, finalNewline); t == [] || (!IsSegmentChar(t[0]) && t[0] != '/')
  {
    var t := RenderTail(query, finalNewline);
    if query.Some? && finalNewline {
      assert t[1..|t| - 1] == query.value;
    } else if query.Some? {
      assert t[1..] == query.value;
    }
  }

  /** A last segment followed by an acceptable tail. */
  lemma PathOkLast(seg: string, t: string)
    requires IsSegment(seg) && TailOk(t)
    requires t == [] || (!IsSegmentChar(t[0]) && t[0] != '/')
    ensures PathOk(seg + t)
  {
    SegmentLengthOfSegment(seg, t);
    assert (seg + t)[|seg|..] == t;
  }

  /** A segment, a separator, and an accepted path. */
  lemma PathOkStep(seg: string, rest: string)
    requires IsSegment(seg) && PathOk(rest)
    ensures PathOk(seg + ("/" + rest))
  {
    SegmentLengthOfSegment(seg, "/" + rest);
    assert (seg + ("/" + rest))[|seg| + 1..] == rest;
  }

  lemma PartsWellFormedTail(ps: seq<PathPart>)
    requires ps != [] && PartsWellFormed(ps)
    ensures IsSegment(ps[0].name) && PartsWellFormed(ps[1..])
  {
    forall i | 0 <= i < |ps[1..]| ensures IsSegment(ps[1..][i].name) {
      assert ps[1..][i] == ps[i + 1];
    }
  }

  /** A part, with or without its `sets/` marker, in front of an accepted path. */
  lemma PathOkMarked(p: PathPart, later: string)
    requires IsSegment(p.name) && PathOk(p.name + later)
    ensures PathOk(MarkerText(p) + (p.name + later))
  {
    if p.inSet {
      assert IsSegment("sets");
      PathOkStep("sets", p.name + later);
      assert "sets/" + (p.name + later) == "sets" + ("/" + (p.name + later));
    } else {
      assert MarkerText(p) + (p.name + later) == p.name + later;
    }
  }

  lemma {:induction false} PathOkOfRendering(first: string, ps: seq<PathPart>, t: string)
    requires IsSegment(first) && PartsWellFormed(ps) && TailOk(t)
    requires t == [] || (!IsSegmentChar(t[0]) && t[0] != '/')
    ensures PathOk(first + RenderParts(ps, t))
    decreases |ps|
  {
    if ps == [] {
      PathOkLast(first, t);
    } else {
      var later := RenderParts(ps[1..], t);
      PartsWellFormedTail(ps);
      PathOkOfRendering(ps[0].name, ps[1..], t);
      PathOkMarked(ps[0], later);
      PathOkStep(first, MarkerText(ps[0]) + (ps[0].name + later));
    }
  }

  lemma SchemeRemoved(secure: bool, rest: string)
    ensures AfterScheme(SchemeText(secure) + rest) == Some(rest)
  {
    var url := SchemeText(secure) + rest;
    if secure {
      assert url[8..] == rest;
    } else {
      assert url[4] == ':';
      assert url[7..] == rest;
    }
  }

  lemma HostChecked(www: bool, path: string)
    ensures var rest := WwwText(www) + (Host + path);
            var host := if "www." <= rest then rest[4..] else rest;
            Host <= host && host[15..] == path
  {
    var rest := WwwText(www) + (Host + path);
    if www {
      assert rest[4..] == Host + path;
    } else {
      assert rest[0] == 's';
    }
    assert (Host + path)[15..] == path;
  }

  /** The recogniser accepts every string of the language. */
  lemma AcceptsRendering(u: UrlShape)
    requires WellFormed(u)
    ensures IsValidSoundCloudUrl(Render(u))
  {
    SchemeRemoved(u.secure, WwwText(u.www) + (Host + RenderPath(u)));
    HostChecked(u.www, RenderPath(u));
    RenderTailOk(u.query, u.finalNewline);
    PathOkOfRendering(u.first, u.parts, RenderTail(u.query, u.finalNewline));
  }

  // ---------------------------------------------------------------------
  // Every accepted string is a rendering
  // ---------------------------------------------------------------------

  /** Reads an accepted tail back as its query and final newline. */
  function ParseTail(t: string): (r: (Option<string>, bool))
    requires TailOk(t)
    ensures r.0.Some? ==> NoNewline(r.0.value)
    ensures RenderTail(r.0, r.1) == t
  {
    if t == [] then (None, false)
    else if t == "\n" then (None, true)
    else if NoNewline(t[1..]) then
      assert t == "?" + t[1..];
      (Some(t[1..]), false)
    else
      assert t == "?" + t[1..|t| - 1] + "\n";
      (Some(t[1..|t| - 1]), true)
  }

  /** Reads an accepted path back as its first segment, the later parts (never with a `sets/` marker) and the tail. */
  function ParsePath(s: string): (r: (string, seq<PathPart>, string))
    requires PathOk(s)
    ensures IsSegment(r.0) && PartsWellFormed(r.1) && NoSetMarkers(r.1) && TailOk(r.2)
    ensures s == r.0 + RenderParts(r.1, r.2)
    decreases |s|
  {
    var n := SegmentLength(s);
    if n < |s| && s[n] == '/' then
      var r := ParsePath(s[n + 1..]);
      ParsePathStep(s, r.0, r.1, r.2);
      (s[..n], [PathPart(false, r.0)] + r.1, r.2)
    else
      ParsePathLast(s);
      (s[..n], [], s[n..])
  }

  /** The characters a non-empty scan covers form a segment. */
  lemma SegmentPrefix(s: string)
    requires SegmentLength(s) > 0
    ensures IsSegment(s[..SegmentLength(s)])
  {
    SegmentLengthIsMaximal(s);
    var n := SegmentLength(s);
    assert forall i :: 0 <= i < n ==> s[..n][i] == s[i];
  }

  lemma ParsePathLast(s: string)
    requires SegmentLength(s) > 0
    ensures var n := SegmentLength(s);
            IsSegment(s[..n]) && s == s[..n] + RenderParts([], s[n..])
  {
    var n := SegmentLength(s);
    SegmentPrefix(s);
    assert s == s[..n] + s[n..];
  }

  /** A string is what precedes position `n`, the character there, and what follows. */
  lemma SplitAround(s: string, n: nat)
    requires n < |s|
    ensures s == s[..n] + ([s[n]] + s[n + 1..])
  {
    assert s[n..] == [s[n]] + s[n + 1..];
    assert s == s[..n] + s[n..];
  }

  /** A plain part put in front of well-formed unmarked parts. */
  lemma PrependPlainPart(next: string, later: seq<PathPart>)
    requires IsSegment(next) && PartsWellFormed(later) && NoSetMarkers(later)
    ensures var ps := [PathPart(false, next)] + later;
            PartsWellFormed(ps) && NoSetMarkers(ps)
  {
    var ps := [PathPart(false, next)] + later;
    assert forall i :: 1 <= i < |ps| ==> ps[i] == later[i - 1];
  }

  /** Rendering a plain part in front of others writes `/` and its name. */
  lemma RenderPlainPart(next: string, later: seq<PathPart>, tail: string)
    ensures RenderParts([PathPart(false, next)] + later, tail) == "/" + (next + RenderParts(later, tail))
  {
    var ps := [PathPart(false, next)] + later;
    assert ps[0] == PathPart(false, next) && ps[1..] == later;
    assert MarkerText(ps[0]) + (next + RenderParts(later, tail)) == next + RenderParts(later, tail);
  }

  lemma ParsePathStep(s: string, next: string, later: seq<PathPart>, tail: string)
    requires var n := SegmentLength(s); 0 < n < |s| && s[n] == '/' && s[n + 1..] == next + RenderParts(later, tail)
    requires IsSegment(next) && PartsWellFormed(later) && NoSetMarkers(later)
    ensures var n := SegmentLength(s);
            var ps := [PathPart(false, next)] + later;
            IsSegment(s[..n]) && PartsWellFormed(ps) && NoSetMarkers(ps) && s == s[..n] + RenderParts(ps, tail)
  {
    SegmentPrefix(s);
    PrependPlainPart(next, later);
    RenderPlainPart(next, later, tail);
    SplitAround(s, SegmentLength(s));
  }

  lemma SchemeSplit(url: string)
    requires AfterScheme(url).Some?
    ensures url == SchemeText("https://" <= url) + AfterScheme(url).value
  {
    if "https://" <= url {
      assert url == url[..8] + url[8..];
    } else {
      assert url == url[..7] + url[7..];
    }
  }

  /** A string with a given prefix is that prefix followed by the rest. */
  lemma PrefixSplit(p: string, s: string)
    requires p <= s
    ensures s == p + s[|p|..]
  {
    assert s[..|p|] == p;
    assert s == s[..|p|] + s[|p|..];
  }

  lemma HostSplit(rest: string)
    requires var host := if "www." <= rest then rest[4..] else rest; Host <= host
    ensures var host := if "www." <= rest then rest[4..] else rest;
            rest == WwwText("www." <= rest) + (Host + host[15..])
  {
    var host := if "www." <= rest then rest[4..] else rest;
    PrefixSplit(Host, host);
    if "www." <= rest {
      PrefixSplit("www.", rest);
    } else {
      assert WwwText(false) + host == host;
    }
  }

  /** Reads an accepted URL back as the shape it renders. */
  function Parse(url: string): (u: UrlShape)
    requires IsValidSoundCloudUrl(url)
    ensures WellFormed(u) && NoSetMarkers(u.parts)
    ensures Render(u) == url
  {
    var rest := AfterScheme(url).value;
    var host := if "www." <= rest then rest[4..] else rest;
    var (first, parts, tail) := ParsePath(host[15..]);
    var (query, finalNewline) := ParseTail(tail);
    SchemeSplit(url);
    HostSplit(rest);
    UrlShape("https://" <= url, "www." <= rest, first, parts, query, finalNewline)
  }

  /** The recogniser accepts exactly the strings the pattern matches. */
  lemma RecogniserMatchesLanguage(url: string)
    ensures IsValidSoundCloudUrl(url) <==> InLanguage(url)
  {
    if IsValidSoundCloudUrl(url) {
      assert WellFormed(Parse(url)) && Render(Parse(url)) == url;
    } else if InLanguage(url) {
      var u :| WellFormed(u) && Render(u) == url;
      AcceptsRendering(u);
    }
  }

  // ---------------------------------------------------------------------
  // The `sets/` marker adds nothing to the language
  // ---------------------------------------------------------------------

  /** Rewrites each `/sets/name` part as the two plain parts `/sets` and `/name`. */
  function Unmark(ps: seq<PathPart>): seq<PathPart> {
    if ps == [] then []
    else UnmarkPart(ps[0]) + Unmark(ps[1..])
  }

  function UnmarkPart(p: PathPart): seq<PathPart> {
    if p.inSet then [PathPart(false, "sets"), PathPart(false, p.name)] else [p]
  }

  lemma UnmarkPartRendersTheSame(p: PathPart, rest: string)
    requires IsSegment(p.name)
    ensures PartsWellFormed(UnmarkPart(p)) && NoSetMarkers(UnmarkPart(p))
    ensures RenderParts(UnmarkPart(p), rest) == RenderParts([p], rest)
  {
    var head := UnmarkPart(p);
    if p.inSet {
      assert IsSegment("sets");
      assert head[1..] == [PathPart(false, p.name)];
      assert RenderParts(head[1..], rest) == "/" + (p.name + rest);
      assert RenderParts(head, rest) == "/" + ("sets" + ("/" + (p.name + rest)));
      assert RenderParts([p], rest) == "/" + ("sets/" + (p.name + rest));
    }
  }

  lemma {:induction false} RenderPartsAppend(a: seq<PathPart>, b: seq<PathPart>, rest: string)
    ensures RenderParts(a + b, rest) == RenderParts(a, RenderParts(b, rest))
  {
    if a != [] {
      assert (a + b)[0] == a[0];
      assert (a + b)[1..] == a[1..] + b;
      RenderPartsAppend(a[1..], b, rest);
    } else {
      assert a + b == b;
    }
  }

  lemma {:induction false} UnmarkRendersTheSame(ps: seq<PathPart>, rest: string)
    requires PartsWellFormed(ps)
    ensures PartsWellFormed(Unmark(ps)) && NoSetMarkers(Unmark(ps))
    ensures RenderParts(Unmark(ps), rest) == RenderParts(ps, rest)
  {
    if ps != [] {
      PartsWellFormedTail(ps);
      UnmarkRendersTheSame(ps[1..], rest);
      var head := UnmarkPart(ps[0]);
      var tail := Unmark(ps[1..]);
      UnmarkPartRendersTheSame(ps[0], RenderParts(ps[1..], rest));
      assert PartsWellFormed(head + tail) && NoSetMarkers(head + tail) by {
        forall i | |head| <= i < |head + tail| ensures (head + tail)[i] == tail[i - |head|] {
        }
      }
      RenderPartsAppend(head, tail, rest);
      assert RenderParts([ps[0]], RenderParts(ps[1..], rest)) == RenderParts(ps, rest) by {
        assert [ps[0]][1..] == [];
      }
    }
  }

  /** Every string of the language has a shape that writes no `sets/` marker. */
  lemma SetMarkerAddsNothing(s: string)
    ensures InLanguage(s) <==> exists u :: WellFormed(u) && NoSetMarkers(u.parts) && Render(u) == s
  {
    if InLanguage(s) {
      var u :| WellFormed(u) && Render(u) == s;
      UnmarkRendersTheSame(u.parts, RenderTail(u.query, u.finalNewline));
      var v := u.(parts := Unmark(u.parts));
      assert WellFormed(v) && NoSetMarkers(v.parts) && Render(v) == s;
    }
  }

  // ---------------------------------------------------------------------
  // Consequences for particular inputs
  // ---------------------------------------------------------------------

  lemma {:induction false} PathRejectsTrailingSlash(s: string)
    requires |s| > 0 && s[|s| - 1] == '/' && '?' !in s
    ensures !PathOk(s)
    decreases |s|
  {
    var n := SegmentLength(s);
    SegmentLengthIsMaximal(s);
    if n > 0 && n < |s| && s[n] == '/' {
      var s' := s[n + 1..];
      if s' != [] {
        assert s'[|s'| - 1] == s[|s| - 1];
        assert '?' !in s' by {
          forall i | 0 <= i < |s'| ensures s'[i] != '?' { assert s'[i] == s[n + 1 + i]; }
        }
        PathRejectsTrailingSlash(s');
      }
    } else if n > 0 {
      var t := s[n..];
      assert t[|t| - 1] == '/';
      assert t[0] == s[n];
    }
  }

  /** A URL without a query that ends in `/` is rejected. */
  lemma RejectsTrailingSlash(url: string)
    requires |url| > 0 && url[|url| - 1] == '/' && '?' !in url
    ensures !IsValidSoundCloudUrl(url)
  {
    if AfterScheme(url).Some? {
      var rest := AfterScheme(url).value;
      var host := if "www." <= rest then rest[4..] else rest;
      if Host <= host {
        var path := host[15..];
        var k := |url| - |path|;
        assert url[k..] == path;
        if path != [] {
          assert path[|path| - 1] == url[|url| - 1];
          assert '?' !in path by {
            forall i | 0 <= i < |path| ensures path[i] != '?' { assert path[i] == url[k + i]; }
          }
          PathRejectsTrailingSlash(path);
        }
      }
    }
  }

  /** A URL `https://soundcloud.com/<path>` is accepted exactly when its path is. */
  lemma SecurePath(path: string)
    ensures IsValidSoundCloudUrl("https://" + (Host + path)) <==> PathOk(path)
  {
    SchemeRemoved(true, WwwText(false) + (Host + path));
    HostChecked(false, path);
    assert WwwText(false) + (Host + path) == Host + path;
  }

  /**
   * `https://soundcloud.com/artist/track-name` is accepted. The URL is
   * written as a concatenation of its pieces; it is the same string.
   */
  lemma ExampleTrack()
    ensures IsValidSoundCloudUrl("https://" + ("soundcloud.com/" + ("artist" + ("/" + "track-name"))))
  {
    assert IsSegment("artist") && IsSegment("track-name");
    PathOkLast("track-name", "");
    assert "track-name" + "" == "track-name";
    PathOkStep("artist", "track-name");
    SecurePath("artist" + ("/" + "track-name"));
  }

  /** `https://soundcloud.com/artist/sets/playlist-name` is accepted. */
  lemma ExamplePlaylist()
    ensures IsValidSoundCloudUrl("https://" + ("soundcloud.com/" + ("artist" + ("/" + ("sets" + ("/" + "playlist-name"))))))
  {
    assert IsSegment("artist") && IsSegment("sets") && IsSegment("playlist-name");
    PathOkLast("playlist-name", "");
    assert "playlist-name" + "" == "playlist-name";
    PathOkStep("sets", "playlist-name");
    PathOkStep("artist", "sets" + ("/" + "playlist-name"));
    SecurePath("artist" + ("/" + ("sets" + ("/" + "playlist-name"))));
  }

  /** `https://soundcloud.com/artist` followed by one newline is accepted, as `$` allows. */
  lemma ExampleFinalNewline()
    ensures IsValidSoundCloudUrl("https://" + ("soundcloud.com/" + ("artist" + "\n")))
  {
    assert IsSegment("artist");
    PathOkLast("artist", "\n");
    SecurePath("artist" + "\n");
  }

  /** A segment followed by two newlines is not an accepted path. */
  lemma TwoNewlinesPath(seg: string)
    requires IsSegment(seg)
    ensures !PathOk(seg + "\n\n")
  {
    SegmentLengthOfSegment(seg, "\n\n");
    assert (seg + "\n\n")[|seg|..] == "\n\n";
  }

  /** `https://soundcloud.com/artist` followed by two newlines is rejected. */
  lemma ExampleTwoNewlines()
    ensures !IsValidSoundCloudUrl("https://" + ("soundcloud.com/" + ("artist" + "\n\n")))
  {
    assert IsSegment("artist");
    TwoNewlinesPath("artist");
    SecurePath("artist" + "\n\n");
  }

  /** A trailing `/` after the last segment is rejected. */
  lemma ExampleTrailingSlash()
    ensures !IsValidSoundCloudUrl("https://soundcloud.com/artist/")
  {
    RejectsTrailingSlash("https://soundcloud.com/artist/");
  }

  /** The scheme is matched case-sensitively. */
  lemma ExampleUpperCaseScheme()
    ensures !IsValidSoundCloudUrl("HTTPS://soundcloud.com/artist")
  {
    assert "HTTPS://soundcloud.com/artist"[0] == 'H';
  }

  /** After `https://`, a host that starts with neither `www.` nor `soundcloud.com/` is refused. */
  lemma SecureOtherHost(rest: string)
    requires !("www." <= rest) && !(Host <= rest)
    ensures !IsValidSoundCloudUrl("https://" + rest)
  {
    SchemeRemoved(true, rest);
  }

  /** The host is matched case-sensitively: `https://SoundCloud.com/artist` is rejected. */
  lemma ExampleUpperCaseHost()
    ensures !IsValidSoundCloudUrl("https://" + "SoundCloud.com/artist")
  {
    assert "SoundCloud.com/artist"[0] != "www."[0] && "SoundCloud.com/artist"[0] != Host[0];
    SecureOtherHost("SoundCloud.com/artist");
  }

  /** Any other domain is rejected: `https://example.com/artist`. */
  lemma ExampleOtherDomain()
    ensures !IsValidSoundCloudUrl("https://" + "example.com/artist")
  {
    assert "example.com/artist"[0] != "www."[0] && "example.com/artist"[0] != Host[0];
    SecureOtherHost("example.com/artist");
  }
}
