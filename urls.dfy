/** URL splitting (the part of Python's `urllib.parse.urlparse` the crawler
    relies on) and the crawler's `normalize_url`, which canonicalises a URL in
    the spirit of sections 6.2.2.1 and 6.2.3 of RFC 3986: lower-case host,
    default port removed, empty path as "/". */
module Urls {
  import opened Strings

  /** The six components `urlparse` returns. */
  datatype ParsedUrl = ParsedUrl(scheme: string, netloc: string, path: string,
                                 params: string, query: string, fragment: string)

  /** Leading characters `urlsplit` strips: C0 controls and space. */
  predicate IsC0OrSpace(c: char) {
    c as int <= 0x20
  }

  /** `urlsplit` deletes every tab, carriage return and line feed. */
  function RemoveTabsAndNewlines(s: string): (r: string)
    ensures |r| <= |s|
    ensures forall i :: 0 <= i < |r| ==> r[i] != '\t' && r[i] != '\r' && r[i] != '\n'
  {
    if |s| == 0 then ""
    else (if s[0] == '\t' || s[0] == '\r' || s[0] == '\n' then "" else [s[0]]) + RemoveTabsAndNewlines(s[1..])
  }

  predicate IsAsciiAlpha(c: char) {
    'a' <= c <= 'z' || 'A' <= c <= 'Z'
  }

  predicate IsSchemeChar(c: char) {
    IsAsciiAlpha(c) || '0' <= c <= '9' || c == '+' || c == '-' || c == '.'
  }

  /** First index at or after `from` whose character satisfies `stop`, or `|s|`. */
  function FindFirst(s: string, stop: char -> bool, from: nat): (i: nat)
    requires from <= |s|
    ensures from <= i <= |s|
    ensures forall j :: from <= j < i ==> !stop(s[j])
    ensures i < |s| ==> stop(s[i])
    decreases |s| - from
  {
    if from == |s| || stop(s[from]) then from else FindFirst(s, stop, from + 1)
  }

  /** A leading `scheme:` is taken off (and lower-cased) when it is a letter
      followed by scheme characters; otherwise there is no scheme. */
  function SplitScheme(url: string): (string, string) {
    var i := FindFirst(url, c => c == ':', 0);
    if 0 < i < |url| && IsAsciiAlpha(url[0]) && forall j :: 0 <= j < i ==> IsSchemeChar(url[j])
    then (Lower(url[..i]), url[i + 1..])
    else ("", url)
  }

  /** Leading C0 controls and spaces go, then every tab, CR and LF. */
  function CleanUrl(raw: string): string {
    RemoveTabsAndNewlines(TrimStart(raw, IsC0OrSpace))
  }

  /** `_splitnetloc`: after a leading "//", the authority runs to the first of
      "/", "?" or "#". */
  function SplitNetloc(rest: string): (r: (string, string))
    ensures StartsWith(rest, "//") ==> rest == "//" + r.0 + r.1
    ensures !StartsWith(rest, "//") ==> r == ("", rest)
  {
    if StartsWith(rest, "//") then
      var d := FindFirst(rest, c => c == '/' || c == '?' || c == '#', 2);
      assert rest == rest[..2] + rest[2..d] + rest[d..];
      (rest[2..d], rest[d..])
    else ("", rest)
  }

  /** `s.split(c, 1)` when `c in s`, and `(s, "")` otherwise. */
  function CutAt(s: string, c: char): (r: (string, string))
    ensures forall i :: 0 <= i < |r.0| ==> r.0[i] != c
    ensures r.0 == s || s == r.0 + [c] + r.1
  {
    var i := FindFirst(s, x => x == c, 0);
    if i < |s| then
      assert s == s[..i] + [c] + s[i + 1..];
      (s[..i], s[i + 1..])
    else (s, "")
  }

  /** `urlsplit`: `None` is the `ValueError` it raises for an unbalanced IPv6 bracket. */
  function UrlSplit(raw: string): (r: Option<ParsedUrl>)
    ensures r.Some? ==> r.value.params == ""
    ensures r.Some? ==> forall i :: 0 <= i < |r.value.path| ==> r.value.path[i] != '?'
  {
    var (scheme, rest) := SplitScheme(CleanUrl(raw));
    var (netloc, afterNetloc) := SplitNetloc(rest);
    if Contains(netloc, "[") != Contains(netloc, "]") then None
    else
      var (beforeFragment, fragment) := CutAt(afterNetloc, '#');
      var (path, query) := CutAt(beforeFragment, '?');
      Some(ParsedUrl(scheme, netloc, path, "", query, fragment))
  }

  /** Schemes for which `urlparse` separates `;params` from the last path segment. */
  predicate UsesParams(scheme: string) {
    scheme in ["", "ftp", "hdl", "prospero", "http", "imap", "https", "shttp", "rtsp",
               "rtsps", "rtspu", "sip", "sips", "mms", "sftp", "tel"]
  }

  /** `_splitparams`: the `;` searched for is the first one after the last `/`. */
  function SplitParams(path: string): (r: (string, string))
    ensures |r.0| <= |path| && r.0 == path[..|r.0|]
  {
    var lastSlash := LastIndexOfSlash(path);
    var from := if lastSlash < 0 then 0 else lastSlash;
    var i := FindFirst(path, c => c == ';', from);
    if i == |path| then (path, "") else (path[..i], path[i + 1..])
  }

  function LastIndexOfSlash(s: string): (i: int)
    ensures -1 <= i < |s|
    ensures i >= 0 ==> s[i] == '/'
    ensures forall j :: i < j < |s| ==> s[j] != '/'
  {
    if |s| == 0 then -1 else if s[|s| - 1] == '/' then |s| - 1 else LastIndexOfSlash(s[..|s| - 1])
  }

  /** `urlparse`. */
  function UrlParse(raw: string): (r: Option<ParsedUrl>)
    ensures r.Some? <==> UrlSplit(raw).Some?
    ensures r.Some? ==> forall i :: 0 <= i < |r.value.path| ==> r.value.path[i] != '?'
  {
    match UrlSplit(raw)
    case None => None
    case Some(p) =>
      if UsesParams(p.scheme) && Contains(p.path, ";") then
        var (path, params) := SplitParams(p.path);
        assert forall i :: 0 <= i < |path| ==> path[i] == p.path[i];
        Some(p.(path := path, params := params))
      else Some(p)
  }

  /** The host part of a normalised URL: lower case, default port dropped. */
  function NormalizeNetloc(scheme: string, netloc: string): string {
    var host := Lower(netloc);
    if scheme == "http" && EndsWith(host, ":80") then host[..|host| - 3]
    else if scheme == "https" && EndsWith(host, ":443") then host[..|host| - 4]
    else host
  }

  /** The path of a normalised URL: empty becomes "/", one trailing "/" goes. */
  function NormalizePath(path: string): string {
    var p := if path == "" then "/" else path;
    if |p| > 1 && p[|p| - 1] == '/' then p[..|p| - 1] else p
  }

  /** `normalize_url` inside `fetch_sitemap_urls`: `None` for a scheme other
      than http/https and for a URL `urlparse` rejects (the `except` branch). */
  function NormalizeUrl(u: string): Option<string> {
    match UrlParse(PyStrip(u))
    case None => None
    case Some(p) => NormalizeParsed(p)
  }

  /** The part of `normalize_url` after parsing: reassemble scheme, host, path
      and query, dropping params and fragment. */
  function NormalizeParsed(p: ParsedUrl): Option<string> {
    if p.scheme != "http" && p.scheme != "https" then None
    else
      var base := p.scheme + "://" + NormalizeNetloc(p.scheme, p.netloc) + NormalizePath(p.path);
      Some(if p.query != "" then base + "?" + p.query else base)
  }

  /** The path `normalize_url` writes holds no "?" when the parsed path holds none. */
  lemma NormalizePathHasNoQuery(path: string)
    requires forall i :: 0 <= i < |path| ==> path[i] != '?'
    ensures |NormalizePath(path)| > 0 && NormalizePath(path)[|NormalizePath(path)| - 1] != '?'
  {
    var n := NormalizePath(path);
    if path != "" {
      assert n == path[..|n|];
      assert n[|n| - 1] == path[|n| - 1];
    }
  }

  /** `normalize_url` on any input: it gives a URL exactly when `urlparse`
      accepts the stripped input and its scheme is http or https; that URL
      starts with the scheme, "://" and the normalised (lower-case, default
      port dropped) host, and it ends with "?" and the query exactly when the
      query is non-empty. */
  lemma NormalizeUrlShape(u: string)
    ensures NormalizeUrl(u).Some?
            <==> UrlParse(PyStrip(u)).Some? && UrlParse(PyStrip(u)).value.scheme in {"http", "https"}
    ensures NormalizeUrl(u).Some? ==>
              var p := UrlParse(PyStrip(u)).value;
              var r := NormalizeUrl(u).value;
              StartsWith(r, p.scheme + "://" + NormalizeNetloc(p.scheme, p.netloc))
              && (EndsWith(r, "?" + p.query) <==> p.query != "")
  {
    if UrlParse(PyStrip(u)).Some? {
      NormalizeParsedShape(UrlParse(PyStrip(u)).value);
    }
  }

  lemma NormalizeParsedShape(p: ParsedUrl)
    requires forall i :: 0 <= i < |p.path| ==> p.path[i] != '?'
    ensures NormalizeParsed(p).Some? <==> p.scheme in {"http", "https"}
    ensures NormalizeParsed(p).Some? ==>
              var r := NormalizeParsed(p).value;
              StartsWith(r, p.scheme + "://" + NormalizeNetloc(p.scheme, p.netloc))
              && (EndsWith(r, "?" + p.query) <==> p.query != "")
  {
    if NormalizeParsed(p).Some? {
      var r := NormalizeParsed(p).value;
      var head := p.scheme + "://" + NormalizeNetloc(p.scheme, p.netloc);
      var n := NormalizePath(p.path);
      NormalizePathHasNoQuery(p.path);
      assert p.scheme + "://" + NormalizeNetloc(p.scheme, p.netloc) + n == head + n;
      if p.query != "" {
        assert r == head + (n + "?" + p.query);
        assert r == (head + n) + ("?" + p.query);
      } else {
        assert r == head + n;
        assert r[|r| - 1] == n[|n| - 1];
      }
    }
  }

  /** `f"{parsed.scheme}://{parsed.netloc}"`, the key of the per-site cache. */
  function Domain(url: string): Option<string> {
    match UrlParse(url)
    case None => None
    case Some(p) => Some(p.scheme + "://" + p.netloc)
  }

  /** The normalised host has no upper-case ASCII letter and is the lower-cased
      host with at most one default port suffix removed. */
  lemma NormalizeNetlocFacts(scheme: string, netloc: string)
    ensures var h := NormalizeNetloc(scheme, netloc);
            NoUpper(h)
            && (h == Lower(netloc)
                || (scheme == "http" && Lower(netloc) == h + ":80")
                || (scheme == "https" && Lower(netloc) == h + ":443"))
  {
    var host := Lower(netloc);
    LowerHasNoUpper(netloc);
    if scheme == "http" && EndsWith(host, ":80") {
      DropSuffix(host, ":80");
    } else if scheme == "https" && EndsWith(host, ":443") {
      DropSuffix(host, ":443");
    }
  }

  /** No upper-case ASCII letter in `s`. */
  predicate NoUpper(s: string) {
    forall i :: 0 <= i < |s| ==> !('A' <= s[i] <= 'Z')
  }

  lemma LowerHasNoUpper(s: string)
    ensures NoUpper(Lower(s))
  {
    var l := Lower(s);
    forall i | 0 <= i < |l|
      ensures !('A' <= l[i] <= 'Z')
    {
      assert l[i] == LowerChar(s[i]);
    }
  }

  /** Cutting a suffix off keeps the rest free of capitals and puts the suffix back on. */
  lemma DropSuffix(s: string, suffix: string)
    requires NoUpper(s) && EndsWith(s, suffix)
    ensures NoUpper(s[..|s| - |suffix|]) && s == s[..|s| - |suffix|] + suffix
  {
    var h := s[..|s| - |suffix|];
    assert s == h + s[|s| - |suffix|..];
    forall i | 0 <= i < |h|
      ensures !('A' <= h[i] <= 'Z')
    {
      assert h[i] == s[i];
    }
  }

  /** The normalised path is never empty, and it ends with "/" only when it is
      the root or the input ended with "//". */
  lemma NormalizePathFacts(path: string)
    ensures |NormalizePath(path)| >= 1
    ensures var n := NormalizePath(path);
            n[|n| - 1] == '/' ==> n == "/" || EndsWith(path, "//")
    ensures path != "" && !EndsWith(path, "/") ==> NormalizePath(path) == path
  {
    var n := NormalizePath(path);
    if n[|n| - 1] == '/' && n != "/" {
      assert |path| >= 2 && path[|path| - 1] == '/' && path[|path| - 2] == '/';
      assert path[|path| - 2..] == "//";
    }
  }

  /** Normalising a path twice changes nothing, unless the path ended in "//". */
  lemma NormalizePathIdempotent(path: string)
    requires !EndsWith(path, "//")
    ensures NormalizePath(NormalizePath(path)) == NormalizePath(path)
  {
    NormalizePathFacts(path);
    var n := NormalizePath(path);
    if n != "/" {
      assert n[|n| - 1] != '/';
    }
  }

  /** Characters of a host that neither `strip` nor `urlsplit` treats specially. */
  predicate HostChar(c: char) {
    c as int > 0x20 && !PyIsSpace(c) && c != '/' && c != '?' && c != '#' && c != ';' && c != '[' && c != ']'
  }

  /** Characters of a path without query, fragment or parameters. */
  predicate PathChar(c: char) {
    c == '/' || HostChar(c)
  }

  /** An http(s) URL with a plain host and an absolute path and nothing else. */
  predicate SimpleUrl(scheme: string, host: string, path: string) {
    (scheme == "http" || scheme == "https")
    && (forall i :: 0 <= i < |host| ==> HostChar(host[i]))
    && |path| > 0 && path[0] == '/' && (forall i :: 0 <= i < |path| ==> PathChar(path[i]))
  }

  lemma {:induction false} RemoveTabsAndNewlinesIdentity(s: string)
    requires forall i :: 0 <= i < |s| ==> s[i] as int > 0x20
    ensures RemoveTabsAndNewlines(s) == s
  {
    if |s| > 0 {
      RemoveTabsAndNewlinesIdentity(s[1..]);
      assert s == [s[0]] + s[1..];
    }
  }

  lemma NotContainsChar(s: string, c: char)
    requires forall i :: 0 <= i < |s| ==> s[i] != c
    ensures !Contains(s, [c])
  {
    forall i | 0 <= i && i + 1 <= |s| ensures !OccursAt(s, [c], i) {
      assert s[i..i + 1][0] == s[i];
    }
  }

  lemma CutAtAbsent(s: string, c: char)
    requires forall i :: 0 <= i < |s| ==> s[i] != c
    ensures CutAt(s, c) == (s, "")
  {
  }

  lemma CleanUrlSimple(url: string)
    requires |url| > 0 && url[0] == 'h'
    requires forall i :: 0 <= i < |url| ==> url[i] as int > 0x20
    ensures CleanUrl(url) == url
  {
    RemoveTabsAndNewlinesIdentity(url);
  }

  lemma SplitNetlocSimple(host: string, path: string)
    requires forall i :: 0 <= i < |host| ==> HostChar(host[i])
    requires |path| > 0 && path[0] == '/'
    ensures SplitNetloc("//" + host + path) == (host, path)
  {
    var rest := "//" + host + path;
    var delim := FindFirst(rest, c => c == '/' || c == '?' || c == '#', 2);
    assert rest[2 + |host|] == '/';
    assert forall j :: 2 <= j < 2 + |host| ==> rest[j] == host[j - 2];
    assert delim == 2 + |host|;
    assert rest[2..delim] == host;
    assert rest[delim..] == path;
  }

  lemma LowerScheme(scheme: string)
    requires scheme == "http" || scheme == "https"
    ensures Lower(scheme) == scheme
  {
  }

  lemma SplitSchemeSimple(scheme: string, rest: string)
    requires scheme == "http" || scheme == "https"
    ensures SplitScheme(scheme + ":" + rest) == (scheme, rest)
  {
    var url := scheme + ":" + rest;
    assert url[|scheme|] == ':';
    assert forall j :: 0 <= j < |scheme| ==> url[j] == scheme[j];
    assert url[..|scheme|] == scheme;
    assert url[|scheme| + 1..] == rest;
    LowerScheme(scheme);
  }

  lemma SimpleUrlVisible(scheme: string, host: string, path: string)
    requires SimpleUrl(scheme, host, path)
    ensures var url := scheme + "://" + host + path;
            url[0] == 'h' && forall i :: 0 <= i < |url| ==> url[i] as int > 0x20
  {
    var url := scheme + "://" + host + path;
    forall i | 0 <= i < |url| ensures url[i] as int > 0x20 {
      if i >= |scheme| + 3 + |host| {
        assert url[i] == path[i - |scheme| - 3 - |host|];
      } else if i >= |scheme| + 3 {
        assert url[i] == host[i - |scheme| - 3];
      }
    }
  }

  /** The URL read as scheme, colon and the rest. */
  lemma SchemeRegroup(scheme: string, host: string, path: string)
    ensures scheme + "://" + host + path == scheme + ":" + ("//" + host + path)
  {
    var rest := "//" + host + path;
    assert ":" + rest == "://" + (host + path);
    ConcatAssoc(scheme, ":", rest);
    ConcatAssoc(scheme, "://" + host, path);
    ConcatAssoc(scheme, "://", host);
    ConcatAssoc("://", host, path);
  }

  lemma SchemeStepSimple(scheme: string, host: string, path: string)
    requires SimpleUrl(scheme, host, path)
    ensures SplitScheme(CleanUrl(scheme + "://" + host + path)) == (scheme, "//" + host + path)
  {
    var rest := "//" + host + path;
    var url := scheme + ":" + rest;
    SchemeRegroup(scheme, host, path);
    SimpleUrlVisible(scheme, host, path);
    CleanUrlSimple(url);
    SplitSchemeSimple(scheme, rest);
  }

  /** `urlsplit` takes a simple URL apart into exactly the pieces it was built from. */
  lemma UrlSplitSimple(scheme: string, host: string, path: string)
    requires SimpleUrl(scheme, host, path)
    ensures UrlSplit(scheme + "://" + host + path) == Some(ParsedUrl(scheme, host, path, "", "", ""))
  {
    SchemeStepSimple(scheme, host, path);
    SplitNetlocSimple(host, path);
    NotContainsChar(host, '[');
    NotContainsChar(host, ']');
    PathPiecesSimple(path);
    UrlSplitSteps(scheme + "://" + host + path, scheme, "//" + host + path, host, path);
  }

  lemma UrlSplitSteps(url: string, scheme: string, rest: string, netloc: string, path: string)
    requires SplitScheme(CleanUrl(url)) == (scheme, rest)
    requires SplitNetloc(rest) == (netloc, path)
    requires !Contains(netloc, "[") && !Contains(netloc, "]")
    requires CutAt(path, '#') == (path, "") && CutAt(path, '?') == (path, "")
    ensures UrlSplit(url) == Some(ParsedUrl(scheme, netloc, path, "", "", ""))
  {
  }

  /** `urlparse` likewise: a simple path carries no parameters. */
  lemma UrlParseSimple(scheme: string, host: string, path: string)
    requires SimpleUrl(scheme, host, path)
    ensures UrlParse(scheme + "://" + host + path) == Some(ParsedUrl(scheme, host, path, "", "", ""))
  {
    UrlSplitSimple(scheme, host, path);
    PathPiecesSimple(path);
  }

  lemma PathPiecesSimple(path: string)
    requires forall i :: 0 <= i < |path| ==> PathChar(path[i])
    ensures CutAt(path, '#') == (path, "") && CutAt(path, '?') == (path, "")
    ensures !Contains(path, ";")
  {
    CutAtAbsent(path, '#');
    CutAtAbsent(path, '?');
    NotContainsChar(path, ';');
  }

  lemma PyStripSimple(scheme: string, host: string, path: string)
    requires SimpleUrl(scheme, host, path)
    ensures PyStrip(scheme + "://" + host + path) == scheme + "://" + host + path
  {
    var url := scheme + "://" + host + path;
    assert url[0] == 'h';
    assert url[|url| - 1] == path[|path| - 1];
    assert TrimmedBy(url, PyIsSpace);
    PyStripTrimmed(url);
  }

  /** `normalize_url` on a simple URL: lower-case host without default port,
      and the path with one trailing slash removed. */
  lemma NormalizeUrlSimple(scheme: string, host: string, path: string)
    requires SimpleUrl(scheme, host, path)
    ensures NormalizeUrl(scheme + "://" + host + path)
            == Some(scheme + "://" + NormalizeNetloc(scheme, host) + NormalizePath(path))
  {
    PyStripSimple(scheme, host, path);
    UrlParseSimple(scheme, host, path);
    NormalizeUrlSteps(scheme + "://" + host + path, ParsedUrl(scheme, host, path, "", "", ""));
  }

  lemma NormalizeUrlSteps(u: string, p: ParsedUrl)
    requires PyStrip(u) == u && UrlParse(u) == Some(p)
    requires (p.scheme == "http" || p.scheme == "https") && p.query == ""
    ensures NormalizeUrl(u) == Some(p.scheme + "://" + NormalizeNetloc(p.scheme, p.netloc) + NormalizePath(p.path))
  {
  }

  lemma NormalizeKeepsSimple(scheme: string, host: string, path: string)
    requires SimpleUrl(scheme, host, path)
    ensures SimpleUrl(scheme, NormalizeNetloc(scheme, host), NormalizePath(path))
  {
    var l := Lower(host);
    assert forall i :: 0 <= i < |l| ==> HostChar(l[i]);
  }

  /** The host ends, ignoring case, in the scheme's default port written twice
      ("x:80:80" for http): one pass of `normalize_url` drops only one. */
  predicate DoubledDefaultPort(scheme: string, host: string) {
    (scheme == "http" && EndsWith(Lower(host), ":80:80"))
    || (scheme == "https" && EndsWith(Lower(host), ":443:443"))
  }

  /** A string without capitals is its own lower case. */
  lemma LowerOfNoUpper(s: string)
    requires NoUpper(s)
    ensures Lower(s) == s
  {
    forall i | 0 <= i < |s| ensures Lower(s)[i] == s[i] {
      assert !('A' <= s[i] <= 'Z');
    }
  }

  /** `n + port` ends in `port` twice exactly when `n` ends in `port`. */
  lemma SuffixTwice(n: string, port: string)
    ensures EndsWith(n + port, port + port) <==> EndsWith(n, port)
  {
    var h := n + port;
    if |port| <= |n| {
      assert h[|h| - 2 * |port|..] == n[|n| - |port|..] + port;
      if EndsWith(h, port + port) {
        assert n[|n| - |port|..] == h[|h| - 2 * |port|..][..|port|];
      }
    }
  }

  /** Ending in `port` twice implies ending in it once. */
  lemma SuffixOfSuffix(h: string, port: string)
    requires EndsWith(h, port + port)
    ensures EndsWith(h, port)
  {
    assert h[|h| - |port|..] == h[|h| - 2 * |port|..][|port|..];
  }

  /** Cutting `port` off once leaves nothing to cut exactly when `h` does
      not end in `port` twice. */
  lemma CutPortOnce(h: string, port: string)
    requires |port| > 0
    ensures var n := if EndsWith(h, port) then h[..|h| - |port|] else h;
            !EndsWith(n, port) <==> !EndsWith(h, port + port)
  {
    if EndsWith(h, port) {
      var n := h[..|h| - |port|];
      assert h == n + port;
      SuffixTwice(n, port);
    } else if EndsWith(h, port + port) {
      SuffixOfSuffix(h, port);
    }
  }

  /** Normalising a host twice is normalising it once exactly when it does
      not end in a doubled default port. */
  lemma NormalizeNetlocIdempotent(scheme: string, host: string)
    ensures NormalizeNetloc(scheme, NormalizeNetloc(scheme, host)) == NormalizeNetloc(scheme, host)
            <==> !DoubledDefaultPort(scheme, host)
  {
    var n := NormalizeNetloc(scheme, host);
    NormalizeNetlocFacts(scheme, host);
    LowerOfNoUpper(n);
    assert ":80" + ":80" == ":80:80" && ":443" + ":443" == ":443:443";
    if scheme == "http" {
      CutPortOnce(Lower(host), ":80");
    } else if scheme == "https" {
      CutPortOnce(Lower(host), ":443");
    }
  }

  /** On simple URLs normalising twice is normalising once, as long as the
      path does not end in "//" and the host does not end in a doubled default
      port (`NormalizeUrlNotIdempotent` shows the path condition is needed,
      `NormalizeNetlocIdempotent` the host condition). */
  lemma NormalizeUrlIdempotentSimple(scheme: string, host: string, path: string)
    requires SimpleUrl(scheme, host, path)
    requires !EndsWith(path, "//")
    requires !DoubledDefaultPort(scheme, host)
    ensures NormalizeUrl(scheme + "://" + host + path).Some?
    ensures NormalizeUrl(NormalizeUrl(scheme + "://" + host + path).value)
            == NormalizeUrl(scheme + "://" + host + path)
  {
    NormalizeUrlSimple(scheme, host, path);
    NormalizeKeepsSimple(scheme, host, path);
    NormalizeUrlSimple(scheme, NormalizeNetloc(scheme, host), NormalizePath(path));
    NormalizePathIdempotent(path);
    NormalizeNetlocIdempotent(scheme, host);
  }

  lemma ExampleSimple()
    ensures SimpleUrl("http", "EX.com", "/a/") && SimpleUrl("http", "ex.com", "/a")
  {
  }

  lemma ExampleJoins()
    ensures "http" + "://" + "EX.com" + "/a/" == "http://EX.com/a/"
    ensures "http" + "://" + "ex.com" + "/a" == "http://ex.com/a"
  {
  }

  lemma ExampleHosts()
    ensures NormalizeNetloc("http", "EX.com") == NormalizeNetloc("http", "ex.com") == "ex.com"
  {
    assert Lower("EX.com") == "ex.com";
    assert Lower("ex.com") == "ex.com";
  }

  lemma ExamplePaths()
    ensures NormalizePath("/a/") == NormalizePath("/a") == "/a"
  {
  }

  /** Host case and a trailing slash do not separate two URLs. */
  lemma NormalizeUrlExample()
    ensures NormalizeUrl("http://EX.com/a/") == NormalizeUrl("http://ex.com/a") == Some("http://ex.com/a")
  {
    ExampleSimple();
    ExampleJoins();
    ExampleHosts();
    ExamplePaths();
    NormalizeUrlSimple("http", "EX.com", "/a/");
    NormalizeUrlSimple("http", "ex.com", "/a");
  }

  lemma NotIdempotentLiterals()
    ensures SimpleUrl("http", "x", "/a//") && SimpleUrl("http", "x", "/a/")
    ensures "http" + "://" + "x" + "/a//" == "http://x/a//"
    ensures "http" + "://" + "x" + "/a/" == "http://x/a/"
    ensures "http" + "://" + "x" + "/a" == "http://x/a"
    ensures NormalizeNetloc("http", "x") == "x"
    ensures NormalizePath("/a//") == "/a/" && NormalizePath("/a/") == "/a"
  {
    assert Lower("x") == "x";
  }

  /** Normalisation is not idempotent: a path ending in "//" loses one slash
      per application. */
  lemma NormalizeUrlNotIdempotent()
    ensures NormalizeUrl("http://x/a//") == Some("http://x/a/")
    ensures NormalizeUrl("http://x/a/") == Some("http://x/a")
  {
    NotIdempotentLiterals();
    NormalizeUrlSimple("http", "x", "/a//");
    NormalizeUrlSimple("http", "x", "/a/");
  }
}
