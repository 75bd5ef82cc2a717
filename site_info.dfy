/** Site-level information: the per-domain cache that `get_site_info` fills
    and `update_site_cache_sitemap` upgrades in place, the robots.txt rule
    filter, and the bounded redirect-chain walk `get_redirect_chain`.
    Requests are oracles. */
module SiteInfo {
  import opened Strings
  import opened Urls

  /** One cache entry (`robots_txt_content` holds at most 2000 characters,
      `robots_rules` at most 20 rules). */
  datatype SiteEntry = SiteEntry(hasRobotsTxt: bool, robotsContent: string, robotsRules: seq<string>,
                                 hasSitemap: bool, sitemapUrl: string, sitemapUrlCount: nat)

  /** What requesting `<domain>/robots.txt` gave. */
  datatype RobotsFetch = RobotsFailed | RobotsResponse(status: int, contentType: string, text: string)

  /** What requesting the sitemap gave: the tags of the root's children when
      the body parsed as XML. */
  datatype SitemapProbe = ProbeFailed | ProbeResponse(status: int, childTags: Option<seq<string>>)

  // ---------------------------------------------------------------------
  // robots.txt

  predicate IsRule(line: string) {
    StartsWith(line, "Disallow:") || StartsWith(line, "Allow:")
  }

  /** Each line stripped, as the loop sees it. */
  function Stripped(lines: seq<string>): (r: seq<string>)
    ensures |r| == |lines| && forall i :: 0 <= i < |lines| ==> r[i] == PyStrip(lines[i])
  {
    seq(|lines|, i requires 0 <= i < |lines| => PyStrip(lines[i]))
  }

  /** The `Disallow:`/`Allow:` lines, in order. */
  function RulesOf(lines: seq<string>): (r: seq<string>)
    ensures |r| <= |lines|
  {
    if lines == [] then []
    else
      var line := lines[|lines| - 1];
      RulesOf(lines[..|lines| - 1]) + (if IsRule(line) then [line] else [])
  }

  /** The value of the last `Sitemap:` line, or `current` if none. */
  function SitemapOf(lines: seq<string>, current: string): string {
    if lines == [] then current
    else
      var line := lines[|lines| - 1];
      if !IsRule(line) && StartsWith(line, "Sitemap:") then PyStrip(line[8..])
      else SitemapOf(lines[..|lines| - 1], current)
  }

  /** Exactly the rule lines are kept, in input order: the k-th kept line is
      the line at the k-th position holding a rule, so every kept line is a
      rule line of the input and every rule line of the input is kept. */
  lemma RulesOfMembers(lines: seq<string>)
    ensures var pos := Positions(lines, IsRule);
      |RulesOf(lines)| == |pos| && forall k :: 0 <= k < |pos| ==> RulesOf(lines)[k] == lines[pos[k]]
    ensures forall r :: r in RulesOf(lines) ==> IsRule(r) && r in lines
    ensures forall i :: 0 <= i < |lines| && IsRule(lines[i]) ==> lines[i] in RulesOf(lines)
  {
    RulesInOrder(lines);
    var pos, rules := Positions(lines, IsRule), RulesOf(lines);
    forall r | r in rules
      ensures IsRule(r) && r in lines
    {
      var k :| 0 <= k < |rules| && rules[k] == r;
      assert r == lines[pos[k]];
    }
    forall i | 0 <= i < |lines| && IsRule(lines[i])
      ensures lines[i] in rules
    {
      var k :| 0 <= k < |pos| && pos[k] == i;
      assert rules[k] == lines[i];
    }
  }

  lemma {:induction false} RulesInOrder(lines: seq<string>)
    ensures var pos := Positions(lines, IsRule);
      |RulesOf(lines)| == |pos| && forall k :: 0 <= k < |pos| ==> RulesOf(lines)[k] == lines[pos[k]]
  {
    if lines != [] {
      var init := lines[..|lines| - 1];
      RulesInOrder(init);
      var pos, rules := Positions(lines, IsRule), RulesOf(lines);
      var pinit := Positions(init, IsRule);
      assert pos == pinit + (if IsRule(lines[|lines| - 1]) then [|lines| - 1] else []);
      forall k | 0 <= k < |pos|
        ensures rules[k] == lines[pos[k]]
      {
        if k < |pinit| {
          assert lines[pinit[k]] == init[pinit[k]];
        }
      }
    }
  }

  /** The kept rules carry no surrounding whitespace. */
  lemma RulesStripped(lines: seq<string>)
    ensures forall r :: r in RulesOf(Stripped(lines)) ==> IsRule(r) && TrimmedBy(r, PyIsSpace)
  {
    RulesOfMembers(Stripped(lines));
    forall i | 0 <= i < |lines|
      ensures TrimmedBy(Stripped(lines)[i], PyIsSpace)
    {
      PyStripTrimmed(lines[i]);
    }
  }

  /** One more line: a rule is appended, a `Sitemap:` line replaces the sitemap. */
  lemma ScanStep(st: seq<string>, i: nat)
    requires i < |st|
    ensures RulesOf(st[..i + 1]) == RulesOf(st[..i]) + (if IsRule(st[i]) then [st[i]] else [])
    ensures SitemapOf(st[..i + 1], "")
         == if !IsRule(st[i]) && StartsWith(st[i], "Sitemap:") then PyStrip(st[i][8..]) else SitemapOf(st[..i], "")
  {
    assert st[..i + 1][..i] == st[..i];
  }

  /** The rule-collecting loop of `get_site_info` over the lines of the
      body; the rules keep the source order and the last `Sitemap:` line
      wins. */
  method ScanRobots(lines: seq<string>) returns (rules: seq<string>, sitemap: string)
    ensures rules == RulesOf(Stripped(lines)) && sitemap == SitemapOf(Stripped(lines), "")
  {
    rules, sitemap := [], "";
    ghost var st := Stripped(lines);
    var i := 0;
    while i < |lines|
      invariant 0 <= i <= |lines|
      invariant rules == RulesOf(st[..i]) && sitemap == SitemapOf(st[..i], "")
    {
      var line := PyStrip(lines[i]);
      assert st[i] == line;
      ScanStep(st, i);
      if IsRule(line) {
        rules := rules + [line];
      } else if StartsWith(line, "Sitemap:") {
        sitemap := PyStrip(line[8..]);
      }
      assert rules == RulesOf(st[..i + 1]);
      assert sitemap == SitemapOf(st[..i + 1], "");
      i := i + 1;
    }
    assert st[..i] == st;
  }

  /** Children of a sitemap root whose lower-cased tag mentions `url` or
      `sitemap`. */
  function CountListed(tags: seq<string>): (n: nat)
    ensures n <= |tags|
  {
    if tags == [] then 0
    else (if Contains(Lower(tags[0]), "url") || Contains(Lower(tags[0]), "sitemap") then 1 else 0)
         + CountListed(tags[1..])
  }

  /** The entry `get_site_info` computes for `domain` on a cache miss. */
  function FreshEntry(domain: string, robots: RobotsFetch, probe: string -> SitemapProbe): (e: SiteEntry)
    ensures |e.robotsContent| <= 2000 && |e.robotsRules| <= 20
    ensures !e.hasRobotsTxt ==> e.robotsContent == "" && e.robotsRules == []
    ensures e.hasSitemap ==> e.sitemapUrl != ""
  {
    var fromRobots :=
      if robots.RobotsResponse? && robots.status == 200 && Contains(robots.contentType, "text") then
        var lines := Stripped(Split(robots.text, "\n"));
        var rules := RulesOf(lines);
        SiteEntry(true, if |robots.text| <= 2000 then robots.text else robots.text[..2000],
                  if |rules| <= 20 then rules else rules[..20], false, SitemapOf(lines, ""), 0)
      else SiteEntry(false, "", [], false, "", 0);
    var target := if fromRobots.sitemapUrl != "" then fromRobots.sitemapUrl else domain + "/sitemap.xml";
    match probe(target)
    case ProbeResponse(200, tags) =>
      fromRobots.(hasSitemap := true, sitemapUrl := target,
                  sitemapUrlCount := if tags.Some? then CountListed(tags.value) else 0)
    case _ => fromRobots
  }

  // ---------------------------------------------------------------------
  // The cache

  /** `site_cache`, keyed by `scheme://netloc`. */
  class SiteCache {
    var entries: map<string, SiteEntry>

    constructor ()
      ensures entries == map[]
    {
      entries := map[];
    }

    /** `get_site_info(base_url)`: a cached entry is returned unchanged;
        otherwise the fresh entry is stored and returned. `None` when
        `urlparse` raises, before anything is stored. */
    method GetSiteInfo(baseUrl: string, robots: string -> RobotsFetch, probe: string -> SitemapProbe)
      returns (info: Option<SiteEntry>)
      modifies this
      ensures Domain(baseUrl).None? ==> info.None? && entries == old(entries)
      ensures Domain(baseUrl).Some? ==>
        var d := Domain(baseUrl).value;
        info.Some? && d in entries && entries[d] == info.value
        && (d in old(entries) ==> entries == old(entries))
        && (d !in old(entries) ==> entries == old(entries)[d := FreshEntry(d, robots(d + "/robots.txt"), probe)])
    {
      var domain := Domain(baseUrl);
      if domain.None? {
        return None;
      }
      var d := domain.value;
      if d in entries {
        return Some(entries[d]);
      }
      var e := FreshEntry(d, robots(d + "/robots.txt"), probe);
      entries := entries[d := e];
      info := Some(e);
    }

    /** `update_site_cache_sitemap`: marks the domain as having a sitemap,
        keeping its robots.txt data; the count is replaced only when
        positive. `false` when `urlparse` raises, with nothing changed. */
    method UpdateSitemap(baseUrl: string, sitemapUrl: string, urlCount: nat) returns (ok: bool)
      modifies this
      ensures ok <==> Domain(baseUrl).Some?
      ensures !ok ==> entries == old(entries)
      ensures ok ==>
        var d := Domain(baseUrl).value;
        entries == old(entries)[d := Upgraded(old(entries), d, sitemapUrl, urlCount)]
    {
      var domain := Domain(baseUrl);
      if domain.None? {
        return false;
      }
      var d := domain.value;
      entries := entries[d := Upgraded(entries, d, sitemapUrl, urlCount)];
      ok := true;
    }
  }

  /** The entry `update_site_cache_sitemap` leaves for `d`. */
  function Upgraded(entries: map<string, SiteEntry>, d: string, sitemapUrl: string, urlCount: nat): (e: SiteEntry)
    ensures e.hasSitemap && e.sitemapUrl == sitemapUrl
    ensures d in entries ==>
      e.hasRobotsTxt == entries[d].hasRobotsTxt && e.robotsContent == entries[d].robotsContent
      && e.robotsRules == entries[d].robotsRules
      && e.sitemapUrlCount == (if urlCount > 0 then urlCount else entries[d].sitemapUrlCount)
    ensures d !in entries ==> !e.hasRobotsTxt && e.robotsRules == [] && e.sitemapUrlCount == urlCount
  {
    if d in entries then
      var old_ := entries[d];
      old_.(hasSitemap := true, sitemapUrl := sitemapUrl,
            sitemapUrlCount := if urlCount > 0 then urlCount else old_.sitemapUrlCount)
    else SiteEntry(false, "", [], true, sitemapUrl, urlCount)
  }

  /** After a crawl marked the site, a later `get_site_info` for any URL of
      the same domain is a cache hit that reports the sitemap, so the page
      audit does not warn 'No sitemap.xml found'. */
  method SitemapMarkSticks(cache: SiteCache, baseUrl: string, pageUrl: string, sitemapUrl: string,
                           urlCount: nat, robots: string -> RobotsFetch, probe: string -> SitemapProbe)
    returns (info: Option<SiteEntry>)
    requires Domain(baseUrl).Some? && Domain(pageUrl) == Domain(baseUrl)
    modifies cache
    ensures info.Some? && info.value.hasSitemap && info.value.sitemapUrl == sitemapUrl
  {
    var ok := cache.UpdateSitemap(baseUrl, sitemapUrl, urlCount);
    info := cache.GetSiteInfo(pageUrl, robots, probe);
  }

  // ---------------------------------------------------------------------
  // Redirect chain

  datatype HeadOutcome = HeadFailed | HeadResponse(status: int, location: Option<string>)

  datatype Hop = Hop(url: string, status: int)

  predicate IsRedirect(status: int) {
    status == 301 || status == 302 || status == 303 || status == 307 || status == 308
  }

  /** Where a HEAD response sends the walk next, if anywhere. */
  function NextUrl(current: string, outcome: HeadOutcome, join: (string, string) -> string): Option<string> {
    match outcome
    case HeadResponse(st, Some(loc)) =>
      if IsRedirect(st) && loc != "" then Some(join(current, loc)) else None
    case _ => None
  }

  /** The hops `get_redirect_chain` records from `current` with `fuel`
      requests left; a failed request records status 0 and ends the walk. */
  function Chain(current: string, fuel: nat, head: string -> HeadOutcome, join: (string, string) -> string): seq<Hop>
    decreases fuel
  {
    if fuel == 0 then []
    else
      var outcome := head(current);
      var hop := Hop(current, if outcome.HeadFailed? then 0 else outcome.status);
      match NextUrl(current, outcome, join)
      case None => [hop]
      case Some(next) => [hop] + Chain(next, fuel - 1, head, join)
  }

  /** The chain starts at the given URL, has at most `max_redirects` hops,
      every hop but the last is a redirect with a usable `Location` that the
      next hop follows, and the walk stops early only at a non-redirect, a
      missing location or a failed request. */
  lemma {:induction false} ChainShape(current: string, fuel: nat, head: string -> HeadOutcome,
                                      join: (string, string) -> string)
    ensures var c := Chain(current, fuel, head, join);
      |c| <= fuel && (fuel > 0 ==> |c| > 0 && c[0].url == current)
      && (forall i :: 0 <= i < |c| - 1 ==>
            IsRedirect(c[i].status) && NextUrl(c[i].url, head(c[i].url), join) == Some(c[i + 1].url))
      && (0 < |c| < fuel ==> NextUrl(c[|c| - 1].url, head(c[|c| - 1].url), join).None?)
    decreases fuel
  {
    if fuel > 0 {
      var outcome := head(current);
      match NextUrl(current, outcome, join)
      case None =>
      case Some(next) =>
        ChainShape(next, fuel - 1, head, join);
        var rest := Chain(next, fuel - 1, head, join);
        var c := Chain(current, fuel, head, join);
        assert c == [Hop(current, outcome.status)] + rest;
        assert forall i :: 1 <= i < |c| ==> c[i] == rest[i - 1];
    }
  }

  /** The `for _ in range(max_redirects)` loop of `get_redirect_chain`. */
  method RedirectChain(url: string, maxRedirects: int, head: string -> HeadOutcome, join: (string, string) -> string)
    returns (chain: seq<Hop>)
    ensures chain == Chain(url, if maxRedirects < 0 then 0 else maxRedirects, head, join)
  {
    var fuel: nat := if maxRedirects < 0 then 0 else maxRedirects;
    chain := [];
    var current := url;
    var k := 0;
    while k < fuel
      invariant 0 <= k <= fuel
      invariant chain + Chain(current, fuel - k, head, join) == Chain(url, fuel, head, join)
      decreases fuel - k
    {
      var outcome := head(current);
      var hop := Hop(current, if outcome.HeadFailed? then 0 else outcome.status);
      var next := NextUrl(current, outcome, join);
      chain := chain + [hop];
      if next.None? {
        return;
      }
      current := next.value;
      k := k + 1;
    }
  }
}
