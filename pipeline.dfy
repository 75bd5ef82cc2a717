/** The `/seo-audit` orchestration `seo_audit`: clamp `max_pages`, expand
    the entered URLs through their sitemaps while building the duplicate
    map, audit the URLs in batches of 300 whose results arrive in any order,
    annotate duplicates, and sort the results stably. Also the ordering of
    the `/check` results. */
module Pipeline {
  import opened Strings
  import opened Urls
  import opened Sorting
  import opened Records
  import opened Sitemap
  import opened SiteInfo

  // ---------------------------------------------------------------------
  // max_pages

  /** The JSON value of `max_pages`: falsy (absent, null, 0, "", false), a
      value `int()` converts to `n`, or one it rejects. */
  datatype PagesParam = Falsy | Convertible(n: int) | Unconvertible

  /** `max(1, min(int(max_pages or 100), 10000))`, 100 when `int()` raises. */
  function ClampMaxPages(p: PagesParam): (r: int)
    ensures 1 <= r <= 10000
    ensures p.Convertible? && 1 <= p.n <= 10000 ==> r == p.n
    ensures p.Convertible? && p.n < 1 ==> r == 1
    ensures p.Convertible? && p.n > 10000 ==> r == 10000
    ensures !p.Convertible? ==> r == 100
  {
    var requested := match p
      case Falsy => 100
      case Convertible(n) => n
      case Unconvertible => 100;
    if requested < 1 then 1 else if requested > 10000 then 10000 else requested
  }

  // ---------------------------------------------------------------------
  // The second duplicate map

  /** `u.lower().rstrip('/')`. */
  function CrawlKey(u: string): string {
    RStripSlashes(Lower(u))
  }

  /** Every mapped URL points at a URL with the same crude key, or with the
      same normal form under `norm`. */
  predicate MapsEquivalent(dupMap: map<string, string>, key: string -> string, norm: string -> Option<string>) {
    forall u :: u in dupMap ==>
      key(dupMap[u]) == key(u) || (norm(u).Some? && norm(dupMap[u]) == norm(u))
  }

  /** `seen_crawled` maps each crude key of `all` to a URL of `all` with that
      key, and every later URL whose key occurred before is mapped. */
  ghost predicate DedupInv(all: seq<string>, seen: map<string, string>, dupMap: map<string, string>,
                           key: string -> string, norm: string -> Option<string>) {
    (forall i :: 0 <= i < |all| ==> key(all[i]) in seen)
    && (forall k :: k in seen ==> key(seen[k]) == k && seen[k] in all)
    && (forall i, j :: 0 <= i < j < |all| && key(all[i]) == key(all[j]) ==> all[j] in dupMap)
    && MapsEquivalent(dupMap, key, norm)
  }

  /** One iteration of the `for u in crawled_urls` loop on `seen_crawled`
      and `dup_map`. */
  function RegisterOne(seen: map<string, string>, dupMap: map<string, string>, u: string, key: string -> string)
    : (map<string, string>, map<string, string>)
  {
    var k := key(u);
    if k in seen then (seen, if u in dupMap then dupMap else dupMap[u := seen[k]])
    else (seen[k := u], dupMap)
  }

  lemma RegisterOneKeys(all: seq<string>, seen: map<string, string>, dupMap: map<string, string>,
                        u: string, key: string -> string, norm: string -> Option<string>)
    requires DedupInv(all, seen, dupMap, key, norm)
    ensures var seen' := RegisterOne(seen, dupMap, u, key).0;
      (forall i :: 0 <= i < |all + [u]| ==> key((all + [u])[i]) in seen')
      && (forall k :: k in seen' ==> key(seen'[k]) == k && seen'[k] in all + [u])
  {
    var all' := all + [u];
    assert forall i :: 0 <= i < |all| ==> all'[i] == all[i];
  }

  lemma RegisterOneMaps(all: seq<string>, seen: map<string, string>, dupMap: map<string, string>,
                        u: string, key: string -> string, norm: string -> Option<string>)
    requires DedupInv(all, seen, dupMap, key, norm)
    ensures var dupMap' := RegisterOne(seen, dupMap, u, key).1;
      (forall i, j :: 0 <= i < j < |all + [u]| && key((all + [u])[i]) == key((all + [u])[j])
         ==> (all + [u])[j] in dupMap')
      && MapsEquivalent(dupMap', key, norm)
      && forall v :: v in dupMap ==> v in dupMap' && dupMap'[v] == dupMap[v]
  {
    var dupMap' := RegisterOne(seen, dupMap, u, key).1;
    var all' := all + [u];
    forall i, j | 0 <= i < j < |all'| && key(all'[i]) == key(all'[j])
      ensures all'[j] in dupMap'
    {
      if j == |all| {
        assert all'[i] == all[i] && all'[j] == u;
        assert key(all[i]) in seen;
      } else {
        assert all'[i] == all[i] && all'[j] == all[j];
      }
    }
  }

  lemma RegisterOneKeeps(all: seq<string>, seen: map<string, string>, dupMap: map<string, string>,
                         u: string, key: string -> string, norm: string -> Option<string>)
    requires DedupInv(all, seen, dupMap, key, norm)
    ensures var (seen', dupMap') := RegisterOne(seen, dupMap, u, key);
      DedupInv(all + [u], seen', dupMap', key, norm)
      && forall v :: v in dupMap ==> v in dupMap' && dupMap'[v] == dupMap[v]
  {
    RegisterOneKeys(all, seen, dupMap, u, key, norm);
    RegisterOneMaps(all, seen, dupMap, u, key, norm);
  }

  /** One pass of the `for u in crawled_urls` loop. */
  method RegisterNext(u: string, all: seq<string>, seen: map<string, string>,
                      dupMap: map<string, string>, key: string -> string, ghost norm: string -> Option<string>)
    returns (seen': map<string, string>, dupMap': map<string, string>)
    requires DedupInv(all, seen, dupMap, key, norm)
    ensures DedupInv(all + [u], seen', dupMap', key, norm)
    ensures forall v :: v in dupMap ==> v in dupMap' && dupMap'[v] == dupMap[v]
  {
    RegisterOneKeeps(all, seen, dupMap, u, key, norm);
    ghost var next := RegisterOne(seen, dupMap, u, key);
    seen', dupMap' := seen, dupMap;
    var k := key(u);
    if k in seen {
      if u !in dupMap {
        dupMap' := dupMap[u := seen[k]];
      }
    } else {
      seen' := seen[k := u];
    }
    assert (seen', dupMap') == next;
  }

  /** The `for u in crawled_urls` loop: append each URL, record the first
      URL of each crude key, and map a URL whose key was seen to that first
      URL unless it is already mapped. */
  method RegisterCrawled(crawled: seq<string>, all: seq<string>, seen: map<string, string>,
                         dupMap: map<string, string>, key: string -> string, ghost norm: string -> Option<string>)
    returns (all': seq<string>, seen': map<string, string>, dupMap': map<string, string>)
    requires DedupInv(all, seen, dupMap, key, norm)
    ensures DedupInv(all', seen', dupMap', key, norm)
    ensures all' == all + crawled
    ensures forall u :: u in dupMap ==> u in dupMap' && dupMap'[u] == dupMap[u]
  {
    all', seen', dupMap' := all, seen, dupMap;
    var i := 0;
    while i < |crawled|
      invariant 0 <= i <= |crawled|
      invariant all' == all + crawled[..i]
      invariant DedupInv(all', seen', dupMap', key, norm)
      invariant forall u :: u in dupMap ==> u in dupMap' && dupMap'[u] == dupMap[u]
    {
      var u := crawled[i];
      seen', dupMap' := RegisterNext(u, all', seen', dupMap', key, norm);
      all' := all' + [u];
      assert crawled[..i + 1] == crawled[..i] + [u];
      i := i + 1;
    }
    assert crawled[..i] == crawled;
  }

  /** A reported duplicate has the same normal form as the URL it names. */
  lemma DuplicateEquivalent(crawled: seq<string>, duplicates: seq<Duplicate>, d: Duplicate,
                            norm: string -> Option<string>)
    requires DuplicatesOfFirst(crawled, duplicates, norm) && d in duplicates
    ensures norm(d.url).Some? && norm(d.duplicateOf) == norm(d.url)
  {
  }

  /** The `for d in site_debug['duplicates']` loop: map each reported
      duplicate with a non-empty URL and target, the later report winning. */
  method AddCrawlDuplicates(dupMap: map<string, string>, duplicates: seq<Duplicate>, crawled: seq<string>,
                            ghost key: string -> string, ghost norm: string -> Option<string>)
    returns (dupMap': map<string, string>)
    requires MapsEquivalent(dupMap, key, norm) && DuplicatesOfFirst(crawled, duplicates, norm)
    ensures MapsEquivalent(dupMap', key, norm)
    ensures forall u :: u in dupMap ==> u in dupMap'
    ensures forall d :: d in duplicates && d.url != "" && d.duplicateOf != "" ==> d.url in dupMap'
  {
    dupMap' := dupMap;
    var i := 0;
    while i < |duplicates|
      invariant 0 <= i <= |duplicates|
      invariant MapsEquivalent(dupMap', key, norm)
      invariant forall u :: u in dupMap ==> u in dupMap'
      invariant forall j :: 0 <= j < i && duplicates[j].url != "" && duplicates[j].duplicateOf != "" ==>
                  duplicates[j].url in dupMap'
    {
      var d := duplicates[i];
      if d.url != "" && d.duplicateOf != "" {
        DuplicateEquivalent(crawled, duplicates, d, norm);
        dupMap' := dupMap'[d.url := d.duplicateOf];
      }
      i := i + 1;
    }
  }

  /** One entry of `sitemap_debug`. */
  datatype SitemapNote = Crawled(entry: DebugEntry) | CrawlFailed(sitemap: string, base: string) | NothingFound

  function CrawledNotes(debug: seq<DebugEntry>): (r: seq<SitemapNote>)
    ensures |r| == |debug| && forall i :: 0 <= i < |debug| ==> r[i] == Crawled(debug[i])
  {
    seq(|debug|, i requires 0 <= i < |debug| => Crawled(debug[i]))
  }

  /** The sitemap crawled for an entered URL: the given one, or
      `/sitemap.xml` under the URL with its trailing slashes stripped. */
  function TargetSitemap(baseInput: string, sitemapUrl: string): string {
    if sitemapUrl != "" then sitemapUrl else RStripSlashes(baseInput) + "/sitemap.xml"
  }

  /** The crude keys of the URLs collected so far. */
  function CrawlKeys(all: seq<string>): set<string> {
    set u | u in all :: CrawlKey(u)
  }

  /** What one entered URL adds to `all_crawled_urls` after `before`: the
      URLs its sitemap crawl collected when there are some and marking the
      site in the cache succeeds, nothing when that marking raises, and the
      entered URL itself when the crawl found nothing and its crude key is
      new. */
  ghost function Contributed(baseInput: string, sitemapUrl: string, maxPages: int, fetch: string -> FetchOutcome,
                             before: seq<string>): seq<string>
  {
    var crawled := Crawl(TargetSitemap(baseInput, sitemapUrl), maxPages, 15, fetch).1.collected;
    if crawled != [] then (if Domain(RStripSlashes(baseInput)).Some? then crawled else [])
    else if CrawlKey(baseInput) in CrawlKeys(before) then []
    else [baseInput]
  }

  /** `all_crawled_urls` after the loop over the entered URLs. */
  ghost function Expanded(originalUrls: seq<string>, sitemapUrl: string, maxPages: int,
                          fetch: string -> FetchOutcome): seq<string>
    decreases |originalUrls|
  {
    if originalUrls == [] then []
    else
      var before := Expanded(originalUrls[..|originalUrls| - 1], sitemapUrl, maxPages, fetch);
      before + Contributed(originalUrls[|originalUrls| - 1], sitemapUrl, maxPages, fetch, before)
  }

  /** The keys of `seen_crawled` are the crude keys of the URLs collected. */
  lemma SeenIsKeys(all: seq<string>, seen: map<string, string>, dupMap: map<string, string>,
                   norm: string -> Option<string>)
    requires DedupInv(all, seen, dupMap, CrawlKey, norm)
    ensures forall k :: k in seen <==> k in CrawlKeys(all)
  {
    forall k | k in CrawlKeys(all) ensures k in seen {
      var u :| u in all && CrawlKey(u) == k;
      var i :| 0 <= i < |all| && all[i] == u;
    }
  }

  /** Collected URLs stay collected, so their crude keys stay known. */
  lemma {:induction false} ExpandedGrows(originalUrls: seq<string>, n: nat, sitemapUrl: string, maxPages: int,
                                         fetch: string -> FetchOutcome)
    requires n <= |originalUrls|
    ensures var e := Expanded(originalUrls, sitemapUrl, maxPages, fetch);
            var p := Expanded(originalUrls[..n], sitemapUrl, maxPages, fetch);
            |p| <= |e| && e[..|p|] == p
    decreases |originalUrls|
  {
    if n < |originalUrls| {
      var init := originalUrls[..|originalUrls| - 1];
      assert init[..n] == originalUrls[..n];
      ExpandedGrows(init, n, sitemapUrl, maxPages, fetch);
    } else {
      assert originalUrls[..n] == originalUrls;
    }
  }

  /** An entered URL whose sitemap yields nothing is audited itself, unless
      a URL with the same crude key already is. */
  lemma EnteredKept(originalUrls: seq<string>, i: nat, sitemapUrl: string, maxPages: int,
                    fetch: string -> FetchOutcome)
    requires i < |originalUrls|
    requires Crawl(TargetSitemap(originalUrls[i], sitemapUrl), maxPages, 15, fetch).1.collected == []
    ensures CrawlKey(originalUrls[i]) in CrawlKeys(Expanded(originalUrls, sitemapUrl, maxPages, fetch))
  {
    var pre := originalUrls[..i + 1];
    assert pre[..i] == originalUrls[..i] && pre[i] == originalUrls[i];
    ExpandedGrows(originalUrls, i + 1, sitemapUrl, maxPages, fetch);
    var p := Expanded(pre, sitemapUrl, maxPages, fetch);
    var e := Expanded(originalUrls, sitemapUrl, maxPages, fetch);
    var before := Expanded(originalUrls[..i], sitemapUrl, maxPages, fetch);
    assert p == before + Contributed(originalUrls[i], sitemapUrl, maxPages, fetch, before);
    if CrawlKey(originalUrls[i]) in CrawlKeys(before) {
      var u :| u in before && CrawlKey(u) == CrawlKey(originalUrls[i]);
      assert u in p;
      assert u in e by { assert e[..|p|] == p; }
    } else {
      assert originalUrls[i] in p;
      assert originalUrls[i] in e by { assert e[..|p|] == p; }
    }
  }

  /** Every URL expanded is an entered URL or one its sitemap crawl collected. */
  lemma {:induction false} ExpandedFrom(originalUrls: seq<string>, sitemapUrl: string, maxPages: int,
                                        fetch: string -> FetchOutcome, u: string)
    requires u in Expanded(originalUrls, sitemapUrl, maxPages, fetch)
    ensures exists i :: 0 <= i < |originalUrls|
              && (u == originalUrls[i]
                  || u in Crawl(TargetSitemap(originalUrls[i], sitemapUrl), maxPages, 15, fetch).1.collected)
    decreases |originalUrls|
  {
    var n := |originalUrls| - 1;
    var init := originalUrls[..n];
    var before := Expanded(init, sitemapUrl, maxPages, fetch);
    if u in before {
      ExpandedFrom(init, sitemapUrl, maxPages, fetch, u);
      var i :| 0 <= i < |init|
               && (u == init[i] || u in Crawl(TargetSitemap(init[i], sitemapUrl), maxPages, 15, fetch).1.collected);
      assert originalUrls[i] == init[i];
    } else {
      assert u in Contributed(originalUrls[n], sitemapUrl, maxPages, fetch, before);
    }
  }

  /** One iteration of the `for base_input_url in original_urls` loop:
      crawl the site's sitemap (or the given one) with `max_pages` as the
      cap and depth 15, map its reported duplicates, and collect its URLs,
      or the entered URL itself when the crawl found nothing and its key is
      new. When marking the site in the cache raises, the crawl counts as
      found but none of its URLs are kept. */
  method ExpandOne(baseInput: string, sitemapUrl: string, maxPages: int, fetch: string -> FetchOutcome,
                   cache: SiteCache, all: seq<string>, seen: map<string, string>, dupMap: map<string, string>,
                   key: string -> string, ghost norm: string -> Option<string>)
    returns (all': seq<string>, seen': map<string, string>, dupMap': map<string, string>, notes: seq<SitemapNote>)
    requires norm == NormalizeUrl && key == CrawlKey
    requires DedupInv(all, seen, dupMap, key, norm)
    modifies cache
    ensures DedupInv(all', seen', dupMap', key, norm)
    ensures all' == all + Contributed(baseInput, sitemapUrl, maxPages, fetch, all)
    ensures forall u :: u in dupMap ==> u in dupMap'
    ensures var target := TargetSitemap(baseInput, sitemapUrl);
            var (debug, st) := Crawl(target, maxPages, 15, fetch);
            var domain := Domain(RStripSlashes(baseInput));
            notes == CrawledNotes(debug)
                     + (if st.collected != [] && domain.None? then [CrawlFailed(target, baseInput)] else [])
            && cache.entries
               == if st.collected != [] && domain.Some?
                  then old(cache.entries)[domain.value := Upgraded(old(cache.entries), domain.value, target,
                                                                   |st.collected|)]
                  else old(cache.entries)
  {
    var baseUrl := RStripSlashes(baseInput);
    var target := TargetSitemap(baseInput, sitemapUrl);
    var found := false;
    var crawled, debug, skipped, duplicates := FetchSitemapUrls(target, maxPages, 15, fetch);
    ghost var contributed := Contributed(baseInput, sitemapUrl, maxPages, fetch, all);
    CrawlDuplicates(target, maxPages, 15, fetch);
    all', seen' := all, seen;
    dupMap' := AddCrawlDuplicates(dupMap, duplicates, crawled, key, norm);
    notes := CrawledNotes(debug);
    if crawled != [] {
      found := true;
      var marked := cache.UpdateSitemap(baseUrl, target, |crawled|);
      if marked {
        assert contributed == crawled;
        all', seen', dupMap' := RegisterCrawled(crawled, all', seen', dupMap', key, norm);
      } else {
        assert contributed == [];
        notes := notes + [CrawlFailed(target, baseInput)];
      }
    }
    if !found {
      SeenIsKeys(all, seen, dupMap, norm);
      var k := key(baseInput);
      if k !in seen' {
        assert contributed == [baseInput];
        RegisterOneKeeps(all', seen', dupMap', baseInput, key, norm);
        all' := all' + [baseInput];
        seen' := seen'[k := baseInput];
      } else {
        assert contributed == [];
      }
    }
  }

  /** One pass of the `for base_input_url in original_urls` loop: expand
      the entered URL at index `b` and append its diagnostics. */
  method ExpandNext(originalUrls: seq<string>, b: nat, sitemapUrl: string, maxPages: int,
                    fetch: string -> FetchOutcome, cache: SiteCache,
                    all: seq<string>, seen: map<string, string>, dupMap: map<string, string>, notes: seq<SitemapNote>,
                    key: string -> string, ghost norm: string -> Option<string>)
    returns (all': seq<string>, seen': map<string, string>, dupMap': map<string, string>, notes': seq<SitemapNote>)
    requires b < |originalUrls| && norm == NormalizeUrl && key == CrawlKey
    requires DedupInv(all, seen, dupMap, key, norm)
    requires all == Expanded(originalUrls[..b], sitemapUrl, maxPages, fetch)
    modifies cache
    ensures DedupInv(all', seen', dupMap', key, norm)
    ensures all' == Expanded(originalUrls[..b + 1], sitemapUrl, maxPages, fetch)
  {
    assert Expanded(originalUrls[..b + 1], sitemapUrl, maxPages, fetch)
           == all + Contributed(originalUrls[b], sitemapUrl, maxPages, fetch, all) by {
      assert originalUrls[..b + 1][..b] == originalUrls[..b];
    }
    var more;
    all', seen', dupMap', more := ExpandOne(originalUrls[b], sitemapUrl, maxPages, fetch, cache,
                                            all, seen, dupMap, key, norm);
    notes' := notes + more;
  }

  /** The `if use_sitemap` block of `seo_audit`: expand every entered URL in
      turn; if nothing was collected, the entered URLs are audited. */
  method ExpandSitemaps(originalUrls: seq<string>, sitemapUrl: string, maxPages: int,
                        fetch: string -> FetchOutcome, cache: SiteCache)
    returns (urls: seq<string>, dupMap: map<string, string>, notes: seq<SitemapNote>, fromSitemaps: bool)
    modifies cache
    ensures var expanded := Expanded(originalUrls, sitemapUrl, maxPages, fetch);
            (fromSitemaps <==> expanded != []) && urls == (if expanded != [] then expanded else originalUrls)
    ensures MapsEquivalent(dupMap, CrawlKey, NormalizeUrl)
    ensures fromSitemaps ==>
      forall i, j :: 0 <= i < j < |urls| && CrawlKey(urls[i]) == CrawlKey(urls[j]) ==> urls[j] in dupMap
    ensures !fromSitemaps ==> |notes| > 0 && notes[|notes| - 1] == NothingFound
  {
    var norm := NormalizeUrl;
    var crawlKey := CrawlKey;
    var all: seq<string> := [];
    var seen: map<string, string> := map[];
    dupMap, notes := map[], [];
    var b := 0;
    while b < |originalUrls|
      invariant 0 <= b <= |originalUrls|
      invariant DedupInv(all, seen, dupMap, crawlKey, norm)
      invariant all == Expanded(originalUrls[..b], sitemapUrl, maxPages, fetch)
    {
      all, seen, dupMap, notes := ExpandNext(originalUrls, b, sitemapUrl, maxPages, fetch, cache,
                                             all, seen, dupMap, notes, crawlKey, norm);
      b := b + 1;
    }
    assert originalUrls[..b] == originalUrls;
    if all != [] {
      urls, fromSitemaps := all, true;
    } else {
      urls, fromSitemaps := originalUrls, false;
      notes := notes + [NothingFound];
    }
  }

  // ---------------------------------------------------------------------
  // Batches

  const BatchSize: nat := 300

  /** `min(8, max(2, len(batch)))`. */
  function PoolSize(n: nat): (r: nat)
    ensures 2 <= r <= 8
    ensures 2 <= n <= 8 ==> r == n
    ensures n < 2 ==> r == 2
    ensures n > 8 ==> r == 8
  {
    if n < 2 then 2 else if n > 8 then 8 else n
  }

  /** `urls[start:start + 300]` for `start = 0, 300, 600, ...` below `len(urls)`. */
  function Batches(urls: seq<string>): (bs: seq<seq<string>>)
    decreases |urls|
  {
    if urls == [] then []
    else if |urls| <= BatchSize then [urls]
    else [urls[..BatchSize]] + Batches(urls[BatchSize..])
  }

  function Flatten(bs: seq<seq<string>>): seq<string> {
    if bs == [] then [] else bs[0] + Flatten(bs[1..])
  }

  /** The batches cover the URLs in order, each holds between 1 and 300 of
      them, and all but the last hold exactly 300. */
  lemma {:induction false} BatchesCover(urls: seq<string>)
    ensures Flatten(Batches(urls)) == urls
    ensures forall k :: 0 <= k < |Batches(urls)| ==> 1 <= |Batches(urls)[k]| <= BatchSize
    ensures forall k :: 0 <= k < |Batches(urls)| - 1 ==> |Batches(urls)[k]| == BatchSize
    ensures |Batches(urls)| == (|urls| + BatchSize - 1) / BatchSize
    decreases |urls|
  {
    if |urls| > BatchSize {
      var rest := urls[BatchSize..];
      BatchesCover(rest);
      var bs := Batches(urls);
      assert bs == [urls[..BatchSize]] + Batches(rest);
      assert bs[1..] == Batches(rest);
      assert urls == urls[..BatchSize] + rest;
    }
  }

  // ---------------------------------------------------------------------
  // Duplicate annotation

  /** `if dup_map: dup_of = dup_map.get(result['url']); if dup_of: ...`. */
  predicate Mapped(r: AuditRecord, dupMap: map<string, string>) {
    |dupMap| > 0 && r.url in dupMap && dupMap[r.url] != ""
  }

  /** A mapped result gets `duplicate_of` and, unless already present, the
      warning 'Duplicate URL' appended; any other result is unchanged. */
  function Annotate(r: AuditRecord, dupMap: map<string, string>): (a: AuditRecord)
    ensures !Mapped(r, dupMap) ==> a == r
    ensures Mapped(r, dupMap) ==>
      a == r.(duplicateOf := Some(dupMap[r.url]), warnings := a.warnings)
      && "Duplicate URL" in a.warnings
      && (a.warnings == r.warnings || a.warnings == r.warnings + ["Duplicate URL"])
      && multiset(a.warnings)["Duplicate URL"] == if "Duplicate URL" in r.warnings then multiset(r.warnings)["Duplicate URL"] else 1
  {
    if Mapped(r, dupMap) then
      r.(duplicateOf := Some(dupMap[r.url]),
         warnings := if "Duplicate URL" in r.warnings then r.warnings else r.warnings + ["Duplicate URL"])
    else r
  }

  /** Annotating twice is annotating once: the warning is never doubled. */
  lemma AnnotateIdempotent(r: AuditRecord, dupMap: map<string, string>)
    ensures Annotate(Annotate(r, dupMap), dupMap) == Annotate(r, dupMap)
  {
    if Mapped(r, dupMap) {
      assert Annotate(r, dupMap).url == r.url;
    }
  }

  /** The annotated records of `audit_website` over `us`, in input order. */
  function AuditAll(us: seq<string>, dupMap: map<string, string>, audit: string -> AuditRecord)
    : (rs: seq<AuditRecord>)
    ensures |rs| == |us| && forall i :: 0 <= i < |us| ==> rs[i] == Annotate(audit(us[i]), dupMap)
  {
    seq(|us|, i requires 0 <= i < |us| => Annotate(audit(us[i]), dupMap))
  }

  lemma AuditAllConcat(a: seq<string>, b: seq<string>, dupMap: map<string, string>, audit: string -> AuditRecord)
    ensures AuditAll(a + b, dupMap, audit) == AuditAll(a, dupMap, audit) + AuditAll(b, dupMap, audit)
  {
  }

  /** Removing index `i` of `pending`. */
  lemma RemoveAt(pending: seq<string>, i: nat, dupMap: map<string, string>, audit: string -> AuditRecord)
    requires i < |pending|
    ensures multiset(AuditAll(pending, dupMap, audit))
            == multiset(AuditAll(pending[..i] + pending[i + 1..], dupMap, audit))
               + multiset{Annotate(audit(pending[i]), dupMap)}
  {
    var a, x, b := pending[..i], [pending[i]], pending[i + 1..];
    assert pending == a + x + b;
    AuditAllConcat(a + x, b, dupMap, audit);
    AuditAllConcat(a, x, dupMap, audit);
    AuditAllConcat(a, b, dupMap, audit);
    var ra, rx, rb := AuditAll(a, dupMap, audit), AuditAll(x, dupMap, audit), AuditAll(b, dupMap, audit);
    assert rx == [Annotate(audit(pending[i]), dupMap)];
    assert multiset(ra + rx + rb) == multiset(ra) + multiset(rx) + multiset(rb);
    assert multiset(ra + rb) == multiset(ra) + multiset(rb);
  }

  /** `as_completed` over one batch: `pick` chooses which pending future
      finishes next; each result is annotated, appended and counted, and a
      progress event carries the new `completed`. */
  method RunBatch(batch: seq<string>, dupMap: map<string, string>, audit: string -> AuditRecord,
                  pick: nat -> nat, completed: nat)
    returns (out: seq<AuditRecord>, progress: seq<nat>)
    ensures multiset(out) == multiset(AuditAll(batch, dupMap, audit))
    ensures |out| == |batch| && |progress| == |batch|
    ensures forall i :: 0 <= i < |progress| ==> progress[i] == completed + i + 1
  {
    var pending := batch;
    out, progress := [], [];
    var count := completed;
    while pending != []
      invariant |out| + |pending| == |batch| && |progress| == |out| && count == completed + |out|
      invariant multiset(out) + multiset(AuditAll(pending, dupMap, audit)) == multiset(AuditAll(batch, dupMap, audit))
      invariant forall i :: 0 <= i < |progress| ==> progress[i] == completed + i + 1
      decreases |pending|
    {
      var i := pick(count) % |pending|;
      RemoveAt(pending, i, dupMap, audit);
      var result := Annotate(audit(pending[i]), dupMap);
      out := out + [result];
      count := count + 1;
      progress := progress + [count];
      pending := pending[..i] + pending[i + 1..];
    }
  }

  /** Batch `k` is the slice starting at `k * 300`. */
  lemma {:induction false} BatchAt(urls: seq<string>, k: nat)
    requires k < |Batches(urls)|
    ensures k * BatchSize < |urls|
    ensures Batches(urls)[k] == urls[k * BatchSize .. if k * BatchSize + BatchSize < |urls| then k * BatchSize + BatchSize else |urls|]
    decreases |urls|
  {
    if k > 0 {
      var rest := urls[BatchSize..];
      assert |urls| > BatchSize;
      assert Batches(urls)[k] == Batches(rest)[k - 1];
      BatchAt(rest, k - 1);
      assert (k - 1) * BatchSize + BatchSize == k * BatchSize;
    }
  }

  /** The first `n` batches each occupy their own block of `results`, in
      some order. */
  ghost predicate BlocksDone(results: seq<AuditRecord>, urls: seq<string>, n: nat,
                             dupMap: map<string, string>, audit: string -> AuditRecord)
    requires n <= |Batches(urls)|
  {
    forall j :: 0 <= j < n ==> BlockDone(results, urls, j, dupMap, audit)
  }

  /** Batch `j` occupies its block of `results`, in some order. */
  ghost predicate BlockDone(results: seq<AuditRecord>, urls: seq<string>, j: nat,
                            dupMap: map<string, string>, audit: string -> AuditRecord)
    requires j < |Batches(urls)|
  {
    j * BatchSize + |Batches(urls)[j]| <= |results| &&
    multiset(results[j * BatchSize .. j * BatchSize + |Batches(urls)[j]|])
      == multiset(AuditAll(Batches(urls)[j], dupMap, audit))
  }

  lemma BlocksExtend(before: seq<AuditRecord>, out: seq<AuditRecord>, urls: seq<string>, k: nat,
                     dupMap: map<string, string>, audit: string -> AuditRecord)
    requires k < |Batches(urls)| && |before| == k * BatchSize && |out| == |Batches(urls)[k]|
    requires BlocksDone(before, urls, k, dupMap, audit)
    requires multiset(out) == multiset(AuditAll(Batches(urls)[k], dupMap, audit))
    ensures BlocksDone(before + out, urls, k + 1, dupMap, audit)
  {
    var results := before + out;
    BlocksKept(before, out, urls, k, dupMap, audit);
    SliceOfRight(before, out);
    assert results[k * BatchSize .. k * BatchSize + |Batches(urls)[k]|] == out;
    assert BlockDone(results, urls, k, dupMap, audit);
  }

  /** Appending leaves the blocks already in place untouched. */
  lemma BlocksKept(before: seq<AuditRecord>, out: seq<AuditRecord>, urls: seq<string>, k: nat,
                   dupMap: map<string, string>, audit: string -> AuditRecord)
    requires k <= |Batches(urls)|
    requires BlocksDone(before, urls, k, dupMap, audit)
    ensures BlocksDone(before + out, urls, k, dupMap, audit)
  {
    forall j | 0 <= j < k
      ensures BlockDone(before + out, urls, j, dupMap, audit)
    {
      assert BlockDone(before, urls, j, dupMap, audit);
      BlockKept(before, out, urls, j, dupMap, audit);
    }
  }

  lemma BlockKept(before: seq<AuditRecord>, out: seq<AuditRecord>, urls: seq<string>, j: nat,
                  dupMap: map<string, string>, audit: string -> AuditRecord)
    requires j < |Batches(urls)| && BlockDone(before, urls, j, dupMap, audit)
    ensures BlockDone(before + out, urls, j, dupMap, audit)
  {
    var lo := j * BatchSize;
    var hi := lo + |Batches(urls)[j]|;
    assert hi <= |before|;
    SliceOfLeft(before, out, lo, hi);
    assert multiset((before + out)[lo..hi]) == multiset(before[lo..hi]);
  }

  lemma SliceOfLeft<T>(a: seq<T>, b: seq<T>, lo: nat, hi: nat)
    requires lo <= hi <= |a|
    ensures (a + b)[lo..hi] == a[lo..hi]
  {
  }

  lemma SliceOfRight<T>(a: seq<T>, b: seq<T>)
    ensures (a + b)[|a|..|a| + |b|] == b
  {
  }

  /** `k * 300 < len(urls)` exactly when a `k`-th batch exists. */
  lemma BatchExists(urls: seq<string>, k: nat)
    ensures k * BatchSize < |urls| <==> k < |Batches(urls)|
  {
    BatchesCover(urls);
    var n := |Batches(urls)|;
    assert n * BatchSize >= |urls| && (n == 0 || (n - 1) * BatchSize < |urls|);
    if k < n {
      assert k * BatchSize <= (n - 1) * BatchSize;
    } else {
      assert k * BatchSize >= n * BatchSize;
    }
  }

  lemma PrefixExtend(urls: seq<string>, start: nat, end: nat, done: seq<AuditRecord>, out: seq<AuditRecord>,
                     dupMap: map<string, string>, audit: string -> AuditRecord)
    requires start <= end <= |urls|
    requires multiset(done) == multiset(AuditAll(urls[..start], dupMap, audit))
    requires multiset(out) == multiset(AuditAll(urls[start..end], dupMap, audit))
    ensures multiset(done + out) == multiset(AuditAll(urls[..end], dupMap, audit))
  {
    assert urls[..end] == urls[..start] + urls[start..end];
    AuditAllConcat(urls[..start], urls[start..end], dupMap, audit);
  }

  /** One pass of the batch loop: batch `k` runs and its results follow the
      earlier ones. */
  method BatchStep(urls: seq<string>, dupMap: map<string, string>, audit: string -> AuditRecord,
                   pick: nat -> nat, k: nat, results: seq<AuditRecord>, progress: seq<nat>)
    returns (results': seq<AuditRecord>, progress': seq<nat>)
    requires k < |Batches(urls)| && k * BatchSize < |urls|
    requires |results| == k * BatchSize && |progress| == |results|
    requires multiset(results) == multiset(AuditAll(urls[..|results|], dupMap, audit))
    requires BlocksDone(results, urls, k, dupMap, audit)
    requires forall i :: 0 <= i < |progress| ==> progress[i] == i + 1
    ensures |results'| == (if (k + 1) * BatchSize < |urls| then (k + 1) * BatchSize else |urls|)
    ensures |progress'| == |results'|
    ensures multiset(results') == multiset(AuditAll(urls[..|results'|], dupMap, audit))
    ensures BlocksDone(results', urls, k + 1, dupMap, audit)
    ensures forall i :: 0 <= i < |progress'| ==> progress'[i] == i + 1
  {
    BatchAt(urls, k);
    var start := k * BatchSize;
    var end := if start + BatchSize < |urls| then start + BatchSize else |urls|;
    var batch := urls[start..end];
    var poolSize := PoolSize(|batch|);
    var out, more := RunBatch(batch, dupMap, audit, pick, |results|);
    PrefixExtend(urls, start, end, results, out, dupMap, audit);
    BlocksExtend(results, out, urls, k, dupMap, audit);
    results' := results + out;
    progress' := progress + more;
  }

  /** The `while start_index < total` loop: the batches run one after the
      other, so each batch's results form one contiguous block of the
      output, in some order, and `completed` counts 1, 2, ..., `total`. */
  method RunBatches(urls: seq<string>, dupMap: map<string, string>, audit: string -> AuditRecord, pick: nat -> nat)
    returns (results: seq<AuditRecord>, progress: seq<nat>)
    ensures multiset(results) == multiset(AuditAll(urls, dupMap, audit))
    ensures |results| == |urls|
    ensures BlocksDone(results, urls, |Batches(urls)|, dupMap, audit)
    ensures |progress| == |urls| && forall i :: 0 <= i < |urls| ==> progress[i] == i + 1
  {
    var total := |urls|;
    results, progress := [], [];
    var start := 0;
    var k: nat := 0;
    while start < total
      invariant start == k * BatchSize && k <= |Batches(urls)|
      invariant |results| == (if start < total then start else total) && |progress| == |results|
      invariant multiset(results) == multiset(AuditAll(urls[..|results|], dupMap, audit))
      invariant BlocksDone(results, urls, k, dupMap, audit)
      invariant forall i :: 0 <= i < |progress| ==> progress[i] == i + 1
      decreases total - start
    {
      BatchExists(urls, k);
      results, progress := BatchStep(urls, dupMap, audit, pick, k, results, progress);
      start := start + BatchSize;
      k := k + 1;
    }
    BatchExists(urls, k);
    assert urls[..|results|] == urls;
  }

  // ---------------------------------------------------------------------
  // Result ordering

  /** The integer `status_code`, or 999 for 'N/A'. */
  function CodeOr999(c: StatusCode): int {
    match c
    case Code(n) => n
    case NotAvailable => 999
  }

  /** `(0 if status_message == 'OK' else 1, status_code or 999)`. */
  function SeoKey(r: AuditRecord): Key {
    Key(if r.statusMessage == "OK" then 0 else 1, CodeOr999(r.statusCode))
  }

  /** The final `sorted(results, ...)` of `/seo-audit`: 'OK' records first,
      then by status code, records with equal keys in arrival order. */
  function SortSeoResults(rs: seq<AuditRecord>): (s: seq<AuditRecord>)
    ensures multiset(s) == multiset(rs)
    ensures forall i, j :: 0 <= i < j < |s| && s[j].statusMessage == "OK" ==> s[i].statusMessage == "OK"
    ensures forall i, j :: 0 <= i < j < |s| && (s[i].statusMessage == "OK" <==> s[j].statusMessage == "OK") ==>
      CodeOr999(s[i].statusCode) <= CodeOr999(s[j].statusCode)
    ensures forall k :: WithKey(s, SeoKey, k) == WithKey(rs, SeoKey, k)
  {
    StableSort(rs, SeoKey)
  }

  /** What `check_website_status` returns that the `/check` ordering reads. */
  datatype CheckResult = CheckResult(url: string, statusCode: StatusCode, statusMessage: string)

  /** `(0 if status_message not in ['Online'] else 1, status_code or 999)`. */
  function CheckKey(r: CheckResult): Key {
    Key(if r.statusMessage != "Online" then 0 else 1, CodeOr999(r.statusCode))
  }

  /** The `/check` ordering: sites that are not 'Online' come first, then by
      status code, equal keys in arrival order. */
  function SortCheckResults(rs: seq<CheckResult>): (s: seq<CheckResult>)
    ensures multiset(s) == multiset(rs)
    ensures forall i, j :: 0 <= i < j < |s| && s[i].statusMessage == "Online" ==> s[j].statusMessage == "Online"
    ensures forall i, j :: 0 <= i < j < |s| && (s[i].statusMessage == "Online" <==> s[j].statusMessage == "Online") ==>
      CodeOr999(s[i].statusCode) <= CodeOr999(s[j].statusCode)
    ensures forall k :: WithKey(s, CheckKey, k) == WithKey(rs, CheckKey, k)
  {
    StableSort(rs, CheckKey)
  }

  // ---------------------------------------------------------------------
  // The request

  datatype AuditRequest = AuditRequest(urls: seq<string>, useSitemap: bool, sitemapUrl: string, maxPages: PagesParam)

  datatype AuditOutcome =
    | Rejected(error: string)
    | Completed(results: seq<AuditRecord>, progress: seq<nat>, notes: seq<SitemapNote>)

  /** `seo_audit`: a request without URLs is rejected with a 400 message;
      otherwise the URLs (expanded through the sitemaps when asked, the
      entered ones when the expansion collected nothing) are audited in
      batches, annotated with the duplicate map (empty without sitemaps),
      and returned sorted stably from their arrival order, with one
      progress count per result. */
  method SeoAudit(req: AuditRequest, fetch: string -> FetchOutcome, cache: SiteCache,
                  audit: string -> AuditRecord, pick: nat -> nat)
    returns (outcome: AuditOutcome, ghost audited: seq<string>, ghost dupMap: map<string, string>,
             ghost arrived: seq<AuditRecord>)
    modifies cache
    ensures req.urls == [] <==> outcome.Rejected?
    ensures req.urls == [] && req.useSitemap ==> outcome == Rejected("Provide at least one URL to infer sitemap")
    ensures req.urls == [] && !req.useSitemap ==> outcome == Rejected("No URLs provided")
    ensures var expanded := Expanded(req.urls, PyStrip(req.sitemapUrl), ClampMaxPages(req.maxPages), fetch);
            audited == if req.useSitemap && expanded != [] then expanded else req.urls
    ensures !req.useSitemap ==> dupMap == map[]
    ensures req.useSitemap ==> MapsEquivalent(dupMap, CrawlKey, NormalizeUrl)
    ensures req.useSitemap && Expanded(req.urls, PyStrip(req.sitemapUrl), ClampMaxPages(req.maxPages), fetch) != [] ==>
      forall i, j :: 0 <= i < j < |audited| && CrawlKey(audited[i]) == CrawlKey(audited[j]) ==> audited[j] in dupMap
    ensures outcome.Completed? ==>
      var rs := outcome.results;
      |rs| == |outcome.progress| == |audited| > 0
      && (forall i :: 0 <= i < |outcome.progress| ==> outcome.progress[i] == i + 1)
      && multiset(arrived) == multiset(AuditAll(audited, dupMap, audit))
      && BlocksDone(arrived, audited, |Batches(audited)|, dupMap, audit)
      && rs == SortSeoResults(arrived)
      && (forall i, j :: 0 <= i < j < |rs| && rs[j].statusMessage == "OK" ==> rs[i].statusMessage == "OK")
      && (forall i, j :: 0 <= i < j < |rs| && (rs[i].statusMessage == "OK" <==> rs[j].statusMessage == "OK") ==>
            CodeOr999(rs[i].statusCode) <= CodeOr999(rs[j].statusCode))
  {
    var maxPages := ClampMaxPages(req.maxPages);
    var sitemapUrl := PyStrip(req.sitemapUrl);
    audited, dupMap, arrived := req.urls, map[], [];
    if req.urls == [] {
      if req.useSitemap {
        return Rejected("Provide at least one URL to infer sitemap"), audited, dupMap, arrived;
      }
      return Rejected("No URLs provided"), audited, dupMap, arrived;
    }
    var urls := req.urls;
    var dupMap': map<string, string> := map[];
    var notes: seq<SitemapNote> := [];
    if req.useSitemap {
      var fromSitemaps;
      urls, dupMap', notes, fromSitemaps := ExpandSitemaps(req.urls, sitemapUrl, maxPages, fetch, cache);
    }
    audited, dupMap := urls, dupMap';
    var results, progress := RunBatches(urls, dupMap', audit, pick);
    arrived := results;
    outcome := Completed(SortSeoResults(results), progress, notes);
  }
}
