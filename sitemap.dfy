/** The sitemap crawler `fetch_sitemap_urls`: a breadth-first walk over
    sitemap indexes (Sitemaps protocol 0.9) that collects page URLs from
    `urlset` documents, reports duplicates by normalised form, and keeps one
    diagnostic record per fetched document. Fetching and XML parsing are an
    oracle from URL to outcome. */
module Sitemap {
  import opened Strings
  import opened Urls

  /** A parsed XML element: its (namespace-qualified) tag, text and children. */
  datatype XmlElement = XmlElement(tag: string, text: Option<string>, children: seq<XmlElement>)

  /** What fetching and parsing one sitemap URL gave: a request exception, or
      a response with its status and, if the body parsed (directly or after
      gunzip), the root element. */
  datatype FetchOutcome = ConnectionError | Response(status: int, root: Option<XmlElement>)

  datatype DebugStatus = ConnectionFailed | HttpStatus(code: int)

  /** One entry of `debug_info`; `added` is absent on the error entries. */
  datatype DebugEntry = DebugEntry(url: string, depth: int, status: DebugStatus, parsed: bool,
                                   kind: string, found: nat, added: Option<nat>)

  datatype Duplicate = Duplicate(url: string, duplicateOf: string, source: string)

  datatype Skip = Skip(url: string, source: string, reason: string)

  /** The crawl's page list and duplicate bookkeeping (`collected`,
      `first_seen_norm`, `duplicates`, `skipped_samples`). */
  datatype CrawlState = CrawlState(collected: seq<string>, firstSeen: map<string, string>,
                                   duplicates: seq<Duplicate>, skipped: seq<Skip>)

  const MaxSkippedSamples: nat := 50

  // ---------------------------------------------------------------------------
  // Reading <loc> entries

  /** The first child whose tag ends with `suffix`. */
  function FirstChildTagged(children: seq<XmlElement>, suffix: string): (r: Option<XmlElement>)
    ensures r.Some? ==> exists i :: 0 <= i < |children| && children[i] == r.value
                                    && EndsWith(r.value.tag, suffix)
                                    && forall j :: 0 <= j < i ==> !EndsWith(children[j].tag, suffix)
    ensures r.None? ==> forall i :: 0 <= i < |children| ==> !EndsWith(children[i].tag, suffix)
  {
    if |children| == 0 then None
    else if EndsWith(children[0].tag, suffix) then
      assert children[0] == children[0];
      Some(children[0])
    else
      var r := FirstChildTagged(children[1..], suffix);
      if r.Some? then
        var i :| 0 <= i < |children[1..]| && children[1..][i] == r.value
                 && EndsWith(r.value.tag, suffix)
                 && forall j :: 0 <= j < i ==> !EndsWith(children[1..][j].tag, suffix);
        assert children[i + 1] == r.value;
        r
      else r
  }

  /** The stripped text of an entry's first `<loc>`, when that text is non-empty. */
  function LocText(entry: XmlElement): (r: Option<string>)
    ensures r.Some? ==> TrimmedBy(r.value, PyIsSpace)
  {
    match FirstChildTagged(entry.children, "loc")
    case None => None
    case Some(loc) =>
      if loc.text.None? || loc.text.value == "" then None
      else
        PyStripTrimmed(loc.text.value);
        Some(PyStrip(loc.text.value))
  }

  predicate IsHttpUrl(t: string) {
    StartsWith(t, "http://") || StartsWith(t, "https://")
  }

  /** The page URL a `<url>` entry contributes, if any. */
  function PageUrl(child: XmlElement): Option<string> {
    if !EndsWith(child.tag, "url") then None
    else match LocText(child)
      case None => None
      case Some(t) => if IsHttpUrl(t) then Some(t) else None
  }

  /** All page URLs of a `urlset`, in document order, before any cap. */
  function UrlsetCandidates(children: seq<XmlElement>): (r: seq<string>)
    ensures |r| <= |children|
    ensures forall i :: 0 <= i < |r| ==> IsHttpUrl(r[i]) && TrimmedBy(r[i], PyIsSpace)
  {
    if |children| == 0 then []
    else
      var last := children[|children| - 1];
      UrlsetCandidates(children[..|children| - 1]) + (if PageUrl(last).Some? then [PageUrl(last).value] else [])
  }

  lemma {:induction false} UrlsetCandidatesPrefix(children: seq<XmlElement>, k: nat)
    requires k <= |children|
    ensures var c := UrlsetCandidates(children[..k]);
            |c| <= |UrlsetCandidates(children)| && c == UrlsetCandidates(children)[..|c|]
    decreases |children| - k
  {
    if k < |children| {
      UrlsetCandidatesPrefix(children, k + 1);
      UrlsetCandidatesSnoc(children, k);
      var c, c' := UrlsetCandidates(children[..k]), UrlsetCandidates(children[..k + 1]);
      assert c == c'[..|c|];
    } else {
      assert children[..k] == children;
    }
  }

  lemma UrlsetCandidatesSnoc(children: seq<XmlElement>, i: nat)
    requires i < |children|
    ensures UrlsetCandidates(children[..i + 1])
            == UrlsetCandidates(children[..i]) + (if PageUrl(children[i]).Some? then [PageUrl(children[i]).value] else [])
  {
    assert children[..i + 1][..i] == children[..i];
  }

  /** `_extract_urlset_urls`: the page URLs in order, stopping as soon as
      `remaining` have been taken (at least one is taken even when
      `remaining <= 0`). */
  method ExtractUrlsetUrls(root: XmlElement, remaining: int) returns (urls: seq<string>)
    ensures urls == UrlsetTake(root.children, remaining)
  {
    var children := root.children;
    var cap := if remaining < 1 then 1 else remaining;
    urls := [];
    var i := 0;
    while i < |children|
      invariant 0 <= i <= |children|
      invariant urls == UrlsetCandidates(children[..i])
      invariant |urls| < cap
    {
      UrlsetCandidatesSnoc(children, i);
      var page := PageUrl(children[i]);
      if page.Some? {
        urls := urls + [page.value];
        if |urls| >= remaining {
          CapTaken(children, i + 1, cap);
          return;
        }
      }
      i := i + 1;
    }
    CapTaken(children, i, cap);
  }

  /** The first candidates of a `urlset`: `remaining` of them (at least one),
      or all when there are fewer. */
  function UrlsetTake(children: seq<XmlElement>, remaining: int): seq<string> {
    var c := UrlsetCandidates(children);
    var cap := if remaining < 1 then 1 else remaining;
    c[..if |c| < cap then |c| else cap]
  }

  /** Once `cap` URLs are taken, or every child is read, the URLs taken are the
      first `cap` candidates. */
  lemma CapTaken(children: seq<XmlElement>, k: nat, cap: int)
    requires k <= |children| && cap >= 1
    requires var u := UrlsetCandidates(children[..k]);
             |u| == cap || (k == |children| && |u| < cap)
    ensures var c := UrlsetCandidates(children);
            UrlsetCandidates(children[..k]) == c[..if |c| < cap then |c| else cap]
  {
    UrlsetCandidatesPrefix(children, k);
    if k == |children| {
      assert children[..k] == children;
    }
  }

  /** The child sitemap URLs an index lists that were not yet fetched. */
  function SitemapChildUrls(children: seq<XmlElement>, seen: set<string>): (r: seq<string>)
    ensures |r| <= |children|
    ensures forall i :: 0 <= i < |r| ==> r[i] != "" && r[i] !in seen
  {
    if |children| == 0 then []
    else
      var last := children[|children| - 1];
      var loc := if EndsWith(last.tag, "sitemap") then LocText(last) else None;
      SitemapChildUrls(children[..|children| - 1], seen)
      + (if loc.Some? && loc.value != "" && loc.value !in seen then [loc.value] else [])
  }

  lemma SitemapChildSnoc(children: seq<XmlElement>, seen: set<string>, i: nat)
    requires i < |children|
    ensures var loc := if EndsWith(children[i].tag, "sitemap") then LocText(children[i]) else None;
      SitemapChildUrls(children[..i + 1], seen)
      == SitemapChildUrls(children[..i], seen)
         + (if loc.Some? && loc.value != "" && loc.value !in seen then [loc.value] else [])
  {
    assert children[..i + 1][..i] == children[..i];
  }

  /** The inner loop over a `sitemapindex`. The source also re-checks
      `len(collected) < max_urls`, which the crawl loop's guard already ensures. */
  method ChildSitemaps(root: XmlElement, seen: set<string>) returns (urls: seq<string>)
    ensures urls == SitemapChildUrls(root.children, seen)
  {
    var children := root.children;
    urls := [];
    var i := 0;
    while i < |children|
      invariant 0 <= i <= |children|
      invariant urls == SitemapChildUrls(children[..i], seen)
    {
      SitemapChildSnoc(children, seen, i);
      var child := children[i];
      var loc := if EndsWith(child.tag, "sitemap") then LocText(child) else None;
      if loc.Some? && loc.value != "" && loc.value !in seen {
        urls := urls + [loc.value];
      }
      i := i + 1;
    }
    assert children[..i] == children;
  }

  // ---------------------------------------------------------------------------
  // add_urls

  /** `record_skip`: at most fifty samples are kept. */
  function RecordSkip(skipped: seq<Skip>, url: string, source: string, reason: string): seq<Skip> {
    if |skipped| < MaxSkippedSamples then skipped + [Skip(url, source, reason)] else skipped
  }

  /** One iteration of `add_urls`; `norm` is the crawl's `normalize_url`.
      A normalised URL is never empty, so the source's `if not norm` is
      exactly the failure case. */
  function AddOne(st: CrawlState, u: string, source: string, norm: string -> Option<string>): (r: CrawlState)
    ensures r.collected == st.collected + [u]
    ensures |r.skipped| <= MaxSkippedSamples || r.skipped == st.skipped
  {
    match norm(u)
    case None =>
      st.(collected := st.collected + [u],
          skipped := RecordSkip(st.skipped, u, source, "normalize-failed"))
    case Some(n) =>
      if n in st.firstSeen then
        st.(collected := st.collected + [u],
            duplicates := st.duplicates + [Duplicate(u, st.firstSeen[n], source)])
      else
        st.(collected := st.collected + [u], firstSeen := st.firstSeen[n := u])
  }

  /** `add_urls` as a function: the new state and the number of URLs added. */
  function AddAll(st: CrawlState, us: seq<string>, source: string, maxUrls: int, norm: string -> Option<string>): (CrawlState, nat)
    decreases |us|
  {
    if |us| == 0 then (st, 0)
    else
      var s1 := AddOne(st, us[0], source, norm);
      if |s1.collected| >= maxUrls then (s1, 1)
      else
        var r := AddAll(s1, us[1..], source, maxUrls, norm);
        (r.0, r.1 + 1)
  }

  /** `add_urls`: appends URLs one by one and stops once `max_urls` are collected. */
  method AddUrls(st: CrawlState, us: seq<string>, source: string, maxUrls: int, norm: string -> Option<string>)
    returns (st': CrawlState, added: nat)
    ensures (st', added) == AddAll(st, us, source, maxUrls, norm)
  {
    st' := st;
    added := 0;
    var i := 0;
    while i < |us|
      invariant 0 <= i <= |us| && added == i
      invariant AddAll(st, us, source, maxUrls, norm) == (AddAll(st', us[i..], source, maxUrls, norm).0,
                                                    AddAll(st', us[i..], source, maxUrls, norm).1 + i)
    {
      assert us[i..][1..] == us[i + 1..];
      st' := AddOne(st', us[i], source, norm);
      added := added + 1;
      i := i + 1;
      if |st'.collected| >= maxUrls {
        return;
      }
    }
  }

  /** Every input URL up to the cap is appended, failures and duplicates
      included, and the cap stops the loop. */
  lemma {:induction false} AddAllCollected(st: CrawlState, us: seq<string>, source: string, maxUrls: int, norm: string -> Option<string>)
    ensures var r := AddAll(st, us, source, maxUrls, norm);
            r.1 <= |us| && r.0.collected == st.collected + us[..r.1]
            && (|us| > 0 ==> r.1 >= 1)
            && (r.1 < |us| ==> |r.0.collected| >= maxUrls)
            && (|st.collected| < maxUrls ==> |r.0.collected| <= maxUrls)
    decreases |us|
  {
    if |us| > 0 {
      var s1 := AddOne(st, us[0], source, norm);
      if |s1.collected| < maxUrls {
        AddAllCollected(s1, us[1..], source, maxUrls, norm);
        var r := AddAll(s1, us[1..], source, maxUrls, norm);
        assert us[..r.1 + 1] == [us[0]] + us[1..][..r.1];
      }
    }
  }

  /** At most fifty skip samples are ever kept. */
  lemma {:induction false} AddAllSkipBound(st: CrawlState, us: seq<string>, source: string, maxUrls: int, norm: string -> Option<string>)
    requires |st.skipped| <= MaxSkippedSamples
    ensures |AddAll(st, us, source, maxUrls, norm).0.skipped| <= MaxSkippedSamples
    decreases |us|
  {
    if |us| > 0 {
      AddAllSkipBound(AddOne(st, us[0], source, norm), us[1..], source, maxUrls, norm);
    }
  }

  /** The first collected URL whose normal form is `n`. */
  function FirstWithNorm(collected: seq<string>, n: string, norm: string -> Option<string>): (r: Option<string>)
    ensures r.Some? ==> r.value in collected && norm(r.value) == Some(n)
    ensures r.None? ==> forall i :: 0 <= i < |collected| ==> norm(collected[i]) != Some(n)
  {
    if |collected| == 0 then None
    else
      var prev := FirstWithNorm(collected[..|collected| - 1], n, norm);
      if prev.Some? then prev
      else if norm(collected[|collected| - 1]) == Some(n) then Some(collected[|collected| - 1])
      else
        assert forall i :: 0 <= i < |collected| - 1 ==> collected[i] == collected[..|collected| - 1][i];
        None
  }

  /** `first_seen_norm` maps each normal form to the first raw URL collected
      with it, and each reported duplicate names that first URL. */
  ghost predicate Valid(st: CrawlState, norm: string -> Option<string>) {
    (forall n :: n in st.firstSeen ==> FirstWithNorm(st.collected, n, norm) == Some(st.firstSeen[n]))
    && (forall n :: FirstWithNorm(st.collected, n, norm).Some? ==> n in st.firstSeen)
    && DuplicatesOfFirst(st.collected, st.duplicates, norm)
    && DupUrls(st.duplicates) == RepeatUrls(st.collected, norm)
  }

  /** The collected URLs, in order, whose normal form an earlier collected URL
      already had: exactly the ones that must be reported as duplicates. */
  function RepeatUrls(collected: seq<string>, norm: string -> Option<string>): seq<string> {
    if |collected| == 0 then []
    else
      var init, u := collected[..|collected| - 1], collected[|collected| - 1];
      RepeatUrls(init, norm) + (if norm(u).Some? && FirstWithNorm(init, norm(u).value, norm).Some? then [u] else [])
  }

  /** The `url` of each duplicate report, in report order. */
  function DupUrls(ds: seq<Duplicate>): (us: seq<string>)
    ensures |us| == |ds| && forall i :: 0 <= i < |ds| ==> us[i] == ds[i].url
  {
    seq(|ds|, i requires 0 <= i < |ds| => ds[i].url)
  }

  /** Each reported duplicate names the first collected URL of its normal form. */
  predicate DuplicatesOfFirst(collected: seq<string>, duplicates: seq<Duplicate>, norm: string -> Option<string>) {
    forall d :: d in duplicates ==>
      d.url in collected && norm(d.url).Some?
      && FirstWithNorm(collected, norm(d.url).value, norm) == Some(d.duplicateOf)
  }

  lemma FirstWithNormSnoc(collected: seq<string>, u: string, n: string, norm: string -> Option<string>)
    ensures FirstWithNorm(collected + [u], n, norm)
            == if FirstWithNorm(collected, n, norm).Some? then FirstWithNorm(collected, n, norm)
               else if norm(u) == Some(n) then Some(u) else None
  {
    assert (collected + [u])[..|collected + [u]| - 1] == collected;
  }

  /** Appending one URL keeps `first_seen_norm` exact. */
  lemma AddOneFirstSeen(st: CrawlState, u: string, source: string, norm: string -> Option<string>)
    requires Valid(st, norm)
    ensures var st' := AddOne(st, u, source, norm);
            (forall n :: n in st'.firstSeen ==> FirstWithNorm(st'.collected, n, norm) == Some(st'.firstSeen[n]))
            && (forall n :: FirstWithNorm(st'.collected, n, norm).Some? ==> n in st'.firstSeen)
  {
    forall n ensures FirstWithNorm(st.collected + [u], n, norm)
                     == if FirstWithNorm(st.collected, n, norm).Some? then FirstWithNorm(st.collected, n, norm)
                        else if norm(u) == Some(n) then Some(u) else None {
      FirstWithNormSnoc(st.collected, u, n, norm);
    }
  }

  /** Appending one URL keeps every duplicate report pointing at the first
      URL of its normal form. */
  lemma AddOneDuplicates(st: CrawlState, u: string, source: string, norm: string -> Option<string>)
    requires Valid(st, norm)
    ensures var st' := AddOne(st, u, source, norm);
            DuplicatesOfFirst(st'.collected, st'.duplicates, norm)
  {
    var st' := AddOne(st, u, source, norm);
    forall d | d in st'.duplicates
      ensures d.url in st'.collected && norm(d.url).Some?
              && FirstWithNorm(st'.collected, norm(d.url).value, norm) == Some(d.duplicateOf)
    {
      FirstWithNormSnoc(st.collected, u, norm(d.url).value, norm);
    }
  }

  /** Appending one URL reports it exactly when its normal form was seen. */
  lemma AddOneRepeats(st: CrawlState, u: string, source: string, norm: string -> Option<string>)
    requires Valid(st, norm)
    ensures var st' := AddOne(st, u, source, norm);
            DupUrls(st'.duplicates) == RepeatUrls(st'.collected, norm)
  {
    var st' := AddOne(st, u, source, norm);
    assert (st.collected + [u])[..|st.collected|] == st.collected;
    if norm(u).Some? && norm(u).value in st.firstSeen {
      assert DupUrls(st'.duplicates) == DupUrls(st.duplicates) + [u];
    }
  }

  lemma AddOneValid(st: CrawlState, u: string, source: string, norm: string -> Option<string>)
    requires Valid(st, norm)
    ensures Valid(AddOne(st, u, source, norm), norm)
  {
    AddOneFirstSeen(st, u, source, norm);
    AddOneDuplicates(st, u, source, norm);
    AddOneRepeats(st, u, source, norm);
  }

  lemma {:induction false} AddAllValid(st: CrawlState, us: seq<string>, source: string, maxUrls: int,
                                       norm: string -> Option<string>)
    requires Valid(st, norm)
    ensures Valid(AddAll(st, us, source, maxUrls, norm).0, norm)
    decreases |us|
  {
    if |us| > 0 {
      AddOneValid(st, us[0], source, norm);
      AddAllValid(AddOne(st, us[0], source, norm), us[1..], source, maxUrls, norm);
    }
  }

  /** A literal repeat of the first URL of a normal form is reported as a
      duplicate of that same string. */
  lemma RepeatMapsToItself(u: string, source: string, norm: string -> Option<string>)
    requires norm(u).Some?
    ensures var st := AddOne(AddOne(CrawlState([], map[], [], []), u, source, norm), u, source, norm);
            st.duplicates == [Duplicate(u, u, source)]
  {
  }

  // ---------------------------------------------------------------------------
  // The crawl

  /** The diagnostic entry agrees with what the fetch returned; a `urlset`
      entry adds every URL it found. */
  predicate EntryMatches(e: DebugEntry, outcome: FetchOutcome, maxDepth: int) {
    match outcome
    case ConnectionError =>
      e.status == ConnectionFailed && !e.parsed && e.kind == "error" && e.found == 0 && e.added.None?
    case Response(s, root) =>
      e.status == HttpStatus(s)
      && if s >= 400 then !e.parsed && e.kind == "error" && e.found == 0 && e.added.None?
         else if root.None? then !e.parsed && e.kind == "unparsed" && e.found == 0 && e.added.None?
         else
           e.parsed && e.added.Some?
           && if EndsWith(root.value.tag, "sitemapindex") then
                e.kind == "sitemapindex" && e.added == Some(0)
                && e.found <= |root.value.children| && (e.depth >= maxDepth ==> e.found == 0)
              else if EndsWith(root.value.tag, "urlset") then
                e.kind == "urlset" && e.added == Some(e.found) && e.found <= |UrlsetCandidates(root.value.children)|
              else e.kind == "unknown" && e.found == 0 && e.added == Some(0)
  }

  /** The page URLs a diagnostic entry accounts for: the first `found`
      candidates of a `urlset`, nothing for any other document. */
  function Contribution(e: DebugEntry, outcome: FetchOutcome): seq<string> {
    if e.kind == "urlset" && outcome.Response? && outcome.root.Some?
       && e.found <= |UrlsetCandidates(outcome.root.value.children)|
    then UrlsetCandidates(outcome.root.value.children)[..e.found]
    else []
  }

  /** The page URLs a diagnostic log accounts for, entry by entry. */
  function CollectedFrom(debug: seq<DebugEntry>, fetch: string -> FetchOutcome): seq<string> {
    if |debug| == 0 then []
    else CollectedFrom(debug[..|debug| - 1], fetch) + Contribution(debug[|debug| - 1], fetch(debug[|debug| - 1].url))
  }

  /** The sitemap URLs a diagnostic log records as fetched. */
  function Fetched(debug: seq<DebugEntry>): set<string> {
    if |debug| == 0 then {} else Fetched(debug[..|debug| - 1]) + {debug[|debug| - 1].url}
  }

  /** The child sitemaps an index entry enqueues given the URLs already
      fetched: only an index read below the depth limit enqueues any. */
  function IndexChildren(e: DebugEntry, outcome: FetchOutcome, seen: set<string>, maxDepth: int): seq<string> {
    if e.kind == "sitemapindex" && outcome.Response? && outcome.root.Some? && e.depth < maxDepth
    then SitemapChildUrls(outcome.root.value.children, seen)
    else []
  }

  /** Every child sitemap an index entry lists, fetched before or not. */
  function ListedChildren(e: DebugEntry, outcome: FetchOutcome, maxDepth: int): seq<string> {
    IndexChildren(e, outcome, {}, maxDepth)
  }

  /** The sitemap URLs waiting in the queue. */
  function QueueUrls(q: seq<(string, int)>): set<string> {
    if |q| == 0 then {} else {q[0].0} + QueueUrls(q[1..])
  }

  /** Handling one fetched document: its diagnostic entry, the child sitemaps
      to enqueue, and the crawl state after its URLs are added. */
  function VisitOutcome(url: string, depth: int, outcome: FetchOutcome, st: CrawlState, seen: set<string>,
                        maxUrls: int, maxDepth: int, norm: string -> Option<string>)
    : (DebugEntry, seq<string>, CrawlState)
  {
    match outcome
    case ConnectionError => (DebugEntry(url, depth, ConnectionFailed, false, "error", 0, None), [], st)
    case Response(status, root) =>
      if status >= 400 then (DebugEntry(url, depth, HttpStatus(status), false, "error", 0, None), [], st)
      else if root.None? then (DebugEntry(url, depth, HttpStatus(status), false, "unparsed", 0, None), [], st)
      else if EndsWith(root.value.tag, "sitemapindex") then
        var kids := if depth < maxDepth then SitemapChildUrls(root.value.children, seen) else [];
        (DebugEntry(url, depth, HttpStatus(status), true, "sitemapindex", |kids|, Some(0)), kids, st)
      else if EndsWith(root.value.tag, "urlset") then
        var newUrls := UrlsetTake(root.value.children, maxUrls - |st.collected|);
        var r := AddAll(st, newUrls, url, maxUrls, norm);
        (DebugEntry(url, depth, HttpStatus(status), true, "urlset", |newUrls|, Some(r.1)), [], r.0)
      else (DebugEntry(url, depth, HttpStatus(status), true, "unknown", 0, Some(0)), [], st)
  }

  /** Handling one document logs an entry for `url` at `depth` that agrees
      with the fetch, and enqueues exactly the index's children not fetched
      yet. */
  lemma VisitEntry(url: string, depth: int, outcome: FetchOutcome, st: CrawlState, seen: set<string>,
                   maxUrls: int, maxDepth: int, norm: string -> Option<string>)
    requires |st.collected| < maxUrls
    ensures var v := VisitOutcome(url, depth, outcome, st, seen, maxUrls, maxDepth, norm);
            v.0.url == url && v.0.depth == depth && EntryMatches(v.0, outcome, maxDepth)
            && v.1 == IndexChildren(v.0, outcome, seen, maxDepth)
  {
    if outcome.Response? && outcome.status < 400 && outcome.root.Some?
       && !EndsWith(outcome.root.value.tag, "sitemapindex") && EndsWith(outcome.root.value.tag, "urlset") {
      UrlsetAdded(outcome.root.value.children, st, url, maxUrls, norm);
    }
  }

  /** Handling one document appends exactly the URLs its entry accounts for,
      and stays within the cap. */
  lemma VisitCollected(url: string, depth: int, outcome: FetchOutcome, st: CrawlState, seen: set<string>,
                       maxUrls: int, maxDepth: int, norm: string -> Option<string>)
    requires |st.collected| < maxUrls
    ensures var v := VisitOutcome(url, depth, outcome, st, seen, maxUrls, maxDepth, norm);
            v.2.collected == st.collected + Contribution(v.0, outcome) && |v.2.collected| <= maxUrls
  {
    var v := VisitOutcome(url, depth, outcome, st, seen, maxUrls, maxDepth, norm);
    if outcome.Response? && outcome.status < 400 && outcome.root.Some?
       && !EndsWith(outcome.root.value.tag, "sitemapindex") && EndsWith(outcome.root.value.tag, "urlset") {
      var children := outcome.root.value.children;
      UrlsetAdded(children, st, url, maxUrls, norm);
      assert v.0.kind == "urlset" && v.0.found == |UrlsetTake(children, maxUrls - |st.collected|)|;
      assert v.2.collected == st.collected + UrlsetTake(children, maxUrls - |st.collected|);
    } else {
      assert v.2 == st && v.0.kind != "urlset";
    }
  }

  /** Handling one document keeps the duplicate bookkeeping exact and the
      skip samples bounded. */
  lemma VisitValid(url: string, depth: int, outcome: FetchOutcome, st: CrawlState, seen: set<string>,
                   maxUrls: int, maxDepth: int, norm: string -> Option<string>)
    requires Valid(st, norm) && |st.skipped| <= MaxSkippedSamples
    ensures var v := VisitOutcome(url, depth, outcome, st, seen, maxUrls, maxDepth, norm);
            Valid(v.2, norm) && |v.2.skipped| <= MaxSkippedSamples
  {
    if outcome.Response? && outcome.status < 400 && outcome.root.Some?
       && !EndsWith(outcome.root.value.tag, "sitemapindex") && EndsWith(outcome.root.value.tag, "urlset") {
      var newUrls := UrlsetTake(outcome.root.value.children, maxUrls - |st.collected|);
      AddAllValid(st, newUrls, url, maxUrls, norm);
      AddAllSkipBound(st, newUrls, url, maxUrls, norm);
    }
  }

  /** Below the cap, a `urlset` adds every URL it takes, and these are its
      first candidates. */
  lemma UrlsetAdded(children: seq<XmlElement>, st: CrawlState, source: string, maxUrls: int,
                    norm: string -> Option<string>)
    requires |st.collected| < maxUrls
    ensures var newUrls := UrlsetTake(children, maxUrls - |st.collected|);
            var r := AddAll(st, newUrls, source, maxUrls, norm);
            r.1 == |newUrls| && r.0.collected == st.collected + newUrls && |r.0.collected| <= maxUrls
            && |newUrls| <= |UrlsetCandidates(children)| && newUrls == UrlsetCandidates(children)[..|newUrls|]
  {
    var newUrls := UrlsetTake(children, maxUrls - |st.collected|);
    AddAllCollected(st, newUrls, source, maxUrls, norm);
    var r := AddAll(st, newUrls, source, maxUrls, norm);
    assert r.1 == |newUrls| && newUrls[..r.1] == newUrls;
  }

  /** `fetch_sitemap_urls` handling one fetched document. */
  method Visit(url: string, depth: int, outcome: FetchOutcome, st: CrawlState, seen: set<string>,
               maxUrls: int, maxDepth: int, norm: string -> Option<string>)
    returns (entry: DebugEntry, kids: seq<string>, st': CrawlState)
    ensures (entry, kids, st') == VisitOutcome(url, depth, outcome, st, seen, maxUrls, maxDepth, norm)
  {
    kids := [];
    st' := st;
    match outcome
    case ConnectionError =>
      entry := DebugEntry(url, depth, ConnectionFailed, false, "error", 0, None);
    case Response(status, root) =>
      if status >= 400 {
        entry := DebugEntry(url, depth, HttpStatus(status), false, "error", 0, None);
      } else if root.None? {
        entry := DebugEntry(url, depth, HttpStatus(status), false, "unparsed", 0, None);
      } else if EndsWith(root.value.tag, "sitemapindex") {
        if depth < maxDepth {
          kids := ChildSitemaps(root.value, seen);
        }
        entry := DebugEntry(url, depth, HttpStatus(status), true, "sitemapindex", |kids|, Some(0));
      } else if EndsWith(root.value.tag, "urlset") {
        var newUrls := ExtractUrlsetUrls(root.value, maxUrls - |st.collected|);
        var added;
        st', added := AddUrls(st, newUrls, url, maxUrls, norm);
        entry := DebugEntry(url, depth, HttpStatus(status), true, "urlset", |newUrls|, Some(added));
      } else {
        entry := DebugEntry(url, depth, HttpStatus(status), true, "unknown", 0, Some(0));
      }
  }

  /** Number of queue items at depth `d`. */
  function CountAt(q: seq<(string, int)>, d: int): nat {
    if |q| == 0 then 0 else (if q[0].1 == d then 1 else 0) + CountAt(q[1..], d)
  }

  lemma {:induction false} CountAtAppend(a: seq<(string, int)>, b: seq<(string, int)>, d: int)
    requires forall i :: 0 <= i < |b| ==> b[i].1 != d
    ensures CountAt(a + b, d) == CountAt(a, d)
    decreases |a| + |b|
  {
    if |a| > 0 {
      assert (a + b)[1..] == a[1..] + b;
      CountAtAppend(a[1..], b, d);
    } else if |b| > 0 {
      assert a + b == b;
      CountAtAppend(a, b[1..], d);
      assert b[1..] == a + b[1..];
    }
  }

  /** Depths in the queue never decrease and span at most two levels, all
      within `[0, bound]`. */
  predicate Layered(q: seq<(string, int)>, bound: int) {
    (forall i :: 0 <= i < |q| ==> 0 <= q[i].1 <= bound && q[i].1 <= q[0].1 + 1)
    && (forall i, j :: 0 <= i < j < |q| ==> q[i].1 <= q[j].1)
  }

  function Rank(q: seq<(string, int)>, bound: int): int {
    if |q| == 0 then 0 else bound + 1 - q[0].1
  }

  function HeadCount(q: seq<(string, int)>): nat {
    if |q| == 0 then 0 else CountAt(q, q[0].1)
  }

  function Enqueue(kids: seq<string>, depth: int): (r: seq<(string, int)>)
    ensures |r| == |kids| && forall i :: 0 <= i < |r| ==> r[i] == (kids[i], depth)
  {
    seq(|kids|, i requires 0 <= i < |kids| => (kids[i], depth))
  }

  /** Popping the head and appending children one level deeper keeps the
      queue layered and lowers the crawl measure. */
  lemma PopPush(q: seq<(string, int)>, kids: seq<string>, bound: int, maxDepth: int)
    requires |q| > 0 && Layered(q, bound) && bound == (if maxDepth < 0 then 0 else maxDepth)
    requires |kids| > 0 ==> q[0].1 < maxDepth
    ensures var q' := q[1..] + Enqueue(kids, q[0].1 + 1);
            Layered(q', bound)
            && (Rank(q', bound) < Rank(q, bound)
                || (Rank(q', bound) == Rank(q, bound) && HeadCount(q') < HeadCount(q)))
  {
    var d := q[0].1;
    var k := Enqueue(kids, d + 1);
    var q' := q[1..] + k;
    if |q'| > 0 && q'[0].1 == d {
      assert |q| > 1 && q'[0] == q[1];
      CountAtAppend(q[1..], k, d);
      assert CountAt(q, d) == 1 + CountAt(q[1..], d);
    }
  }

  lemma {:induction false} QueueUrlsAppend(a: seq<(string, int)>, b: seq<(string, int)>)
    ensures QueueUrls(a + b) == QueueUrls(a) + QueueUrls(b)
    decreases |a|
  {
    if |a| > 0 {
      assert (a + b)[1..] == a[1..] + b;
      QueueUrlsAppend(a[1..], b);
    } else {
      assert a + b == b;
    }
  }

  lemma {:induction false} QueueUrlsHas(q: seq<(string, int)>, i: nat)
    requires i < |q|
    ensures q[i].0 in QueueUrls(q)
    decreases i
  {
    if i > 0 {
      QueueUrlsHas(q[1..], i - 1);
    }
  }

  /** A child an index lists is either already fetched or among the children
      enqueued given the fetched set. */
  lemma {:induction false} ListedChildSeen(children: seq<XmlElement>, seen: set<string>, k: string)
    requires k in SitemapChildUrls(children, {})
    ensures k in seen || k in SitemapChildUrls(children, seen)
    decreases |children|
  {
    var init := children[..|children| - 1];
    if k in SitemapChildUrls(init, {}) {
      ListedChildSeen(init, seen, k);
    }
  }

  /** The diagnostic log so far: one entry per fetched URL, none fetched
      twice, each agreeing with the fetch outcome. */
  ghost predicate DebugLog(debug: seq<DebugEntry>, fetch: string -> FetchOutcome, maxDepth: int) {
    (forall i, j :: 0 <= i < j < |debug| ==> debug[i].url != debug[j].url)
    && (forall i :: 0 <= i < |debug| ==>
          0 <= debug[i].depth <= maxDepth && EntryMatches(debug[i], fetch(debug[i].url), maxDepth))
  }

  /** Every child sitemap a logged index listed is fetched or still queued. */
  ghost predicate Covered(queue: seq<(string, int)>, debug: seq<DebugEntry>, fetch: string -> FetchOutcome, maxDepth: int) {
    forall i, k {:trigger k in ListedChildren(debug[i], fetch(debug[i].url), maxDepth)} ::
      0 <= i < |debug| && k in ListedChildren(debug[i], fetch(debug[i].url), maxDepth) ==>
        k in Fetched(debug) || k in QueueUrls(queue)
  }

  lemma {:induction false} FetchedHas(debug: seq<DebugEntry>, i: nat)
    requires i < |debug|
    ensures debug[i].url in Fetched(debug)
    decreases |debug|
  {
    if i < |debug| - 1 {
      FetchedHas(debug[..|debug| - 1], i);
    }
  }

  lemma {:induction false} FetchedOnly(debug: seq<DebugEntry>, u: string)
    requires u in Fetched(debug)
    ensures exists i :: 0 <= i < |debug| && debug[i].url == u
    decreases |debug|
  {
    var init := debug[..|debug| - 1];
    if u in Fetched(init) {
      FetchedOnly(init, u);
      var i :| 0 <= i < |init| && init[i].url == u;
      assert debug[i] == init[i];
    }
  }

  lemma DebugLogSnoc(debug: seq<DebugEntry>, entry: DebugEntry, fetch: string -> FetchOutcome, maxDepth: int)
    requires DebugLog(debug, fetch, maxDepth) && entry.url !in Fetched(debug)
    requires 0 <= entry.depth <= maxDepth && EntryMatches(entry, fetch(entry.url), maxDepth)
    ensures DebugLog(debug + [entry], fetch, maxDepth)
  {
    forall i | 0 <= i < |debug| ensures debug[i].url != entry.url {
      FetchedHas(debug, i);
    }
  }

  /** Some entry of `log` lists `u` as a child sitemap, and `d` is one
      level below that entry's depth. */
  ghost predicate ListedBy(u: string, d: int, log: seq<DebugEntry>, fetch: string -> FetchOutcome, maxDepth: int) {
    exists j :: 0 <= j < |log| && d == log[j].depth + 1 && u in ListedChildren(log[j], fetch(log[j].url), maxDepth)
  }

  /** Every queued sitemap is the start URL at depth 0 or a child listed by
      a logged index, one level deeper. */
  ghost predicate QueueOrigins(queue: seq<(string, int)>, debug: seq<DebugEntry>, sitemapUrl: string,
                               fetch: string -> FetchOutcome, maxDepth: int) {
    forall i :: 0 <= i < |queue| ==>
      queue[i] == (sitemapUrl, 0) || ListedBy(queue[i].0, queue[i].1, debug, fetch, maxDepth)
  }

  /** Every fetched sitemap is the start URL at depth 0 or a child listed by
      an index logged before it, one level deeper. */
  ghost predicate LogOrigins(debug: seq<DebugEntry>, sitemapUrl: string, fetch: string -> FetchOutcome, maxDepth: int) {
    forall i :: 0 <= i < |debug| ==>
      (debug[i].url == sitemapUrl && debug[i].depth == 0)
      || ListedBy(debug[i].url, debug[i].depth, debug[..i], fetch, maxDepth)
  }

  lemma ListedByLonger(u: string, d: int, log: seq<DebugEntry>, entry: DebugEntry,
                       fetch: string -> FetchOutcome, maxDepth: int)
    requires ListedBy(u, d, log, fetch, maxDepth)
    ensures ListedBy(u, d, log + [entry], fetch, maxDepth)
  {
    var j :| 0 <= j < |log| && d == log[j].depth + 1 && u in ListedChildren(log[j], fetch(log[j].url), maxDepth);
    assert (log + [entry])[j] == log[j];
  }

  /** A child not fetched yet is in particular a listed child. */
  lemma {:induction false} ChildListed(children: seq<XmlElement>, seen: set<string>, k: string)
    requires k in SitemapChildUrls(children, seen)
    ensures k in SitemapChildUrls(children, {})
    decreases |children|
  {
    var init := children[..|children| - 1];
    if k in SitemapChildUrls(init, seen) {
      ChildListed(init, seen, k);
    }
  }

  /** Dropping the head of the queue keeps the origins of the rest. */
  lemma SkipKeepsOrigins(queue: seq<(string, int)>, debug: seq<DebugEntry>, sitemapUrl: string,
                         fetch: string -> FetchOutcome, maxDepth: int)
    requires |queue| > 0 && QueueOrigins(queue, debug, sitemapUrl, fetch, maxDepth)
    ensures QueueOrigins(queue[1..], debug, sitemapUrl, fetch, maxDepth)
  {
    forall i | 0 <= i < |queue| - 1
      ensures queue[1..][i] == (sitemapUrl, 0) || ListedBy(queue[1..][i].0, queue[1..][i].1, debug, fetch, maxDepth)
    {
      assert queue[1..][i] == queue[i + 1];
    }
  }

  /** Fetching the head of the queue logs a URL of known origin and
      enqueues only children the new entry lists, one level deeper. */
  lemma VisitKeepsOrigins(queue: seq<(string, int)>, debug: seq<DebugEntry>, entry: DebugEntry, kids: seq<string>,
                          seen': set<string>, sitemapUrl: string, fetch: string -> FetchOutcome, maxDepth: int)
    requires |queue| > 0 && QueueOrigins(queue, debug, sitemapUrl, fetch, maxDepth)
    requires LogOrigins(debug, sitemapUrl, fetch, maxDepth)
    requires entry.url == queue[0].0 && entry.depth == queue[0].1
    requires kids == IndexChildren(entry, fetch(entry.url), seen', maxDepth)
    ensures QueueOrigins(queue[1..] + Enqueue(kids, queue[0].1 + 1), debug + [entry], sitemapUrl, fetch, maxDepth)
    ensures LogOrigins(debug + [entry], sitemapUrl, fetch, maxDepth)
  {
    var debug', q' := debug + [entry], queue[1..] + Enqueue(kids, queue[0].1 + 1);
    forall i | 0 <= i < |q'|
      ensures q'[i] == (sitemapUrl, 0) || ListedBy(q'[i].0, q'[i].1, debug', fetch, maxDepth)
    {
      if i < |queue| - 1 {
        assert q'[i] == queue[i + 1];
        if q'[i] != (sitemapUrl, 0) {
          ListedByLonger(q'[i].0, q'[i].1, debug, entry, fetch, maxDepth);
        }
      } else {
        var k := i - (|queue| - 1);
        assert q'[i] == (kids[k], queue[0].1 + 1);
        ChildListed(fetch(entry.url).root.value.children, seen', kids[k]);
        assert debug'[|debug|] == entry;
      }
    }
    forall i | 0 <= i < |debug'|
      ensures (debug'[i].url == sitemapUrl && debug'[i].depth == 0)
              || ListedBy(debug'[i].url, debug'[i].depth, debug'[..i], fetch, maxDepth)
    {
      if i < |debug| {
        assert debug'[..i] == debug[..i] && debug'[i] == debug[i];
      } else {
        assert debug'[..i] == debug && debug'[i] == entry;
      }
    }
  }

  /** In a log of distinct URLs that starts with the start URL, every later
      entry was listed by an earlier index. */
  lemma LaterListed(debug: seq<DebugEntry>, sitemapUrl: string, fetch: string -> FetchOutcome, maxDepth: int)
    requires LogOrigins(debug, sitemapUrl, fetch, maxDepth)
    requires forall i, j :: 0 <= i < j < |debug| ==> debug[i].url != debug[j].url
    ensures |debug| >= 1 ==> debug[0].url == sitemapUrl && debug[0].depth == 0
    ensures forall i :: 0 < i < |debug| ==> ListedBy(debug[i].url, debug[i].depth, debug[..i], fetch, maxDepth)
  {
    if |debug| >= 1 {
      assert !ListedBy(debug[0].url, debug[0].depth, debug[..0], fetch, maxDepth);
    }
  }

  /** Python's `s[:n]`. */
  function PySliceTo<T>(s: seq<T>, n: int): seq<T> {
    if n >= 0 then (if n <= |s| then s[..n] else s)
    else if -n <= |s| then s[..|s| + n] else []
  }

  /** What the crawl loop keeps true between iterations. */
  ghost predicate CrawlInv(queue: seq<(string, int)>, seen: set<string>, debug: seq<DebugEntry>, st: CrawlState,
                           sitemapUrl: string, maxUrls: int, maxDepth: int,
                           fetch: string -> FetchOutcome, norm: string -> Option<string>)
  {
    Layered(queue, if maxDepth < 0 then 0 else maxDepth)
    && |st.collected| <= (if maxUrls < 0 then 0 else maxUrls)
    && st.collected == CollectedFrom(debug, fetch)
    && seen == Fetched(debug)
    && DebugLog(debug, fetch, maxDepth)
    && Covered(queue, debug, fetch, maxDepth)
    && (maxUrls >= 1 && maxDepth >= 0 ==>
          (|debug| == 0 ==> queue == [(sitemapUrl, 0)])
          && (|debug| >= 1 ==> debug[0].url == sitemapUrl && debug[0].depth == 0))
    && Valid(st, norm) && |st.skipped| <= MaxSkippedSamples
    && QueueOrigins(queue, debug, sitemapUrl, fetch, maxDepth)
    && LogOrigins(debug, sitemapUrl, fetch, maxDepth)
  }

  /** Skipping the head of the queue keeps the crawl invariant and lowers the measure. */
  lemma SkipKeepsInv(queue: seq<(string, int)>, seen: set<string>, debug: seq<DebugEntry>, st: CrawlState,
                     sitemapUrl: string, maxUrls: int, maxDepth: int,
                     fetch: string -> FetchOutcome, norm: string -> Option<string>)
    requires |queue| > 0 && (queue[0].0 in seen || queue[0].1 > maxDepth)
    requires CrawlInv(queue, seen, debug, st, sitemapUrl, maxUrls, maxDepth, fetch, norm)
    ensures CrawlInv(queue[1..], seen, debug, st, sitemapUrl, maxUrls, maxDepth, fetch, norm)
    ensures var bound := if maxDepth < 0 then 0 else maxDepth;
            Rank(queue[1..], bound) < Rank(queue, bound)
            || (Rank(queue[1..], bound) == Rank(queue, bound) && HeadCount(queue[1..]) < HeadCount(queue))
  {
    var bound := if maxDepth < 0 then 0 else maxDepth;
    PopPush(queue, [], bound, maxDepth);
    assert queue[1..] + Enqueue([], queue[0].1 + 1) == queue[1..];
    if |debug| > 0 {
      assert 0 <= debug[0].depth <= maxDepth;
    }
    SkipKeepsCover(queue, debug, fetch, maxDepth);
    SkipKeepsOrigins(queue, debug, sitemapUrl, fetch, maxDepth);
  }

  /** Dropping a fetched head, or any head while nothing is logged, keeps
      every listed child fetched or queued. */
  lemma SkipKeepsCover(queue: seq<(string, int)>, debug: seq<DebugEntry>, fetch: string -> FetchOutcome, maxDepth: int)
    requires |queue| > 0 && Covered(queue, debug, fetch, maxDepth)
    requires |debug| > 0 ==> queue[0].0 in Fetched(debug)
    ensures Covered(queue[1..], debug, fetch, maxDepth)
  {
    forall i, k | 0 <= i < |debug| && k in ListedChildren(debug[i], fetch(debug[i].url), maxDepth)
      ensures k in Fetched(debug) || k in QueueUrls(queue[1..])
    {
      assert k in Fetched(debug) || k in QueueUrls(queue);
    }
  }

  /** Fetching the head of the queue keeps every listed child fetched or queued. */
  lemma VisitKeepsCover(queue: seq<(string, int)>, debug: seq<DebugEntry>, entry: DebugEntry, kids: seq<string>,
                        fetch: string -> FetchOutcome, maxDepth: int)
    requires |queue| > 0 && Covered(queue, debug, fetch, maxDepth) && entry.url == queue[0].0
    requires kids == IndexChildren(entry, fetch(entry.url), Fetched(debug) + {entry.url}, maxDepth)
    ensures Covered(queue[1..] + Enqueue(kids, queue[0].1 + 1), debug + [entry], fetch, maxDepth)
  {
    var debug', q' := debug + [entry], queue[1..] + Enqueue(kids, queue[0].1 + 1);
    var seen' := Fetched(debug) + {entry.url};
    assert debug'[..|debug|] == debug;
    assert Fetched(debug') == seen';
    OldChildrenCovered(queue, debug, entry, kids, fetch, maxDepth);
    forall k | k in ListedChildren(entry, fetch(entry.url), maxDepth)
      ensures k in seen' || k in QueueUrls(q')
    {
      NewChildCovered(queue, entry, kids, seen', fetch, maxDepth, k);
    }
  }

  /** A child listed by an earlier entry stays fetched or queued. */
  lemma OldChildrenCovered(queue: seq<(string, int)>, debug: seq<DebugEntry>, entry: DebugEntry, kids: seq<string>,
                           fetch: string -> FetchOutcome, maxDepth: int)
    requires |queue| > 0 && Covered(queue, debug, fetch, maxDepth) && entry.url == queue[0].0
    ensures forall i, k :: 0 <= i < |debug| && k in ListedChildren(debug[i], fetch(debug[i].url), maxDepth) ==>
              k in Fetched(debug) + {entry.url} || k in QueueUrls(queue[1..] + Enqueue(kids, queue[0].1 + 1))
  {
    var q' := queue[1..] + Enqueue(kids, queue[0].1 + 1);
    QueueUrlsAppend(queue[1..], Enqueue(kids, queue[0].1 + 1));
    forall i, k | 0 <= i < |debug| && k in ListedChildren(debug[i], fetch(debug[i].url), maxDepth)
      ensures k in Fetched(debug) + {entry.url} || k in QueueUrls(q')
    {
      assert k in Fetched(debug) || k in QueueUrls(queue);
    }
  }

  /** A child listed by the entry just logged is fetched or among those enqueued. */
  lemma NewChildCovered(queue: seq<(string, int)>, entry: DebugEntry, kids: seq<string>, seen': set<string>,
                        fetch: string -> FetchOutcome, maxDepth: int, k: string)
    requires |queue| > 0 && kids == IndexChildren(entry, fetch(entry.url), seen', maxDepth)
    requires k in ListedChildren(entry, fetch(entry.url), maxDepth)
    ensures k in seen' || k in QueueUrls(queue[1..] + Enqueue(kids, queue[0].1 + 1))
  {
    if k !in seen' {
      ListedChildSeen(fetch(entry.url).root.value.children, seen', k);
      var j :| 0 <= j < |kids| && kids[j] == k;
      QueueUrlsHas(Enqueue(kids, queue[0].1 + 1), j);
      QueueUrlsAppend(queue[1..], Enqueue(kids, queue[0].1 + 1));
    }
  }

  /** The crawl measure decreases from queue `q` to queue `q'`. */
  ghost predicate Progress(q: seq<(string, int)>, q': seq<(string, int)>, maxDepth: int) {
    var bound := if maxDepth < 0 then 0 else maxDepth;
    Rank(q', bound) < Rank(q, bound) || (Rank(q', bound) == Rank(q, bound) && HeadCount(q') < HeadCount(q))
  }

  /** Appending an entry to the diagnostic log adds its URL to the fetched
      ones and its contribution to the page URLs, and keeps the first entry. */
  lemma LogSnoc(debug: seq<DebugEntry>, entry: DebugEntry, fetch: string -> FetchOutcome)
    ensures Fetched(debug + [entry]) == Fetched(debug) + {entry.url}
    ensures CollectedFrom(debug + [entry], fetch) == CollectedFrom(debug, fetch) + Contribution(entry, fetch(entry.url))
    ensures (debug + [entry])[0] == if |debug| == 0 then entry else debug[0]
  {
    assert (debug + [entry])[..|debug|] == debug;
  }

  /** The variables of the crawl loop: `queue`, `seen_sitemaps`,
      `debug_info` and the page-list state. */
  datatype Loop = Loop(queue: seq<(string, int)>, seen: set<string>, debug: seq<DebugEntry>, st: CrawlState)

  /** The rest of the crawl loop from `queue`, `seen`, `debug` and `st`: pop
      the head of the queue, skip it if already fetched or too deep, otherwise
      fetch it, handle the document, enqueue its child sitemaps one level
      deeper and log the entry, until the queue is empty or the cap is
      reached; the variables the loop stops with. */
  ghost function CrawlFrom(queue: seq<(string, int)>, seen: set<string>, debug: seq<DebugEntry>, st: CrawlState,
                           maxUrls: int, maxDepth: int,
                           fetch: string -> FetchOutcome, norm: string -> Option<string>): (r: Loop)
    requires Layered(queue, if maxDepth < 0 then 0 else maxDepth)
    ensures |r.queue| == 0 || |r.st.collected| >= maxUrls
    decreases Rank(queue, if maxDepth < 0 then 0 else maxDepth), HeadCount(queue), 1
  {
    if |queue| == 0 || |st.collected| >= maxUrls then Loop(queue, seen, debug, st)
    else if queue[0].0 in seen || queue[0].1 > maxDepth then
      Pop(queue, maxDepth);
      CrawlFrom(queue[1..], seen, debug, st, maxUrls, maxDepth, fetch, norm)
    else
      CrawlVisit(queue, seen, debug, st, maxUrls, maxDepth, fetch, norm)
  }

  /** The rest of the crawl when the head of the queue is fetched: handle
      the document, enqueue its child sitemaps one level deeper, log the
      entry and carry on. */
  ghost function CrawlVisit(queue: seq<(string, int)>, seen: set<string>, debug: seq<DebugEntry>, st: CrawlState,
                            maxUrls: int, maxDepth: int,
                            fetch: string -> FetchOutcome, norm: string -> Option<string>): (r: Loop)
    requires |queue| > 0 && queue[0].1 <= maxDepth && Layered(queue, if maxDepth < 0 then 0 else maxDepth)
    ensures |r.queue| == 0 || |r.st.collected| >= maxUrls
    decreases Rank(queue, if maxDepth < 0 then 0 else maxDepth), HeadCount(queue), 0
  {
    var v := VisitOutcome(queue[0].0, queue[0].1, fetch(queue[0].0), st, seen + {queue[0].0},
                          maxUrls, maxDepth, norm);
    PopPush(queue, v.1, if maxDepth < 0 then 0 else maxDepth, maxDepth);
    CrawlFrom(queue[1..] + Enqueue(v.1, queue[0].1 + 1), seen + {queue[0].0}, debug + [v.0], v.2,
              maxUrls, maxDepth, fetch, norm)
  }

  /** Dropping the head of a layered queue keeps it layered and lowers the measure. */
  lemma Pop(queue: seq<(string, int)>, maxDepth: int)
    requires |queue| > 0 && Layered(queue, if maxDepth < 0 then 0 else maxDepth)
    ensures Layered(queue[1..], if maxDepth < 0 then 0 else maxDepth)
    ensures Progress(queue, queue[1..], maxDepth)
  {
    PopPush(queue, [], if maxDepth < 0 then 0 else maxDepth, maxDepth);
    assert queue[1..] + Enqueue([], queue[0].1 + 1) == queue[1..];
  }

  /** The crawl invariant holds when the crawl loop stops. */
  lemma {:induction false} CrawlFromInv(queue: seq<(string, int)>, seen: set<string>, debug: seq<DebugEntry>,
                                        st: CrawlState, sitemapUrl: string, maxUrls: int, maxDepth: int,
                                        fetch: string -> FetchOutcome, norm: string -> Option<string>)
    requires CrawlInv(queue, seen, debug, st, sitemapUrl, maxUrls, maxDepth, fetch, norm)
    ensures var r := CrawlFrom(queue, seen, debug, st, maxUrls, maxDepth, fetch, norm);
            CrawlInv(r.queue, r.seen, r.debug, r.st, sitemapUrl, maxUrls, maxDepth, fetch, norm)
    decreases Rank(queue, if maxDepth < 0 then 0 else maxDepth), HeadCount(queue), 1
  {
    if |queue| == 0 || |st.collected| >= maxUrls {
    } else if queue[0].0 in seen || queue[0].1 > maxDepth {
      SkipKeepsInv(queue, seen, debug, st, sitemapUrl, maxUrls, maxDepth, fetch, norm);
      CrawlFromInv(queue[1..], seen, debug, st, sitemapUrl, maxUrls, maxDepth, fetch, norm);
    } else {
      CrawlVisitInv(queue, seen, debug, st, sitemapUrl, maxUrls, maxDepth, fetch, norm);
    }
  }

  /** The crawl invariant survives fetching the head of the queue, and so
      holds when the crawl loop stops. */
  lemma {:induction false} CrawlVisitInv(queue: seq<(string, int)>, seen: set<string>, debug: seq<DebugEntry>,
                                         st: CrawlState, sitemapUrl: string, maxUrls: int, maxDepth: int,
                                         fetch: string -> FetchOutcome, norm: string -> Option<string>)
    requires |queue| > 0 && |st.collected| < maxUrls && queue[0].0 !in seen && queue[0].1 <= maxDepth
    requires CrawlInv(queue, seen, debug, st, sitemapUrl, maxUrls, maxDepth, fetch, norm)
    ensures var r := CrawlVisit(queue, seen, debug, st, maxUrls, maxDepth, fetch, norm);
            CrawlInv(r.queue, r.seen, r.debug, r.st, sitemapUrl, maxUrls, maxDepth, fetch, norm)
    decreases Rank(queue, if maxDepth < 0 then 0 else maxDepth), HeadCount(queue), 0
  {
    var v := VisitOutcome(queue[0].0, queue[0].1, fetch(queue[0].0), st, seen + {queue[0].0},
                          maxUrls, maxDepth, norm);
    VisitEntry(queue[0].0, queue[0].1, fetch(queue[0].0), st, seen + {queue[0].0}, maxUrls, maxDepth, norm);
    VisitCollected(queue[0].0, queue[0].1, fetch(queue[0].0), st, seen + {queue[0].0}, maxUrls, maxDepth, norm);
    VisitValid(queue[0].0, queue[0].1, fetch(queue[0].0), st, seen + {queue[0].0}, maxUrls, maxDepth, norm);
    DebugLogSnoc(debug, v.0, fetch, maxDepth);
    LogSnoc(debug, v.0, fetch);
    VisitKeepsCover(queue, debug, v.0, v.1, fetch, maxDepth);
    VisitKeepsOrigins(queue, debug, v.0, v.1, seen + {queue[0].0}, sitemapUrl, fetch, maxDepth);
    PopPush(queue, v.1, if maxDepth < 0 then 0 else maxDepth, maxDepth);
    CrawlFromInv(queue[1..] + Enqueue(v.1, queue[0].1 + 1), seen + {queue[0].0}, debug + [v.0], v.2,
                 sitemapUrl, maxUrls, maxDepth, fetch, norm);
  }

  /** `fetch_sitemap_urls(sitemap_url, max_urls, max_depth)` against the
      fetch oracle: the diagnostic log and the final crawl state. At most
      `max_urls` URLs are collected, exactly the URLs the logged `urlset`
      entries account for, in log order; each sitemap is fetched once, within
      the depth limit, the start URL first, and every later one is a child
      listed by an index fetched before it, one level deeper; at most 50 skips are sampled;
      exactly the URLs whose normal form was collected before are reported,
      each against the first URL of that form; and unless the cap stopped
      the crawl, every child sitemap an index listed below the depth limit
      was fetched. */
  ghost function Crawl(sitemapUrl: string, maxUrls: int, maxDepth: int, fetch: string -> FetchOutcome)
    : (seq<DebugEntry>, CrawlState)
  {
    var f := CrawlFrom([(sitemapUrl, 0)], {}, [], CrawlState([], map[], [], []),
                       maxUrls, maxDepth, fetch, NormalizeUrl);
    (f.debug, f.st)
  }

  /** The crawl starts from the invariant: only the start URL queued, at depth 0. */
  lemma CrawlStart(sitemapUrl: string, maxUrls: int, maxDepth: int, fetch: string -> FetchOutcome,
                   norm: string -> Option<string>)
    ensures CrawlInv([(sitemapUrl, 0)], {}, [], CrawlState([], map[], [], []), sitemapUrl, maxUrls, maxDepth, fetch, norm)
  {
  }

  /** What `Crawl` guarantees. */
  lemma CrawlSound(sitemapUrl: string, maxUrls: int, maxDepth: int, fetch: string -> FetchOutcome)
    ensures var (debug, st) := Crawl(sitemapUrl, maxUrls, maxDepth, fetch);
      |st.collected| <= (if maxUrls < 0 then 0 else maxUrls)
      && st.collected == CollectedFrom(debug, fetch)
      && (forall i, j :: 0 <= i < j < |debug| ==> debug[i].url != debug[j].url)
      && (forall i :: 0 <= i < |debug| ==>
            0 <= debug[i].depth <= maxDepth && EntryMatches(debug[i], fetch(debug[i].url), maxDepth))
      && (maxUrls >= 1 && maxDepth >= 0 ==> |debug| >= 1)
      && (|debug| >= 1 ==> debug[0].url == sitemapUrl && debug[0].depth == 0)
      && (forall i :: 0 < i < |debug| ==> ListedBy(debug[i].url, debug[i].depth, debug[..i], fetch, maxDepth))
      && |st.skipped| <= MaxSkippedSamples
      && DuplicatesOfFirst(st.collected, st.duplicates, NormalizeUrl)
      && DupUrls(st.duplicates) == RepeatUrls(st.collected, NormalizeUrl)
      && (|st.collected| < maxUrls ==>
            forall i, k :: 0 <= i < |debug| && k in ListedChildren(debug[i], fetch(debug[i].url), maxDepth) ==>
              k in Fetched(debug))
  {
    CrawlStart(sitemapUrl, maxUrls, maxDepth, fetch, NormalizeUrl);
    CrawlFromInv([(sitemapUrl, 0)], {}, [], CrawlState([], map[], [], []),
                 sitemapUrl, maxUrls, maxDepth, fetch, NormalizeUrl);
    var f := CrawlFrom([(sitemapUrl, 0)], {}, [], CrawlState([], map[], [], []),
                       maxUrls, maxDepth, fetch, NormalizeUrl);
    assert |f.st.collected| < maxUrls ==> QueueUrls(f.queue) == {};
    LaterListed(f.debug, sitemapUrl, fetch, maxDepth);
  }

  /** Each duplicate the crawl reports names the first collected URL of its
      normal form. */
  lemma CrawlDuplicates(sitemapUrl: string, maxUrls: int, maxDepth: int, fetch: string -> FetchOutcome)
    ensures var st := Crawl(sitemapUrl, maxUrls, maxDepth, fetch).1;
            DuplicatesOfFirst(st.collected, st.duplicates, NormalizeUrl)
  {
    CrawlSound(sitemapUrl, maxUrls, maxDepth, fetch);
  }

  /** One iteration of the crawl loop: pop the head of the queue; skip it if
      it was fetched before or lies below the depth limit, otherwise fetch it,
      handle the document, enqueue its child sitemaps one level deeper and log
      the entry. The crawl continues from the new variables. */
  method CrawlIteration(queue: seq<(string, int)>, seen: set<string>, debug: seq<DebugEntry>, st: CrawlState,
                        maxUrls: int, maxDepth: int,
                        fetch: string -> FetchOutcome, norm: string -> Option<string>)
    returns (queue': seq<(string, int)>, seen': set<string>, debug': seq<DebugEntry>, st': CrawlState)
    requires |queue| > 0 && |st.collected| < maxUrls && Layered(queue, if maxDepth < 0 then 0 else maxDepth)
    ensures Layered(queue', if maxDepth < 0 then 0 else maxDepth) && Progress(queue, queue', maxDepth)
    ensures CrawlFrom(queue, seen, debug, st, maxUrls, maxDepth, fetch, norm)
            == CrawlFrom(queue', seen', debug', st', maxUrls, maxDepth, fetch, norm)
  {
    if queue[0].0 in seen || queue[0].1 > maxDepth {
      Pop(queue, maxDepth);
      return queue[1..], seen, debug, st;
    }
    var entry, kids;
    entry, kids, st' := Visit(queue[0].0, queue[0].1, fetch(queue[0].0), st, seen + {queue[0].0},
                              maxUrls, maxDepth, norm);
    PopPush(queue, kids, if maxDepth < 0 then 0 else maxDepth, maxDepth);
    queue' := queue[1..] + Enqueue(kids, queue[0].1 + 1);
    seen' := seen + {queue[0].0};
    debug' := debug + [entry];
  }

  /** `fetch_sitemap_urls`: the page URLs, the diagnostic entries, the skip
      samples and the duplicate reports are those of `Crawl`. */
  method FetchSitemapUrls(sitemapUrl: string, maxUrls: int, maxDepth: int, fetch: string -> FetchOutcome)
    returns (result: seq<string>, debug: seq<DebugEntry>, skipped: seq<Skip>, duplicates: seq<Duplicate>)
    ensures var (d, st) := Crawl(sitemapUrl, maxUrls, maxDepth, fetch);
            result == st.collected && debug == d && skipped == st.skipped && duplicates == st.duplicates
  {
    var queue: seq<(string, int)> := [(sitemapUrl, 0)];
    var seen: set<string> := {};
    var st := CrawlState([], map[], [], []);
    debug := [];
    ghost var final := CrawlFrom(queue, seen, debug, st, maxUrls, maxDepth, fetch, NormalizeUrl);
    while |queue| > 0 && |st.collected| < maxUrls
      invariant Layered(queue, if maxDepth < 0 then 0 else maxDepth)
      invariant CrawlFrom(queue, seen, debug, st, maxUrls, maxDepth, fetch, NormalizeUrl) == final
      decreases Rank(queue, if maxDepth < 0 then 0 else maxDepth), HeadCount(queue)
    {
      queue, seen, debug, st := CrawlIteration(queue, seen, debug, st, maxUrls, maxDepth, fetch, NormalizeUrl);
    }
    CrawlSound(sitemapUrl, maxUrls, maxDepth, fetch);
    result := PySliceTo(st.collected, maxUrls);
    skipped := st.skipped;
    duplicates := st.duplicates;
  }
}
