/** The browser helpers of `static/js/ui.js`: the integer SEO score of one
    audit record, the score and severity classifiers, the fix suggestion for
    a warning, the cleaning of the entered URL list, and the state of the
    cancellable operation. */
module Ui {
  import opened Strings
  import opened Records
  import opened PageAudit

  // ---------------------------------------------------------------------
  // calculateSeoScore

  /** `Math.min(a, b)` on integers. */
  function Min(a: int, b: int): int {
    if a <= b then a else b
  }

  /** The missing-alt penalty `min(10, floor(n / 5) + 3)` when `n > 0`. */
  function AltPenalty(n: nat): (p: nat)
    ensures n == 0 <==> p == 0
    ensures n > 0 ==> 3 <= p <= 10
    ensures 0 < n < 5 ==> p == 3
    ensures n >= 35 ==> p == 10
  {
    if n > 0 then Min(10, n / 5 + 3) else 0
  }

  /** The broken-link penalty `min(8, 2 * n)`. */
  function BrokenLinkPenalty(n: nat): (p: nat)
    ensures n == 0 <==> p == 0
    ensures p <= 8
    ensures n <= 4 ==> p == 2 * n
    ensures n >= 4 ==> p == 8
  {
    if n > 0 then Min(8, n * 2) else 0
  }

  /** `min(7, floor(n / 10) + 2)` for more than 10 images without size. */
  function DimensionPenalty(n: nat): (p: nat)
    ensures n <= 10 <==> p == 0
    ensures n > 10 ==> 3 <= p <= 7
  {
    if n > 10 then Min(7, n / 10 + 2) else 0
  }

  /** `min(6, floor(n / 15) + 2)` for more than 10 images not lazy-loaded. */
  function LazyPenalty(n: nat): (p: nat)
    ensures n <= 10 ==> p == 0
    ensures n > 10 ==> 2 <= p <= 6
  {
    if n > 10 then Min(6, n / 15 + 2) else 0
  }

  /** `min(8, floor(n / 10))` for more than 20 render-blocking resources. */
  function RenderBlockingPenalty(n: nat): (p: nat)
    ensures n <= 20 ==> p == 0
    ensures n > 20 ==> 2 <= p <= 8
  {
    if n > 20 then Min(8, n / 10) else 0
  }

  /** The response-time penalty. `parseFloat("1.23s")` compared with 3, 2
      and 1 is the hundredths compared with 300, 200 and 100; 'N/A' parses
      to NaN, which no comparison accepts. */
  function ResponsePenalty(t: ResponseTime): (p: nat)
    ensures p in {0, 2, 4, 6}
    ensures t.NoTiming? || t.centis <= 100 <==> p == 0
  {
    match t
    case NoTiming => 0
    case Elapsed(c) => if c > 300 then 6 else if c > 200 then 4 else if c > 100 then 2 else 0
  }

  /** `min(5, floor((kb - 2000) / 500))` above 2000 KB; the size is held in
      tenths of a KB, which divides exactly. */
  function PageSizePenalty(deciKb: nat): (p: nat)
    ensures deciKb < 25000 ==> p == 0
    ensures p <= 5
  {
    if deciKb > 20000 then Min(5, (deciKb - 20000) / 5000) else 0
  }

  /** `status_code >= t`; the text 'N/A' compares false with any number. */
  predicate CodeAtLeast(c: StatusCode, t: int) {
    c.Code? && c.code >= t
  }

  /** Status, indexability and transport: -20/-25 for 4xx/5xx, -20 for
      'noindex', -15 without HTTPS. */
  function AccessDeduction(r: AuditRecord): (d: nat)
    ensures d <= 80
  {
    (if CodeAtLeast(r.statusCode, 400) then 20 else 0)
    + (if CodeAtLeast(r.statusCode, 500) then 25 else 0)
    + (if Contains(r.robots, "noindex") then 20 else 0)
    + (if !r.https then 15 else 0)
  }

  /** Missing and badly sized title, description and H1. */
  function MetaDeduction(r: AuditRecord): (d: nat)
    ensures d <= 44
  {
    (if r.title == "" then 12 else 0)
    + (if r.metaDescription == "" then 12 else 0)
    + (if r.h1Count == 0 then 12 else 0)
    + (if r.title != "" && |r.title| < 30 then 8 else 0)
    + (if r.title != "" && |r.title| > 60 then 8 else 0)
    + (if r.metaDescription != "" && |r.metaDescription| < 120 then 8 else 0)
    + (if r.metaDescription != "" && |r.metaDescription| > 160 then 8 else 0)
  }

  /** Content, structure and technical checks. */
  function StructureDeduction(r: AuditRecord): (d: nat)
    ensures d <= 44
  {
    (if r.h1Count > 1 then 7 else 0)
    + (if r.canonical == "" then 7 else 0)
    + (if !r.hasViewport then 7 else 0)
    + (if r.wordCount < 300 then 7 else 0)
    + (if !r.hasSitemap then 5 else 0)
    + (if !r.hasRobotsTxt then 4 else 0)
    + (if r.redirectCount > 0 then 4 else 0)
    + (if r.urlHasUnderscores then 3 else 0)
  }

  /** Images and broken links. */
  function ImageLinkDeduction(r: AuditRecord): (d: nat)
    ensures d <= 31
  {
    AltPenalty(r.imagesMissingAlt)
    + DimensionPenalty(r.imagesNoDimensions)
    + LazyPenalty(r.imagesNotLazy)
    + BrokenLinkPenalty(r.brokenLinks)
  }

  /** Language, social and schema tags. */
  function TagDeduction(r: AuditRecord): (d: nat)
    ensures d <= 11
  {
    (if r.lang == "" then 3 else 0)
    + (if !r.hasOgTags then 3 else 0)
    + (if !r.hasSchema then 3 else 0)
    + (if !r.hasTwitterCards then 2 else 0)
  }

  /** Render-blocking resources, response time and page size. */
  function PerformanceDeduction(r: AuditRecord): (d: nat)
    ensures d <= 19
  {
    RenderBlockingPenalty(r.renderBlockingCount)
    + ResponsePenalty(r.responseTime)
    + PageSizePenalty(r.pageSizeDeciKb)
  }

  /** The points `calculateSeoScore` takes off. */
  function Deduction(r: AuditRecord): (d: nat) {
    AccessDeduction(r) + MetaDeduction(r) + StructureDeduction(r)
    + ImageLinkDeduction(r) + TagDeduction(r) + PerformanceDeduction(r)
  }

  /** `Math.max(0, Math.min(100, score))`. */
  function Clamp100(score: int): (r: int)
    ensures 0 <= r <= 100
    ensures 0 <= score <= 100 ==> r == score
  {
    if score < 0 then 0 else if score > 100 then 100 else score
  }

  /** The score of a record: 100 less every deduction, never below 0. */
  function SeoScore(r: AuditRecord): (score: int)
    ensures 0 <= score <= 100
    ensures score == 100 <==> Deduction(r) == 0
    ensures Deduction(r) <= 100 ==> score == 100 - Deduction(r)
  {
    Clamp100(100 - Deduction(r))
  }

  /** The first block of `calculateSeoScore`: accessibility and indexability. */
  method SubtractAccess(r: AuditRecord, score: int) returns (s: int)
    ensures s == score - AccessDeduction(r)
  {
    s := score;
    if CodeAtLeast(r.statusCode, 400) { s := s - 20; }
    if CodeAtLeast(r.statusCode, 500) { s := s - 25; }
    if Contains(r.robots, "noindex") { s := s - 20; }
    if !r.https { s := s - 15; }
  }

  /** Missing essential tags, then poor-quality tags. */
  method SubtractMeta(r: AuditRecord, score: int) returns (s: int)
    ensures s == score - MetaDeduction(r)
  {
    s := score;
    if r.title == "" { s := s - 12; }
    if r.metaDescription == "" { s := s - 12; }
    if r.h1Count == 0 { s := s - 12; }
    if r.title != "" && |r.title| < 30 { s := s - 8; }
    if r.title != "" && |r.title| > 60 { s := s - 8; }
    if r.metaDescription != "" && |r.metaDescription| < 120 { s := s - 8; }
    if r.metaDescription != "" && |r.metaDescription| > 160 { s := s - 8; }
  }

  /** Content, structure and technical SEO. */
  method SubtractStructure(r: AuditRecord, score: int) returns (s: int)
    ensures s == score - StructureDeduction(r)
  {
    s := score;
    if r.h1Count > 1 { s := s - 7; }
    if r.canonical == "" { s := s - 7; }
    if !r.hasViewport { s := s - 7; }
    if r.wordCount < 300 { s := s - 7; }
    if !r.hasSitemap { s := s - 5; }
    if !r.hasRobotsTxt { s := s - 4; }
    if r.redirectCount > 0 { s := s - 4; }
    if r.urlHasUnderscores { s := s - 3; }
  }

  /** Image optimisation and link issues. */
  method SubtractImagesLinks(r: AuditRecord, score: int) returns (s: int)
    ensures s == score - ImageLinkDeduction(r)
  {
    s := score;
    if r.imagesMissingAlt > 0 {
      var altPenalty := Min(10, r.imagesMissingAlt / 5 + 3);
      s := s - altPenalty;
    }
    if r.imagesNoDimensions > 10 { s := s - Min(7, r.imagesNoDimensions / 10 + 2); }
    if r.imagesNotLazy > 10 { s := s - Min(6, r.imagesNotLazy / 15 + 2); }
    if r.brokenLinks > 0 { s := s - Min(8, r.brokenLinks * 2); }
  }

  /** Low-priority tags, then performance. */
  method SubtractTagsPerformance(r: AuditRecord, score: int) returns (s: int)
    ensures s == score - TagDeduction(r) - PerformanceDeduction(r)
  {
    s := score;
    if r.lang == "" { s := s - 3; }
    if !r.hasOgTags { s := s - 3; }
    if !r.hasSchema { s := s - 3; }
    if !r.hasTwitterCards { s := s - 2; }
    if r.renderBlockingCount > 20 { s := s - Min(8, r.renderBlockingCount / 10); }
    if r.responseTime.Elapsed? {
      var responseTime := r.responseTime.centis;
      if responseTime > 300 { s := s - 6; }
      else if responseTime > 200 { s := s - 4; }
      else if responseTime > 100 { s := s - 2; }
    }
    if r.pageSizeDeciKb > 20000 { s := s - Min(5, (r.pageSizeDeciKb - 20000) / 5000); }
  }

  /** `calculateSeoScore`: start at 100, subtract each penalty that applies,
      block by block, then clamp to [0, 100]. */
  method CalculateSeoScore(r: AuditRecord) returns (result: int)
    ensures result == SeoScore(r)
  {
    var score := 100;
    score := SubtractAccess(r, score);
    score := SubtractMeta(r, score);
    score := SubtractStructure(r, score);
    score := SubtractImagesLinks(r, score);
    score := SubtractTagsPerformance(r, score);
    result := Clamp100(score);
  }

  /** More images without alt text never raise the score. */
  lemma MoreMissingAltNeverHelps(r: AuditRecord, m: nat)
    requires m >= r.imagesMissingAlt
    ensures SeoScore(r.(imagesMissingAlt := m)) <= SeoScore(r)
  {
    var w := r.(imagesMissingAlt := m);
    assert AltPenalty(m) >= AltPenalty(r.imagesMissingAlt) by {
      if r.imagesMissingAlt > 0 {
        assert m / 5 >= r.imagesMissingAlt / 5;
      }
    }
    assert AccessDeduction(w) == AccessDeduction(r);
    assert MetaDeduction(w) == MetaDeduction(r);
    assert StructureDeduction(w) == StructureDeduction(r);
    assert ImageLinkDeduction(w) >= ImageLinkDeduction(r);
    assert TagDeduction(w) == TagDeduction(r);
    assert PerformanceDeduction(w) == PerformanceDeduction(r);
  }

  /** More broken links never raise the score. */
  lemma MoreBrokenLinksNeverHelp(r: AuditRecord, m: nat)
    requires m >= r.brokenLinks
    ensures SeoScore(r.(brokenLinks := m)) <= SeoScore(r)
  {
    var w := r.(brokenLinks := m);
    assert AccessDeduction(w) == AccessDeduction(r);
    assert MetaDeduction(w) == MetaDeduction(r);
    assert StructureDeduction(w) == StructureDeduction(r);
    assert ImageLinkDeduction(w) >= ImageLinkDeduction(r);
    assert TagDeduction(w) == TagDeduction(r);
    assert PerformanceDeduction(w) == PerformanceDeduction(r);
  }

  /** Serving the page over HTTPS never lowers the score, and raises it by
      15 when nothing else clamps it. */
  lemma HttpsHelps(r: AuditRecord)
    requires !r.https
    ensures SeoScore(r.(https := true)) >= SeoScore(r)
    ensures Deduction(r) <= 100 ==> SeoScore(r.(https := true)) == SeoScore(r) + 15
  {
    var f := r.(https := true);
    assert AccessDeduction(f) + 15 == AccessDeduction(r);
    assert MetaDeduction(f) == MetaDeduction(r);
    assert StructureDeduction(f) == StructureDeduction(r);
    assert ImageLinkDeduction(f) == ImageLinkDeduction(r);
    assert TagDeduction(f) == TagDeduction(r);
    assert PerformanceDeduction(f) == PerformanceDeduction(r);
  }

  /** The record of a page that could not be fetched scores 8, or 5 when its
      URL contains an underscore: every content, site and feature check
      fails, and the 'N/A' status and timing cost nothing. */
  lemma ErrorRecordScore(url: string, failure: Failure)
    ensures SeoScore(ErrorRecord(url, failure)) == if Contains(url, "_") then 5 else 8
  {
    var r := ErrorRecord(url, failure);
    assert !Contains(r.robots, "noindex") by {
      assert r.robots == "";
    }
  }

  // ---------------------------------------------------------------------
  // getScoreClass / getScoreLabel

  function ScoreClass(score: int): (c: string)
    ensures score >= 90 <==> c == "score-excellent"
    ensures 70 <= score < 90 <==> c == "score-good"
    ensures 50 <= score < 70 <==> c == "score-average"
    ensures 30 <= score < 50 <==> c == "score-poor"
    ensures score < 30 <==> c == "score-critical"
  {
    if score >= 90 then "score-excellent"
    else if score >= 70 then "score-good"
    else if score >= 50 then "score-average"
    else if score >= 30 then "score-poor"
    else "score-critical"
  }

  function ScoreLabel(score: int): (l: string)
    ensures score >= 90 <==> l == "Excellent"
    ensures 70 <= score < 90 <==> l == "Good"
    ensures 50 <= score < 70 <==> l == "Average"
    ensures 30 <= score < 50 <==> l == "Poor"
    ensures score < 30 <==> l == "Critical"
  {
    if score >= 90 then "Excellent"
    else if score >= 70 then "Good"
    else if score >= 50 then "Average"
    else if score >= 30 then "Poor"
    else "Critical"
  }

  /** The two classifiers cut at the same thresholds: the class is always
      'score-' followed by the lower-cased label. */
  lemma ClassAgreesWithLabel(score: int)
    ensures ScoreClass(score) == "score-" + Lower(ScoreLabel(score))
  {
    if score >= 90 {
      ClassOfExcellent();
    } else if score >= 70 {
      ClassOfGood();
    } else if score >= 50 {
      ClassOfAverage();
    } else if score >= 30 {
      ClassOfPoor();
    } else {
      ClassOfCritical();
    }
  }

  lemma ClassOfExcellent() ensures "score-excellent" == "score-" + Lower("Excellent") { LowerExcellent(); }
  lemma ClassOfGood() ensures "score-good" == "score-" + Lower("Good") { LowerGood(); }
  lemma ClassOfAverage() ensures "score-average" == "score-" + Lower("Average") { LowerAverage(); }
  lemma ClassOfPoor() ensures "score-poor" == "score-" + Lower("Poor") { LowerPoor(); }
  lemma ClassOfCritical() ensures "score-critical" == "score-" + Lower("Critical") { LowerCritical(); }

  lemma LowerExcellent() ensures Lower("Excellent") == "excellent" {}
  lemma LowerGood() ensures Lower("Good") == "good" {}
  lemma LowerAverage() ensures Lower("Average") == "average" {}
  lemma LowerPoor() ensures Lower("Poor") == "poor" {}
  lemma LowerCritical() ensures Lower("Critical") == "critical" {}

  // ---------------------------------------------------------------------
  // getSeverityClass / getIssuePriority

  /** `keys.some(k => warning.includes(k))`. */
  function AnyIn(w: string, keys: seq<string>): (b: bool)
    ensures b <==> exists i :: 0 <= i < |keys| && Contains(w, keys[i])
  {
    if keys == [] then false
    else Contains(w, keys[0]) || AnyIn(w, keys[1..])
  }

  const HighSeverity: seq<string> := ["Missing title", "Missing H1", "Missing meta description", "Noindex set",
    "Page Error", "Missing viewport", "Not using HTTPS", "Broken internal links"]
  const MediumSeverity: seq<string> := ["Title too long", "Description too long", "Multiple H1 tags",
    "No canonical tag", "No Open Graph", "No structured data", "No schema", "Redirect chain", "No robots.txt",
    "No sitemap"]

  /** A high-list match wins over a medium-list match; anything else is low. */
  function SeverityClass(w: string): (c: string)
    ensures c == "severity-high" <==> AnyIn(w, HighSeverity)
    ensures c == "severity-medium" <==> !AnyIn(w, HighSeverity) && AnyIn(w, MediumSeverity)
    ensures c == "severity-low" <==> !AnyIn(w, HighSeverity) && !AnyIn(w, MediumSeverity)
  {
    if AnyIn(w, HighSeverity) then "severity-high"
    else if AnyIn(w, MediumSeverity) then "severity-medium"
    else "severity-low"
  }

  datatype Priority = Priority(level: string, score: nat, impact: string)

  const CriticalIssues: seq<string> := ["Missing title", "Missing H1", "Not using HTTPS", "Page Error",
    "Broken internal links"]
  const HighIssues: seq<string> := ["Missing meta description", "Missing viewport", "Noindex set", "No canonical"]
  const MediumIssues: seq<string> := ["No sitemap", "No robots.txt", "Multiple H1", "Title too long",
    "Description too long"]

  /** The first tier, in the order critical, high, medium, low, that has a
      substring of the warning. */
  function IssuePriority(w: string): (p: Priority)
    ensures p.score in {10, 7, 4, 2}
    ensures p.score == 10 <==> AnyIn(w, CriticalIssues)
    ensures p.score == 7 <==> !AnyIn(w, CriticalIssues) && AnyIn(w, HighIssues)
    ensures p.score == 4 <==> !AnyIn(w, CriticalIssues) && !AnyIn(w, HighIssues) && AnyIn(w, MediumIssues)
    ensures p.score == 2 <==> !AnyIn(w, CriticalIssues) && !AnyIn(w, HighIssues) && !AnyIn(w, MediumIssues)
  {
    if AnyIn(w, CriticalIssues) then Priority("critical", 10, "High SEO impact")
    else if AnyIn(w, HighIssues) then Priority("high", 7, "Moderate SEO impact")
    else if AnyIn(w, MediumIssues) then Priority("medium", 4, "Minor SEO impact")
    else Priority("low", 2, "Low priority")
  }

  /** Every critical issue is also shown with the high severity class: each
      critical key is on the high-severity list. */
  lemma CriticalIsHighSeverity(w: string)
    requires IssuePriority(w).score == 10
    ensures SeverityClass(w) == "severity-high"
  {
    var i :| 0 <= i < |CriticalIssues| && Contains(w, CriticalIssues[i]);
    var map_ := [0, 1, 6, 4, 7];
    assert HighSeverity[map_[i]] == CriticalIssues[i];
  }

  // ---------------------------------------------------------------------
  // getIssueFix

  /** The `fixes` object, in its insertion order (the order `for ... in`
      visits string keys). */
  const FixTable: seq<(string, string)> := [
    ("Missing title", "\U{1F4A1} Add a unique, descriptive &lt;title&gt; tag (30-60 characters) in the &lt;head&gt; section."),
    ("Title too short", "\U{1F4A1} Expand your title to at least 30 characters for better SEO impact."),
    ("Title too long", "\U{1F4A1} Shorten your title to 60 characters or less to prevent truncation in search results."),
    ("Missing meta description", "\U{1F4A1} Add a &lt;meta name=\"description\"&gt; tag with a compelling summary (120-160 characters)."),
    ("Description too short", "\U{1F4A1} Expand your meta description to at least 120 characters."),
    ("Description too long", "\U{1F4A1} Shorten your meta description to 160 characters or less."),
    ("Missing H1", "\U{1F4A1} Add a single &lt;h1&gt; tag with your main page heading."),
    ("Multiple H1 tags", "\U{1F4A1} Use only one &lt;h1&gt; tag per page. Convert additional H1s to &lt;h2&gt; or lower."),
    ("No H2 headings", "\U{1F4A1} Add &lt;h2&gt; headings to structure your content and improve readability."),
    ("No canonical tag", "\U{1F4A1} Add &lt;link rel=\"canonical\" href=\"your-url\"&gt; to specify the preferred URL."),
    ("Not using HTTPS", "\U{1F512} Migrate to HTTPS with an SSL certificate for security and SEO benefits."),
    ("Thin content", "\U{1F4A1} Add more valuable content (aim for 300+ words) to improve rankings."),
    ("No robots.txt", "\U{1F4A1} Create a robots.txt file at your domain root to guide search engine crawlers."),
    ("No sitemap.xml", "\U{1F4A1} Generate and submit an XML sitemap to help search engines discover your pages."),
    ("Large page size", "\U{26A1} Optimize images, minify CSS/JS, and enable compression to reduce page size."),
    ("Slow response", "\U{26A1} Improve server performance, enable caching, and consider using a CDN."),
    ("Missing viewport", "\U{1F4F1} Add &lt;meta name=\"viewport\" content=\"width=device-width, initial-scale=1\"&gt; for mobile compatibility."),
    ("Missing lang attribute", "\U{1F310} Add lang=\"en\" (or appropriate language) to your &lt;html&gt; tag."),
    ("No Open Graph", "\U{1F4F1} Add Open Graph meta tags for better social media sharing."),
    ("No structured data", "\U{1F50D} Implement Schema.org structured data to enhance search results."),
    ("URL too long", "\U{1F4A1} Keep URLs under 75 characters for better usability."),
    ("URL contains underscores", "\U{1F4A1} Replace underscores with hyphens in URLs (e.g., my-page instead of my_page).")
  ]

  /** The substring checks after the table, in order. */
  const FallbackFixes: seq<(string, string)> := [
    ("Images missing alt", "\U{1F4A1} Add descriptive alt attributes to all images for accessibility and SEO."),
    ("broken links", "\U{1F4A1} Fix or remove broken links to improve user experience and crawlability."),
    ("render-blocking", "\U{26A1} Add async/defer attributes to scripts or move them to the footer."),
    ("Images without dimensions", "\U{26A1} Add width and height attributes to images to prevent layout shifts (CLS)."),
    ("Images not lazy", "\U{26A1} Add loading=\"lazy\" to images below the fold to improve page speed."),
    ("Redirect chain", "\U{1F4A1} Remove unnecessary redirects by linking directly to the final destination.")
  ]

  const DefaultFix: string := "\U{1F4A1} Review and address this issue according to SEO best practices."

  /** Entry `i` is the first whose key is a substring of `w`. */
  predicate FirstKeyAt(w: string, table: seq<(string, string)>, i: int) {
    0 <= i < |table| && Contains(w, table[i].0) && forall j :: 0 <= j < i ==> !Contains(w, table[j].0)
  }

  /** No key of `table` is a substring of `w`. */
  predicate NoKeyIn(w: string, table: seq<(string, string)>) {
    forall j :: 0 <= j < |table| ==> !Contains(w, table[j].0)
  }

  /** The index of the first entry whose key is a substring of `w`. */
  function FirstMatch(w: string, table: seq<(string, string)>): (r: Option<nat>)
    ensures r.Some? ==> FirstKeyAt(w, table, r.value)
    ensures r.None? ==> NoKeyIn(w, table)
  {
    if table == [] then None
    else if Contains(w, table[0].0) then Some(0)
    else match FirstMatch(w, table[1..])
      case Some(i) => Some(i + 1)
      case None => None
  }

  /** The advice of the first key of `table` contained in `w`, else of the
      first key of `fallback`, else `default`. */
  function FixFrom(w: string, table: seq<(string, string)>, fallback: seq<(string, string)>, default: string)
    : (fix: string)
    ensures forall i :: FirstKeyAt(w, table, i) ==> fix == table[i].1
    ensures NoKeyIn(w, table) ==> forall i :: FirstKeyAt(w, fallback, i) ==> fix == fallback[i].1
    ensures NoKeyIn(w, table) && NoKeyIn(w, fallback) ==> fix == default
  {
    FirstKeyUnique(w, table);
    FirstKeyUnique(w, fallback);
    match FirstMatch(w, table)
    case Some(i) => table[i].1
    case None =>
      match FirstMatch(w, fallback)
      case Some(i) => fallback[i].1
      case None => default
  }

  /** At most one entry is the first whose key occurs. */
  lemma FirstKeyUnique(w: string, table: seq<(string, string)>)
    ensures forall i, j :: FirstKeyAt(w, table, i) && FirstKeyAt(w, table, j) ==> i == j
  {
  }

  /** `getIssueFix`: the advice of the first table key contained in the
      warning, else of the first fallback substring, else the default. */
  function IssueFix(w: string): (fix: string)
    ensures forall i :: FirstKeyAt(w, FixTable, i) ==> fix == FixTable[i].1
    ensures NoKeyIn(w, FixTable) ==> forall i :: FirstKeyAt(w, FallbackFixes, i) ==> fix == FallbackFixes[i].1
    ensures NoKeyIn(w, FixTable) && NoKeyIn(w, FallbackFixes) ==> fix == DefaultFix
  {
    FixFrom(w, FixTable, FallbackFixes, DefaultFix)
  }

  // ---------------------------------------------------------------------
  // readUrls

  /** `value.replace(/\r/g, '')`. */
  function RemoveCR(s: string): (r: string)
    ensures forall i :: 0 <= i < |r| ==> r[i] != '\r'
    ensures |r| <= |s|
  {
    if s == [] then []
    else (if s[0] == '\r' then [] else [s[0]]) + RemoveCR(s[1..])
  }

  /** `/^https?:\/\//i`: the ASCII letters match in either case. */
  predicate HasHttpScheme(u: string) {
    StartsWith(Lower(u), "http://") || StartsWith(Lower(u), "https://")
  }

  /** One line of the text area: trimmed, dropped when blank, prefixed with
      'https://' when it has no scheme. */
  function CleanLine(line: string): (r: Option<string>)
    ensures r.None? <==> JsTrim(line) == ""
    ensures r.Some? ==> HasHttpScheme(r.value) && EndsWith(r.value, JsTrim(line))
  {
    var u := JsTrim(line);
    if u == "" then None
    else if HasHttpScheme(u) then Some(u)
    else
      var v := "https://" + u;
      LowerHttpsPrefix(u);
      assert v[|v| - |u|..] == u;
      Some(v)
  }

  lemma LowerHttpsPrefix(u: string)
    ensures StartsWith(Lower("https://" + u), "https://")
  {
    var l := Lower("https://" + u);
    assert forall k :: 0 <= k < 8 ==> l[k] == LowerChar(("https://" + u)[k]);
    assert l[..8] == "https://";
  }

  /** `f` applied to each element, keeping the `Some` values in order. */
  function FilterMap(xs: seq<string>, f: string -> Option<string>): seq<string> {
    if xs == [] then []
    else FilterMap(xs[..|xs| - 1], f) + (if f(xs[|xs| - 1]).Some? then [f(xs[|xs| - 1]).value] else [])
  }

  lemma FilterMapSnoc(xs: seq<string>, x: string, f: string -> Option<string>)
    ensures FilterMap(xs + [x], f) == FilterMap(xs, f) + (if f(x).Some? then [f(x).value] else [])
  {
    assert (xs + [x])[..|xs|] == xs;
  }

  /** At most one output per input, and each output comes from an input. */
  lemma {:induction false} FilterMapSound(xs: seq<string>, f: string -> Option<string>)
    ensures |FilterMap(xs, f)| <= |xs|
    ensures forall k :: 0 <= k < |FilterMap(xs, f)| ==>
      exists i :: 0 <= i < |xs| && f(xs[i]) == Some(FilterMap(xs, f)[k])
  {
    if xs != [] {
      var init := xs[..|xs| - 1];
      FilterMapSound(init, f);
      var rest := FilterMap(init, f);
      var c := FilterMap(xs, f);
      forall k | 0 <= k < |c|
        ensures exists i :: 0 <= i < |xs| && f(xs[i]) == Some(c[k])
      {
        if k < |rest| {
          var i :| 0 <= i < |init| && f(init[i]) == Some(rest[k]);
          assert xs[i] == init[i];
        } else {
          assert f(xs[|xs| - 1]) == Some(c[k]);
        }
      }
    }
  }

  /** Every input with a value contributes it. */
  lemma {:induction false} FilterMapComplete(xs: seq<string>, f: string -> Option<string>)
    ensures forall i :: 0 <= i < |xs| && f(xs[i]).Some? ==> f(xs[i]).value in FilterMap(xs, f)
  {
    if xs != [] {
      var init := xs[..|xs| - 1];
      FilterMapComplete(init, f);
      forall i | 0 <= i < |xs| && f(xs[i]).Some?
        ensures f(xs[i]).value in FilterMap(xs, f)
      {
        if i < |init| {
          assert xs[i] == init[i];
        }
      }
    }
  }

  /** The outputs in input order: the k-th output is the value of the input
      at the k-th position where `f` has one (`p` tells those inputs apart). */
  lemma {:induction false} FilterMapInOrder(xs: seq<string>, f: string -> Option<string>, p: string -> bool)
    requires forall x :: f(x).Some? <==> p(x)
    ensures var pos := Positions(xs, p);
      |FilterMap(xs, f)| == |pos| && forall k :: 0 <= k < |pos| ==> f(xs[pos[k]]) == Some(FilterMap(xs, f)[k])
  {
    if xs != [] {
      var init := xs[..|xs| - 1];
      FilterMapInOrder(init, f, p);
      var pos, c := Positions(xs, p), FilterMap(xs, f);
      var pinit := Positions(init, p);
      assert pos == pinit + (if p(xs[|xs| - 1]) then [|xs| - 1] else []);
      forall k | 0 <= k < |pos|
        ensures f(xs[pos[k]]) == Some(c[k])
      {
        if k < |pinit| {
          assert xs[pinit[k]] == init[pinit[k]];
        }
      }
    }
  }

  /** The cleaned URL of every non-blank line, in order. */
  function CleanLines(lines: seq<string>): seq<string> {
    FilterMap(lines, CleanLine)
  }

  /** No more URLs than lines; each is the cleaned form of a non-blank line
      and carries an http(s) scheme; every non-blank line yields one. */
  lemma CleanLinesFacts(lines: seq<string>)
    ensures |CleanLines(lines)| <= |lines|
    ensures forall k :: 0 <= k < |CleanLines(lines)| ==>
      HasHttpScheme(CleanLines(lines)[k])
      && exists i :: 0 <= i < |lines| && JsTrim(lines[i]) != "" && CleanLine(lines[i]) == Some(CleanLines(lines)[k])
    ensures forall i :: 0 <= i < |lines| && JsTrim(lines[i]) != "" ==> CleanLine(lines[i]).value in CleanLines(lines)
  {
    var clean := CleanLine;
    FilterMapSound(lines, clean);
    FilterMapComplete(lines, clean);
    var c := CleanLines(lines);
    forall k | 0 <= k < |c|
      ensures HasHttpScheme(c[k])
      ensures exists i :: 0 <= i < |lines| && JsTrim(lines[i]) != "" && CleanLine(lines[i]) == Some(c[k])
    {
      var i :| 0 <= i < |lines| && clean(lines[i]) == Some(c[k]);
      assert CleanLine(lines[i]) == Some(c[k]);
    }
  }

  /** `readUrls`: drop the carriage returns, split on newlines and keep the
      cleaned non-blank lines. */
  method ReadUrls(value: string) returns (cleaned: seq<string>)
    ensures cleaned == CleanLines(Split(RemoveCR(value), "\n"))
  {
    var normalized := RemoveCR(value);
    var parts := Split(normalized, "\n");
    var clean := CleanLine;
    cleaned := [];
    var i := 0;
    while i < |parts|
      invariant 0 <= i <= |parts|
      invariant cleaned == FilterMap(parts[..i], clean)
    {
      FilterMapSnoc(parts[..i], parts[i], clean);
      TakeSnoc(parts, i);
      var u := CleanLine(parts[i]);
      if u.Some? {
        cleaned := cleaned + [u.value];
      }
      i := i + 1;
    }
    assert parts[..i] == parts;
  }

  // ---------------------------------------------------------------------
  // startOperation / clearOperationState / cancelCurrentOperation

  /** An `AbortController`: only whether `abort()` was called matters. */
  class Controller {
    var aborted: bool

    constructor()
      ensures !aborted
    {
      aborted := false;
    }

    method Abort()
      modifies this
      ensures aborted
    {
      aborted := true;
    }
  }

  /** The globals `currentController` and `currentOperation`, and whether
      the cancel button is enabled. */
  class OperationState {
    var controller: Controller?
    var operation: string
    var cancelEnabled: bool

    constructor()
      ensures controller == null && operation == "" && !cancelEnabled
    {
      controller := null;
      operation := "";
      cancelEnabled := false;
    }

    /** Abort the running operation, if any, and install a fresh
        controller; an empty name becomes 'operation'. */
    method StartOperation(name: string) returns (c: Controller)
      modifies this, controller
      ensures fresh(c) && !c.aborted
      ensures controller == c && cancelEnabled
      ensures operation == if name == "" then "operation" else name
      ensures old(controller) != null ==> old(controller).aborted
    {
      if controller != null {
        controller.Abort();
      }
      c := new Controller();
      controller := c;
      operation := if name == "" then "operation" else name;
      cancelEnabled := true;
    }

    method ClearOperationState()
      modifies this
      ensures controller == null && operation == "" && !cancelEnabled
    {
      controller := null;
      operation := "";
      cancelEnabled := false;
    }

    /** Abort the running operation; with none, only a toast is shown. */
    method CancelCurrentOperation() returns (toast: Option<string>)
      modifies controller
      ensures old(controller) == null ==> toast == Some("No operation to cancel.")
      ensures old(controller) != null ==> toast == None && controller.aborted
      ensures controller == old(controller) && operation == old(operation)
    {
      if controller == null {
        return Some("No operation to cancel.");
      }
      controller.Abort();
      toast := None;
    }
  }
}
