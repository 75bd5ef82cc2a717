/** `audit_website`: fetch one page with retries, classify a failure into an
    error record, and derive the warning list from the signals extracted
    from the page. HTML extraction and the network are inputs. */
module PageAudit {
  import opened Strings
  import opened Urls
  import opened Records

  /** What the final `requests.get` returned. */
  datatype Response = Response(status: int, finalUrl: string, elapsedMicros: nat, bodyBytes: nat)

  /** What one attempt of `requests.get` did. */
  datatype Attempt = Got(response: Response) | TimedOut | ConnectionFailed | OtherFailure

  /** Which `except` clause of `audit_website` caught the failure. */
  datatype Failure = TimeoutFailure | ConnectionFailure | UnexpectedFailure

  datatype FetchResult = Fetched(response: Response) | Failed(failure: Failure)

  /** Values extracted from the page and from the site-level helpers. The
      extraction itself is not modelled; where it can raise (`urlparse` of a
      malformed link, say), the audit receives no signals. */
  datatype PageSignals = PageSignals(
    title: string,
    metaDescription: string,
    h1Texts: seq<string>,
    h2Count: nat,
    h3Count: nat,
    h4Count: nat,
    canonical: string,
    robots: string,
    hasViewport: bool,
    lang: string,
    hasOgTags: bool,
    ogTitle: string,
    hasTwitterCards: bool,
    hasSchema: bool,
    schemaTypes: seq<string>,
    wordCount: nat,
    totalImages: nat,
    imagesMissingAlt: nat,
    imagesNoDimensions: nat,
    imagesNotLazy: nat,
    renderBlockingCount: nat,
    internalLinks: nat,
    externalLinks: nat,
    brokenLinks: nat,
    redirectChainLength: nat,
    hasRobotsTxt: bool,
    hasSitemap: bool)

  // ---------------------------------------------------------------------
  // Retry loop

  /** The attempts `audit_website` makes, from attempt `k` on: a response
      ends the loop, a timeout or connection error is retried until
      `max_retries` attempts failed, anything else escapes at once. The
      second component is the number of attempts made in total. */
  function Retry(attempts: nat -> Attempt, maxRetries: int, k: nat): (FetchResult, nat)
    decreases maxRetries - k
  {
    match attempts(k)
    case Got(resp) => (Fetched(resp), k + 1)
    case OtherFailure => (Failed(UnexpectedFailure), k + 1)
    case TimedOut =>
      if k + 1 >= maxRetries then (Failed(TimeoutFailure), k + 1)
      else Retry(attempts, maxRetries, k + 1)
    case ConnectionFailed =>
      if k + 1 >= maxRetries then (Failed(ConnectionFailure), k + 1)
      else Retry(attempts, maxRetries, k + 1)
  }

  predicate Retryable(a: Attempt) {
    a.TimedOut? || a.ConnectionFailed?
  }

  function AttemptCap(maxRetries: int): nat {
    if maxRetries < 1 then 1 else maxRetries
  }

  /** The loop makes at most `max(1, max_retries)` attempts; every attempt
      before the last was a retried network failure; the result is what the
      last attempt gave, and a network failure is reported only after the
      cap is reached. */
  lemma {:induction false} RetryFacts(attempts: nat -> Attempt, maxRetries: int, k: nat)
    requires k < AttemptCap(maxRetries)
    ensures var (res, n) := Retry(attempts, maxRetries, k);
      k < n <= AttemptCap(maxRetries)
      && (forall j :: k <= j < n - 1 ==> Retryable(attempts(j)))
      && (res.Fetched? <==> attempts(n - 1).Got?)
      && (res.Fetched? ==> res.response == attempts(n - 1).response)
      && (res == Failed(UnexpectedFailure) <==> attempts(n - 1).OtherFailure?)
      && (res == Failed(TimeoutFailure) <==> attempts(n - 1).TimedOut?)
      && (res == Failed(ConnectionFailure) <==> attempts(n - 1).ConnectionFailed?)
      && (Retryable(attempts(n - 1)) ==> n == AttemptCap(maxRetries))
    decreases maxRetries - k
  {
    match attempts(k)
    case Got(_) =>
    case OtherFailure =>
    case TimedOut =>
      if k + 1 < maxRetries {
        RetryFacts(attempts, maxRetries, k + 1);
      }
    case ConnectionFailed =>
      if k + 1 < maxRetries {
        RetryFacts(attempts, maxRetries, k + 1);
      }
  }

  /** The `while True` retry loop of `audit_website`. */
  method FetchWithRetries(attempts: nat -> Attempt, maxRetries: int) returns (res: FetchResult, made: nat)
    ensures (res, made) == Retry(attempts, maxRetries, 0)
  {
    var attempt: nat := 0;
    while true
      invariant attempt < AttemptCap(maxRetries)
      invariant Retry(attempts, maxRetries, attempt) == Retry(attempts, maxRetries, 0)
      decreases AttemptCap(maxRetries) - attempt
    {
      var a := attempts(attempt);
      if a.Got? {
        return Fetched(a.response), attempt + 1;
      } else if a.OtherFailure? {
        return Failed(UnexpectedFailure), attempt + 1;
      }
      attempt := attempt + 1;
      if attempt >= maxRetries {
        res := if a.TimedOut? then Failed(TimeoutFailure) else Failed(ConnectionFailure);
        return res, attempt;
      }
    }
  }

  // ---------------------------------------------------------------------
  // Warning rules

  function When(c: bool, w: string): (r: seq<string>)
    ensures |r| <= 1 && (w in r <==> c)
  {
    if c then [w] else []
  }

  /** At most one title message, chosen by the first matching threshold. */
  function TitleWarnings(title: string): (r: seq<string>)
    ensures |r| <= 1
    ensures r == ["Missing title"] <==> title == ""
    ensures r == ["Title too short (< 30 chars)"] <==> 0 < |title| < 30
    ensures r == ["Title too long (> 60 chars)"] <==> |title| > 60
    ensures r == [] <==> 30 <= |title| <= 60
  {
    if title == "" then ["Missing title"]
    else if |title| < 30 then ["Title too short (< 30 chars)"]
    else if |title| > 60 then ["Title too long (> 60 chars)"]
    else []
  }

  /** At most one description message, chosen by the first matching threshold. */
  function DescriptionWarnings(description: string): (r: seq<string>)
    ensures |r| <= 1
    ensures r == ["Missing meta description"] <==> description == ""
    ensures r == ["Description too short (< 120 chars)"] <==> 0 < |description| < 120
    ensures r == ["Description too long (> 160 chars)"] <==> |description| > 160
    ensures r == [] <==> 120 <= |description| <= 160
  {
    if description == "" then ["Missing meta description"]
    else if |description| < 120 then ["Description too short (< 120 chars)"]
    else if |description| > 160 then ["Description too long (> 160 chars)"]
    else []
  }

  /** At most one H1 message: missing, or multiple with the count. */
  function H1Warnings(h1Count: nat): (r: seq<string>)
    ensures |r| <= 1
    ensures r == ["Missing H1"] <==> h1Count == 0
    ensures (exists m :: r == [m] && StartsWith(m, "Multiple H1 tags (")) <==> h1Count > 1
    ensures r == [] <==> h1Count == 1
  {
    if h1Count == 0 then ["Missing H1"]
    else if h1Count > 1 then
      var m := "Multiple H1 tags (" + NatToString(h1Count) + ")";
      assert m[..18] == "Multiple H1 tags (";
      [m]
    else []
  }

  lemma ScaledProducts(q: nat, d: nat)
    ensures 2 * q * d == 2 * (q * d) && 2 * (q + 1) * d == 2 * (q * d) + 2 * d
  {
    assert 2 * (q + 1) * d == 2 * (q * d + d);
  }

  /** Python's `round` on the exact quotient `n / d`: to nearest, ties to even. */
  function RoundHalfEven(n: nat, d: nat): nat
    requires d > 0
  {
    var q := n / d;
    var rem := n % d;
    if 2 * rem > d || (2 * rem == d && q % 2 == 1) then q + 1 else q
  }

  /** The rounded value lies within half a unit of `n / d`, and an exact tie
      goes to the even neighbour. */
  lemma RoundHalfEvenNearest(n: nat, d: nat)
    requires d > 0
    ensures var r := RoundHalfEven(n, d);
      2 * r * d <= 2 * n + d && 2 * n <= 2 * r * d + d
      && (2 * n == 2 * r * d + d || 2 * n + d == 2 * r * d ==> r % 2 == 0)
  {
    var q := n / d;
    var rem := n % d;
    assert n == q * d + rem;
    ScaledProducts(q, d);
  }

  /** `f"{x:.Nf}"` of a fixed-point value held as `units` hundredths or tenths. */
  function FixedText(units: nat, scale: nat): string
    requires scale == 10 || scale == 100
  {
    var frac := units % scale;
    NatToString(units / scale) + "." +
      (if scale == 100 then [DigitChar(frac / 10), DigitChar(frac % 10)] else [DigitChar(frac)])
  }

  /** Heading-structure and technical warnings. */
  function StructureWarnings(https: bool, s: PageSignals): seq<string> {
    When(s.h2Count == 0 && s.wordCount > 300, "No H2 headings for content structure")
    + When(s.canonical == "", "No canonical tag")
    + When(Contains(s.robots, "noindex"), "Noindex set")
    + When(!https, "Not using HTTPS")
  }

  function RedirectCount(chainLength: nat): nat {
    if chainLength > 1 then chainLength - 1 else 0
  }

  /** Content, image, link and redirect warnings. */
  function ContentWarnings(s: PageSignals): seq<string> {
    When(s.imagesMissingAlt > 0, "Images missing alt text (" + NatToString(s.imagesMissingAlt) + ")")
    + When(s.wordCount < 300, "Thin content (< 300 words)")
    + When(s.imagesNoDimensions > 0 && s.totalImages > 0,
           "Images without dimensions (" + NatToString(s.imagesNoDimensions) + ") - affects CLS")
    + When(s.imagesNotLazy > 3, "Images not lazy-loaded (" + NatToString(s.imagesNotLazy) + ")")
    + When(s.brokenLinks > 0, "Broken internal links found (" + NatToString(s.brokenLinks) + ")")
    + When(RedirectCount(s.redirectChainLength) > 1,
           "Redirect chain (" + NatToString(RedirectCount(s.redirectChainLength)) + " hops)")
  }

  /** Site-level, page-size, URL-shape and response-time warnings. */
  function SiteWarnings(url: string, underscores: bool, resp: Response, s: PageSignals): seq<string> {
    When(!s.hasRobotsTxt, "No robots.txt file")
    + When(!s.hasSitemap, "No sitemap.xml found")
    + When(resp.bodyBytes > 512000, "Large page size (" + NatToString(RoundHalfEven(resp.bodyBytes, 1024)) + "KB)")
    + When(|url| > 75, "URL too long (> 75 chars)")
    + When(underscores, "URL contains underscores (use hyphens)")
    + When(resp.elapsedMicros > 3000000,
           "Slow response (" + FixedText(RoundHalfEven(resp.elapsedMicros, 100000), 10) + "s)")
  }

  /** Mobile, language, social, schema and Core Web Vitals warnings. */
  function FeatureWarnings(resp: Response, s: PageSignals): seq<string> {
    When(!s.hasViewport, "Missing viewport meta tag")
    + When(s.lang == "", "Missing lang attribute on HTML")
    + When(!s.hasOgTags, "No Open Graph tags")
    + When(!s.hasSchema, "No structured data (schema.org)")
    + When(s.renderBlockingCount > 3, "Many render-blocking resources (" + NatToString(s.renderBlockingCount) + ")")
    + When(resp.elapsedMicros > 1500000,
           "Slow TTFB (" + FixedText(RoundHalfEven(resp.elapsedMicros, 10000), 100) + "s) - consider CDN/caching")
  }

  /** The warnings that do not belong to the title, description or H1 groups,
      in the order `audit_website` appends them. */
  function OtherWarnings(url: string, https: bool, underscores: bool, resp: Response, s: PageSignals): seq<string> {
    StructureWarnings(https, s) + ContentWarnings(s) + SiteWarnings(url, underscores, resp, s) + FeatureWarnings(resp, s)
  }

  function Warnings(url: string, https: bool, underscores: bool, resp: Response, s: PageSignals): seq<string> {
    TitleWarnings(s.title) + DescriptionWarnings(s.metaDescription) + H1Warnings(|s.h1Texts|)
    + OtherWarnings(url, https, underscores, resp, s)
  }


  predicate IsTitleMessage(m: string) {
    m == "Missing title" || m == "Title too short (< 30 chars)" || m == "Title too long (> 60 chars)"
  }

  predicate IsDescriptionMessage(m: string) {
    m == "Missing meta description" || m == "Description too short (< 120 chars)"
    || m == "Description too long (> 160 chars)"
  }

  predicate IsH1Message(m: string) {
    m == "Missing H1" || StartsWith(m, "Multiple H1 tags (")
  }

  predicate InAGroup(m: string) {
    IsTitleMessage(m) || IsDescriptionMessage(m) || IsH1Message(m)
  }

  /** The messages of `ws` that satisfy `p`, in order. */
  function Keep(ws: seq<string>, p: string -> bool): (r: seq<string>)
    ensures |r| <= |ws| && forall m :: m in r <==> m in ws && p(m)
  {
    if ws == [] then [] else (if p(ws[0]) then [ws[0]] else []) + Keep(ws[1..], p)
  }

  lemma {:induction false} KeepConcat(a: seq<string>, b: seq<string>, p: string -> bool)
    ensures Keep(a + b, p) == Keep(a, p) + Keep(b, p)
  {
    if a == [] {
      assert a + b == b;
    } else {
      assert (a + b)[1..] == a[1..] + b;
      KeepConcat(a[1..], b, p);
    }
  }

  lemma {:induction false} KeepAll(a: seq<string>, p: string -> bool)
    requires forall m :: m in a ==> p(m)
    ensures Keep(a, p) == a
  {
    if a != [] {
      KeepAll(a[1..], p);
    }
  }

  /** The leading characters every grouped message has. */
  predicate GroupShaped(m: string) {
    |m| > 8 && ((m[0] == 'T' && m[1] == 'i') || m[0] == 'D' || (m[0] == 'M' && m[1] == 'u')
               || (m[0] == 'M' && m[1] == 'i' && (m[8] == 't' || m[8] == 'm' || m[8] == 'H')))
  }

  lemma GroupMessagesShaped(m: string)
    ensures InAGroup(m) ==> GroupShaped(m)
  {
    if StartsWith(m, "Multiple H1 tags (") {
      assert m[0] == m[..18][0] == 'M';
      assert m[1] == m[..18][1] == 'u';
    }
  }

  /** No message of `ws` belongs to the title, description or H1 groups. */
  predicate Outside(ws: seq<string>) {
    forall m :: m in ws ==> !InAGroup(m)
  }

  lemma OutsideFour(a: seq<string>, b: seq<string>, c: seq<string>, d: seq<string>)
    requires Outside(a) && Outside(b) && Outside(c) && Outside(d)
    ensures Outside(a + b + c + d)
  {
  }

  lemma OutsideSix(a: seq<string>, b: seq<string>, c: seq<string>, d: seq<string>, e: seq<string>, f: seq<string>)
    requires Outside(a) && Outside(b) && Outside(c) && Outside(d) && Outside(e) && Outside(f)
    ensures Outside(a + b + c + d + e + f)
  {
  }

  lemma WhenOutsideGroups(c: bool, w: string)
    requires !GroupShaped(w)
    ensures Outside(When(c, w))
  {
    GroupMessagesShaped(w);
  }

  /** The fixed warning texts outside the three groups do not have their leading characters. */
  lemma StructureLiteralsOutside()
    ensures !GroupShaped("No H2 headings for content structure") && !GroupShaped("No canonical tag")
    ensures !GroupShaped("Noindex set") && !GroupShaped("Not using HTTPS")
  {
  }

  lemma SiteLiteralsOutside()
    ensures !GroupShaped("No robots.txt file") && !GroupShaped("No sitemap.xml found")
    ensures !GroupShaped("URL too long (> 75 chars)") && !GroupShaped("URL contains underscores (use hyphens)")
    ensures !GroupShaped("Thin content (< 300 words)")
  {
  }

  lemma FeatureLiteralsOutside()
    ensures !GroupShaped("Missing viewport meta tag") && !GroupShaped("Missing lang attribute on HTML")
    ensures !GroupShaped("No Open Graph tags") && !GroupShaped("No structured data (schema.org)")
  {
  }

  lemma StructureOutsideGroups(https: bool, s: PageSignals)
    ensures Outside(StructureWarnings(https, s))
  {
    StructureLiteralsOutside();
    var w1 := When(s.h2Count == 0 && s.wordCount > 300, "No H2 headings for content structure");
    var w2 := When(s.canonical == "", "No canonical tag");
    var w3 := When(Contains(s.robots, "noindex"), "Noindex set");
    var w4 := When(!https, "Not using HTTPS");
    WhenOutsideGroups(s.h2Count == 0 && s.wordCount > 300, "No H2 headings for content structure");
    WhenOutsideGroups(s.canonical == "", "No canonical tag");
    WhenOutsideGroups(Contains(s.robots, "noindex"), "Noindex set");
    WhenOutsideGroups(!https, "Not using HTTPS");
    OutsideFour(w1, w2, w3, w4);
  }

  /** The counted content messages start with `I`, `B` or `R`. */
  lemma ContentMessagesOutside(x: string, y: string, z: string, b: string, r: string)
    ensures !GroupShaped("Images missing alt text (" + x + ")")
    ensures !GroupShaped("Images without dimensions (" + y + ") - affects CLS")
    ensures !GroupShaped("Images not lazy-loaded (" + z + ")")
    ensures !GroupShaped("Broken internal links found (" + b + ")")
    ensures !GroupShaped("Redirect chain (" + r + " hops)")
  {
    assert ("Images missing alt text (" + x + ")")[0] == 'I';
    assert ("Images without dimensions (" + y + ") - affects CLS")[0] == 'I';
    assert ("Images not lazy-loaded (" + z + ")")[0] == 'I';
    assert ("Broken internal links found (" + b + ")")[0] == 'B';
    assert ("Redirect chain (" + r + " hops)")[0] == 'R';
  }

  lemma ContentOutsideGroups(s: PageSignals)
    ensures Outside(ContentWarnings(s))
  {
    var x := NatToString(s.imagesMissingAlt);
    var y := NatToString(s.imagesNoDimensions);
    var z := NatToString(s.imagesNotLazy);
    var b := NatToString(s.brokenLinks);
    var r := NatToString(RedirectCount(s.redirectChainLength));
    ContentMessagesOutside(x, y, z, b, r);
    SiteLiteralsOutside();
    var w1 := When(s.imagesMissingAlt > 0, "Images missing alt text (" + x + ")");
    var w2 := When(s.wordCount < 300, "Thin content (< 300 words)");
    var w3 := When(s.imagesNoDimensions > 0 && s.totalImages > 0, "Images without dimensions (" + y + ") - affects CLS");
    var w4 := When(s.imagesNotLazy > 3, "Images not lazy-loaded (" + z + ")");
    var w5 := When(s.brokenLinks > 0, "Broken internal links found (" + b + ")");
    var w6 := When(RedirectCount(s.redirectChainLength) > 1, "Redirect chain (" + r + " hops)");
    WhenOutsideGroups(s.imagesMissingAlt > 0, "Images missing alt text (" + x + ")");
    WhenOutsideGroups(s.wordCount < 300, "Thin content (< 300 words)");
    WhenOutsideGroups(s.imagesNoDimensions > 0 && s.totalImages > 0, "Images without dimensions (" + y + ") - affects CLS");
    WhenOutsideGroups(s.imagesNotLazy > 3, "Images not lazy-loaded (" + z + ")");
    WhenOutsideGroups(s.brokenLinks > 0, "Broken internal links found (" + b + ")");
    WhenOutsideGroups(RedirectCount(s.redirectChainLength) > 1, "Redirect chain (" + r + " hops)");
    OutsideSix(w1, w2, w3, w4, w5, w6);
  }

  /** The formatted site and feature messages start with `L`, `S` or `M` followed by `a`. */
  lemma FormattedMessagesOutside(k: string, t: string, n: string, u: string)
    ensures !GroupShaped("Large page size (" + k + "KB)")
    ensures !GroupShaped("Slow response (" + t + "s)")
    ensures !GroupShaped("Many render-blocking resources (" + n + ")")
    ensures !GroupShaped("Slow TTFB (" + u + "s) - consider CDN/caching")
  {
    assert ("Large page size (" + k + "KB)")[0] == 'L';
    assert ("Slow response (" + t + "s)")[0] == 'S';
    assert ("Many render-blocking resources (" + n + ")")[0] == 'M';
    assert ("Many render-blocking resources (" + n + ")")[1] == 'a';
    assert ("Slow TTFB (" + u + "s) - consider CDN/caching")[0] == 'S';
  }

  lemma SiteOutsideGroups(url: string, underscores: bool, resp: Response, s: PageSignals)
    ensures Outside(SiteWarnings(url, underscores, resp, s))
  {
    var k := NatToString(RoundHalfEven(resp.bodyBytes, 1024));
    var t := FixedText(RoundHalfEven(resp.elapsedMicros, 100000), 10);
    FormattedMessagesOutside(k, t, "", "");
    SiteLiteralsOutside();
    var w1 := When(!s.hasRobotsTxt, "No robots.txt file");
    var w2 := When(!s.hasSitemap, "No sitemap.xml found");
    var w3 := When(resp.bodyBytes > 512000, "Large page size (" + k + "KB)");
    var w4 := When(|url| > 75, "URL too long (> 75 chars)");
    var w5 := When(underscores, "URL contains underscores (use hyphens)");
    var w6 := When(resp.elapsedMicros > 3000000, "Slow response (" + t + "s)");
    WhenOutsideGroups(!s.hasRobotsTxt, "No robots.txt file");
    WhenOutsideGroups(!s.hasSitemap, "No sitemap.xml found");
    WhenOutsideGroups(resp.bodyBytes > 512000, "Large page size (" + k + "KB)");
    WhenOutsideGroups(|url| > 75, "URL too long (> 75 chars)");
    WhenOutsideGroups(underscores, "URL contains underscores (use hyphens)");
    WhenOutsideGroups(resp.elapsedMicros > 3000000, "Slow response (" + t + "s)");
    OutsideSix(w1, w2, w3, w4, w5, w6);
  }

  lemma FeatureOutsideGroups(resp: Response, s: PageSignals)
    ensures Outside(FeatureWarnings(resp, s))
  {
    var n := NatToString(s.renderBlockingCount);
    var u := FixedText(RoundHalfEven(resp.elapsedMicros, 10000), 100);
    FormattedMessagesOutside("", "", n, u);
    FeatureLiteralsOutside();
    var w1 := When(!s.hasViewport, "Missing viewport meta tag");
    var w2 := When(s.lang == "", "Missing lang attribute on HTML");
    var w3 := When(!s.hasOgTags, "No Open Graph tags");
    var w4 := When(!s.hasSchema, "No structured data (schema.org)");
    var w5 := When(s.renderBlockingCount > 3, "Many render-blocking resources (" + n + ")");
    var w6 := When(resp.elapsedMicros > 1500000, "Slow TTFB (" + u + "s) - consider CDN/caching");
    WhenOutsideGroups(!s.hasViewport, "Missing viewport meta tag");
    WhenOutsideGroups(s.lang == "", "Missing lang attribute on HTML");
    WhenOutsideGroups(!s.hasOgTags, "No Open Graph tags");
    WhenOutsideGroups(!s.hasSchema, "No structured data (schema.org)");
    WhenOutsideGroups(s.renderBlockingCount > 3, "Many render-blocking resources (" + n + ")");
    WhenOutsideGroups(resp.elapsedMicros > 1500000, "Slow TTFB (" + u + "s) - consider CDN/caching");
    OutsideSix(w1, w2, w3, w4, w5, w6);
  }

  lemma {:induction false} KeepNone(a: seq<string>, p: string -> bool)
    requires forall m :: m in a ==> !p(m)
    ensures Keep(a, p) == []
  {
    if a != [] {
      KeepNone(a[1..], p);
    }
  }

  lemma KeepFour(a: seq<string>, b: seq<string>, c: seq<string>, d: seq<string>, p: string -> bool)
    ensures Keep(a + b + c + d, p) == Keep(a, p) + Keep(b, p) + Keep(c, p) + Keep(d, p)
  {
    KeepConcat(a + b + c, d, p);
    KeepConcat(a + b, c, p);
    KeepConcat(a, b, p);
  }

  lemma OtherOutsideGroups(url: string, https: bool, underscores: bool, resp: Response, s: PageSignals)
    ensures Outside(OtherWarnings(url, https, underscores, resp, s))
  {
    StructureOutsideGroups(https, s);
    ContentOutsideGroups(s);
    SiteOutsideGroups(url, underscores, resp, s);
    FeatureOutsideGroups(resp, s);
    OutsideFour(StructureWarnings(https, s), ContentWarnings(s), SiteWarnings(url, underscores, resp, s),
                FeatureWarnings(resp, s));
  }

  lemma H1MessagesOnly(n: nat)
    ensures forall m :: m in H1Warnings(n) ==> IsH1Message(m) && !IsTitleMessage(m) && !IsDescriptionMessage(m)
  {
    if n > 1 {
      var m := "Multiple H1 tags (" + NatToString(n) + ")";
      assert m[0] == 'M' && m[1] == 'u';
      assert m[..18] == "Multiple H1 tags (";
    }
  }

  lemma HeadsDiffer(m: string, p: string)
    requires |p| > 0
    ensures StartsWith(m, p) ==> |m| > 0 && m[0] == p[0]
  {
    if |p| <= |m| {
      assert m[..|p|][0] == m[0];
    }
  }

  lemma TitleMessagesOnly(title: string)
    ensures forall m :: m in TitleWarnings(title) ==> IsTitleMessage(m) && !IsDescriptionMessage(m) && !IsH1Message(m)
  {
    HeadsDiffer("Title too short (< 30 chars)", "Multiple H1 tags (");
    HeadsDiffer("Title too long (> 60 chars)", "Multiple H1 tags (");
    assert "Missing title"[8] != "Missing meta description"[8];
  }

  lemma DescriptionMessagesOnly(description: string)
    ensures forall m :: m in DescriptionWarnings(description) ==>
      IsDescriptionMessage(m) && !IsTitleMessage(m) && !IsH1Message(m)
  {
    HeadsDiffer("Description too short (< 120 chars)", "Multiple H1 tags (");
    HeadsDiffer("Description too long (> 160 chars)", "Multiple H1 tags (");
    assert "Missing title"[8] != "Missing meta description"[8];
  }

  /** What each group filter keeps of each block of warnings. */
  lemma TitleBlockKept(title: string)
    ensures Keep(TitleWarnings(title), IsTitleMessage) == TitleWarnings(title)
    ensures Keep(TitleWarnings(title), IsDescriptionMessage) == []
    ensures Keep(TitleWarnings(title), IsH1Message) == []
  {
    TitleMessagesOnly(title);
    KeepAll(TitleWarnings(title), IsTitleMessage);
    KeepNone(TitleWarnings(title), IsDescriptionMessage);
    KeepNone(TitleWarnings(title), IsH1Message);
  }

  lemma DescriptionBlockKept(description: string)
    ensures Keep(DescriptionWarnings(description), IsTitleMessage) == []
    ensures Keep(DescriptionWarnings(description), IsDescriptionMessage) == DescriptionWarnings(description)
    ensures Keep(DescriptionWarnings(description), IsH1Message) == []
  {
    DescriptionMessagesOnly(description);
    KeepNone(DescriptionWarnings(description), IsTitleMessage);
    KeepAll(DescriptionWarnings(description), IsDescriptionMessage);
    KeepNone(DescriptionWarnings(description), IsH1Message);
  }

  lemma H1BlockKept(n: nat)
    ensures Keep(H1Warnings(n), IsTitleMessage) == []
    ensures Keep(H1Warnings(n), IsDescriptionMessage) == []
    ensures Keep(H1Warnings(n), IsH1Message) == H1Warnings(n)
  {
    H1MessagesOnly(n);
    KeepNone(H1Warnings(n), IsTitleMessage);
    KeepNone(H1Warnings(n), IsDescriptionMessage);
    KeepAll(H1Warnings(n), IsH1Message);
  }

  lemma OtherBlockKept(url: string, https: bool, underscores: bool, resp: Response, s: PageSignals)
    ensures Keep(OtherWarnings(url, https, underscores, resp, s), IsTitleMessage) == []
    ensures Keep(OtherWarnings(url, https, underscores, resp, s), IsDescriptionMessage) == []
    ensures Keep(OtherWarnings(url, https, underscores, resp, s), IsH1Message) == []
  {
    var o := OtherWarnings(url, https, underscores, resp, s);
    OtherOutsideGroups(url, https, underscores, resp, s);
    KeepNone(o, IsTitleMessage);
    KeepNone(o, IsDescriptionMessage);
    KeepNone(o, IsH1Message);
  }

  lemma TitleGroupKept(url: string, https: bool, underscores: bool, resp: Response, s: PageSignals)
    ensures Keep(Warnings(url, https, underscores, resp, s), IsTitleMessage) == TitleWarnings(s.title)
  {
    TitleBlockKept(s.title);
    DescriptionBlockKept(s.metaDescription);
    H1BlockKept(|s.h1Texts|);
    OtherBlockKept(url, https, underscores, resp, s);
    KeepFour(TitleWarnings(s.title), DescriptionWarnings(s.metaDescription), H1Warnings(|s.h1Texts|),
             OtherWarnings(url, https, underscores, resp, s), IsTitleMessage);
  }

  lemma DescriptionGroupKept(url: string, https: bool, underscores: bool, resp: Response, s: PageSignals)
    ensures Keep(Warnings(url, https, underscores, resp, s), IsDescriptionMessage) == DescriptionWarnings(s.metaDescription)
  {
    TitleBlockKept(s.title);
    DescriptionBlockKept(s.metaDescription);
    H1BlockKept(|s.h1Texts|);
    OtherBlockKept(url, https, underscores, resp, s);
    KeepFour(TitleWarnings(s.title), DescriptionWarnings(s.metaDescription), H1Warnings(|s.h1Texts|),
             OtherWarnings(url, https, underscores, resp, s), IsDescriptionMessage);
  }

  lemma H1GroupKept(url: string, https: bool, underscores: bool, resp: Response, s: PageSignals)
    ensures Keep(Warnings(url, https, underscores, resp, s), IsH1Message) == H1Warnings(|s.h1Texts|)
  {
    TitleBlockKept(s.title);
    DescriptionBlockKept(s.metaDescription);
    H1BlockKept(|s.h1Texts|);
    OtherBlockKept(url, https, underscores, resp, s);
    KeepFour(TitleWarnings(s.title), DescriptionWarnings(s.metaDescription), H1Warnings(|s.h1Texts|),
             OtherWarnings(url, https, underscores, resp, s), IsH1Message);
  }

  // ---------------------------------------------------------------------
  // The record

  /** `error_result` with the status message and warning of the `except`
      clause that caught `failure`. */
  function ErrorRecord(url: string, failure: Failure): (r: AuditRecord)
    ensures r.url == url && r.statusCode.NotAvailable? && r.responseTime == NoTiming
    ensures r.statusMessage == "Timeout" <==> failure == TimeoutFailure
    ensures r.statusMessage == "Connection Error" <==> failure == ConnectionFailure
    ensures r.statusMessage == "Error" <==> failure == UnexpectedFailure
    ensures r.statusMessage != "OK" && r.statusMessage != "Page Error"
    ensures |r.warnings| == 1 && r.urlHasUnderscores == Contains(url, "_")
  {
    AuditRecord(
      url := url, statusCode := NotAvailable,
      statusMessage := match failure
        case TimeoutFailure => "Timeout"
        case ConnectionFailure => "Connection Error"
        case UnexpectedFailure => "Error",
      responseTime := NoTiming, title := "", metaDescription := "",
      h1Count := 0, h2Count := 0, h3Count := 0, h4Count := 0, h1Samples := [],
      canonical := "", robots := "", wordCount := 0,
      internalLinks := 0, externalLinks := 0, brokenLinks := 0,
      imagesMissingAlt := 0, imagesNoDimensions := 0, imagesNotLazy := 0, totalImages := 0,
      https := false, urlHasUnderscores := Contains(url, "_"), redirectCount := 0,
      hasRobotsTxt := false, hasSitemap := false, hasViewport := false, lang := "",
      hasOgTags := false, ogTitle := "", hasTwitterCards := false, hasSchema := false,
      schemaTypes := [], pageSizeDeciKb := 0, renderBlockingCount := 0,
      warnings := match failure
        case TimeoutFailure => ["Timeout"]
        case ConnectionFailure => ["Connection error"]
        case UnexpectedFailure => ["Unexpected error"],
      duplicateOf := None)
  }

  /** The dictionary `audit_website` returns when the page was fetched and
      `urlparse(url)` did not raise. */
  function PageRecord(url: string, path: string, resp: Response, s: PageSignals): AuditRecord {
    var https := StartsWith(resp.finalUrl, "https://");
    var underscores := Contains(path, "_");
    AuditRecord(
      url := url, statusCode := Code(resp.status),
      statusMessage := if resp.status < 400 then "OK" else "Page Error",
      responseTime := Elapsed(RoundHalfEven(resp.elapsedMicros, 10000)),
      title := s.title, metaDescription := s.metaDescription,
      h1Count := |s.h1Texts|, h2Count := s.h2Count, h3Count := s.h3Count, h4Count := s.h4Count,
      h1Samples := if |s.h1Texts| <= 3 then s.h1Texts else s.h1Texts[..3],
      canonical := s.canonical, robots := s.robots, wordCount := s.wordCount,
      internalLinks := s.internalLinks, externalLinks := s.externalLinks, brokenLinks := s.brokenLinks,
      imagesMissingAlt := s.imagesMissingAlt, imagesNoDimensions := s.imagesNoDimensions,
      imagesNotLazy := s.imagesNotLazy, totalImages := s.totalImages,
      https := https, urlHasUnderscores := underscores,
      redirectCount := RedirectCount(s.redirectChainLength),
      hasRobotsTxt := s.hasRobotsTxt, hasSitemap := s.hasSitemap, hasViewport := s.hasViewport,
      lang := s.lang, hasOgTags := s.hasOgTags, ogTitle := s.ogTitle,
      hasTwitterCards := s.hasTwitterCards, hasSchema := s.hasSchema, schemaTypes := s.schemaTypes,
      pageSizeDeciKb := RoundHalfEven(resp.bodyBytes * 10, 1024),
      renderBlockingCount := s.renderBlockingCount,
      warnings := Warnings(url, https, underscores, resp, s),
      duplicateOf := None)
  }

  /** `audit_website(url)`: the error record of the failure, or of an
      unexpected error when `urlparse(url)` raises or the analysis of the
      fetched page raises (`signals` is `None`), or the page record. The
      status message is 'OK' exactly for a parsed URL whose page was
      analysed and whose response is below 400, and 'Page Error' for one at
      400 or above; otherwise the code is 'N/A' and the record carries the
      one warning of its `except` clause. */
  function AuditResult(url: string, fetched: FetchResult, signals: Option<PageSignals>): (r: AuditRecord)
    ensures var page := fetched.Fetched? && UrlParse(url).Some? && signals.Some?;
      r.url == url
      && (r.statusMessage == "OK" <==> page && fetched.response.status < 400)
      && (r.statusMessage == "Page Error" <==> page && fetched.response.status >= 400)
      && (r.statusCode.NotAvailable? <==> !page)
      && (page ==> r.statusCode == Code(fetched.response.status))
      && (r.statusMessage == "Timeout" <==> fetched == Failed(TimeoutFailure))
      && (r.statusMessage == "Connection Error" <==> fetched == Failed(ConnectionFailure))
      && (r.statusMessage == "Error" <==> !page && fetched != Failed(TimeoutFailure) && fetched != Failed(ConnectionFailure))
      && (!page ==> |r.warnings| == 1 && r.urlHasUnderscores == Contains(url, "_") && r.responseTime == NoTiming)
  {
    match fetched
    case Failed(f) => ErrorRecord(url, f)
    case Fetched(resp) =>
      match (UrlParse(url), signals)
      case (Some(p), Some(s)) => PageRecord(url, p.path, resp, s)
      case _ => ErrorRecord(url, UnexpectedFailure)
  }


  /** The composition: retries, then the record. */
  method AuditWebsite(url: string, attempts: nat -> Attempt, maxRetries: int, signals: Option<PageSignals>)
    returns (r: AuditRecord, made: nat)
    ensures r == AuditResult(url, Retry(attempts, maxRetries, 0).0, signals)
    ensures made == Retry(attempts, maxRetries, 0).1 && 1 <= made <= AttemptCap(maxRetries)
  {
    var res;
    res, made := FetchWithRetries(attempts, maxRetries);
    RetryFacts(attempts, maxRetries, 0);
    r := AuditResult(url, res, signals);
  }
}
