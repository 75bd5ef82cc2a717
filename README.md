# zenstatus, modelled in Dafny

ZenStatus is a small website status and SEO audit tool. A Flask back end
(`check_sites.py`) crawls sitemaps, audits pages and streams the results
as Server-Sent Events. A browser front end (`static/js/`) scores and groups
the results, exports them as JSON, CSV or a Markdown summary, and keeps a
short audit history in `localStorage`.

This project models the core of both halves:

- the sitemap crawl of `fetch_sitemap_urls`, including `normalize_url`,
  `record_skip`, `add_urls` and `_extract_urlset_urls`;
- the retry, classification and warning rules of `audit_website`;
- the per-site cache (`update_site_cache_sitemap`, `get_site_info`), the
  robots rule filter and `get_redirect_chain`;
- the orchestration of `/seo-audit`: the `max_pages` clamp, the two
  duplicate maps, the batches of 300, the annotation and the final stable
  sort. The `/check` sort is modelled too;
- the browser's integer SEO score, the classifiers, the issue fixes, URL
  cleaning and the cancellable operation state (`ui.js`);
- the frame splitter and dispatcher of `streamEndpoint`, the progress
  percentage, host bucketing, warning counts, the score distribution and
  the recommendation order (`api.js`);
- CSV escaping and the three exports, with per-site file names and the
  executive-summary tallies (`export.js`);
- the audit history, the URL file upload filter and the card filter and
  sort (`main.js`);
- the storage wrapper, with its memoised availability probe and in-memory
  fallback (`storage.js`).

Everything the program gets from outside is a parameter: the network, the
parsers and the browser. This covers HTTP fetches, HEAD requests, the
parsed XML tree, the extracted HTML signals, the order in which thread
results arrive, `JSON.parse`/`JSON.stringify`, URL parsing in the browser
and the browser's store. Where the source changes state step by step, the
model does too:

- the site cache and the storage module are classes whose methods update
  fields;
- the crawl, the batches, the score and the tallies are methods with
  loops, each proved against a specification function.

The modules follow the program's structure:

| module | models |
|---|---|
| `Strings` | string built-ins |
| `Sorting` | a stable sort on pair keys |
| `Urls` | the `urlsplit`/`urlparse` subset and `normalize_url` |
| `Records` | the audit record |
| `Sitemap` | the crawl |
| `PageAudit` | `audit_website` |
| `SiteInfo` | the cache, robots and redirects |
| `Pipeline` | `seo_audit` |
| `Ui`, `Api`, `Export`, `History`, `Storage` | the browser files |

Behaviour of the code as written that a reader may not expect:

- `normalize_url` is not idempotent. A path ending in `//` loses only one
  slash per application, so `http://x/a//` becomes `http://x/a/` and then
  `http://x/a`. Likewise a host ending in the default port twice loses only
  one: `http://x:80:80/` becomes `http://x:80/` and then `http://x/`. On a
  plain http(s) URL with neither of these endings a second application
  changes nothing. The facts are proved in
  `Urls.NormalizeUrlNotIdempotent`, `Urls.NormalizeNetlocIdempotent` and
  `Urls.NormalizeUrlIdempotentSimple`.
- A literal repeat of the same raw URL is reported as a duplicate of
  itself, both in `add_urls` and in `seo_audit`'s crawled-URL map. This
  is kept as written: `Sitemap.RepeatMapsToItself`.
- `seo_audit` can end the sitemap phase with no URL from a site that did
  yield URLs. This happens when `update_site_cache_sitemap` raises inside
  the `try` after the URLs were found: the `except` drops them. The model
  keeps this path (`Pipeline.ExpandOne`).

## Model

| member | source | states |
|---|---|---|
| Strings.Contains | static/js/ui.js:233-234 | `includes`/`in` holds exactly when the substring occurs at some position |
| Strings.IndexOf | static/js/api.js:37 | the leftmost occurrence of the separator, or none when it occurs nowhere |
| Strings.Split | static/js/api.js:33 | `split` on a non-empty separator always yields at least one part |
| Strings.JoinSplit | static/js/api.js:33-34 | joining the parts of a split with the same separator gives back the input |
| Strings.SplitPartsFree | static/js/api.js:33 | no part of a split contains the separator |
| Strings.SplitAppend | static/js/api.js:32-34 | splitting a buffer extended by a chunk keeps every complete part and re-splits only the last part with the chunk |
| Strings.Lower | check_sites.py:692 | lower-casing keeps the length and maps each ASCII capital to its small letter |
| Strings.PyStripTrimmed | check_sites.py:93 | `strip` leaves no whitespace at either end, and a string already trimmed is unchanged |
| Strings.NatToString | static/js/export.js:122 | a number prints as decimal digits without a leading zero |
| Strings.NatToStringRoundTrip | static/js/export.js:122 | reading the printed digits back gives the number |
| Sorting.StableSort | check_sites.py:1021-1024 | the result is sorted by the key, is a permutation of the input, and keeps the input order among equal keys |
| Urls.RemoveTabsAndNewlines | check_sites.py:689 | `urlsplit` leaves no tab, CR or LF in the URL |
| Urls.SplitNetloc | check_sites.py:689 | after a leading `//`, the authority and the rest concatenate back to the input; without `//` there is no authority |
| Urls.CutAt | check_sites.py:689 | the first piece contains no separator, and the input is the first piece or the two pieces joined by the separator |
| Urls.UrlSplit | check_sites.py:689 | `urlsplit` never yields parameters |
| Urls.LastIndexOfSlash | check_sites.py:689 | the index of the last `/`, or -1 when there is none |
| Urls.NormalizeNetlocFacts | check_sites.py:692-696 | the normalised host has no ASCII capital and is the lower-cased host, with `:80` (http) or `:443` (https) removed at most once |
| Urls.NormalizePathFacts | check_sites.py:697-699 | the normalised path is never empty, ends in `/` only when it is the root or the input ended in `//`, and a path without a trailing slash is unchanged |
| Urls.NormalizePathIdempotent | check_sites.py:697-699 | for a path that does not end in `//`, normalising twice gives the same result as normalising once |
| Urls.UrlSplitSimple | check_sites.py:689 | `urlsplit` takes a plain http(s) URL apart into its scheme, host and path |
| Urls.UrlParseSimple | check_sites.py:689 | `urlparse` does the same and finds no parameters |
| Urls.NormalizeUrlSimple | check_sites.py:687-705 | on a plain URL, `normalize_url` gives the scheme, the normalised host and the normalised path |
| Urls.NormalizeUrlIdempotentSimple | check_sites.py:687-705 | a plain URL whose path does not end in `//` and whose host does not end in the default port written twice normalises, and normalising the result again changes nothing |
| Urls.NormalizeNetlocIdempotent | check_sites.py:692-696 | normalising a host twice is normalising it once exactly when the host does not end, ignoring case, in the default port written twice (`:80:80` for http, `:443:443` for https) |
| Urls.NormalizeUrlShape | check_sites.py:687-705 | for every input: a URL normalises exactly when `urlparse` of the stripped URL succeeds with scheme http or https; the result starts with the scheme, `://` and the normalised host, and ends with `?` and the query exactly when the query is not empty |
| Urls.NormalizeUrlExample | check_sites.py:687-705 | `http://EX.com/a/` and `http://ex.com/a` normalise to the same `http://ex.com/a` |
| Urls.NormalizeUrlNotIdempotent | check_sites.py:697-699 | `http://x/a//` normalises to `http://x/a/`, which normalises to `http://x/a` |
| Sitemap.FirstChildTagged | check_sites.py:654-657 | the first child whose tag ends with the name, or none when no child matches |
| Sitemap.LocText | check_sites.py:659-662 | the `<loc>` text comes back stripped of whitespace |
| Sitemap.UrlsetCandidates | check_sites.py:651-665 | at most one URL per entry; each is stripped and starts with http:// or https:// |
| Sitemap.ExtractUrlsetUrls | check_sites.py:648-668 | the loop returns the candidates in order, cut to `remaining` entries, and to one entry when `remaining` is below 1 |
| Sitemap.SitemapChildUrls | check_sites.py:803-814 | at most one child sitemap per entry; none is empty or already seen |
| Sitemap.ChildSitemaps | check_sites.py:803-815 | the loop computes exactly the child sitemaps |
| Sitemap.AddOne | check_sites.py:715-727 | the URL is appended to `collected` whether or not it normalises; the skip samples stay at 50 or below |
| Sitemap.AddUrls | check_sites.py:711-730 | the loop computes the new state and the count the specification gives |
| Sitemap.AddAllCollected | check_sites.py:711-730 | a non-empty list adds at least one URL; stopping early means the cap was reached; `collected` never grows past the cap |
| Sitemap.AddAllSkipBound | check_sites.py:707-709 | at most 50 skip samples are ever kept |
| Sitemap.FirstWithNorm | check_sites.py:719-722 | the first collected raw URL with a given normal form, or none when no URL has it |
| Sitemap.AddAllValid | check_sites.py:719-723 | `first_seen_norm` maps each normal form to its first raw URL; exactly the URLs whose normal form was collected before are reported, in order, each against that first URL |
| Sitemap.AddOneFirstSeen | check_sites.py:719-723 | adding one URL keeps `first_seen_norm` the map from each collected normal form to its first raw URL |
| Sitemap.AddOneDuplicates | check_sites.py:719-722 | adding one URL keeps every reported duplicate naming the first URL of its normal form |
| Sitemap.AddOneRepeats | check_sites.py:719-722 | adding one URL reports it exactly when its normal form was collected before |
| Sitemap.RepeatMapsToItself | check_sites.py:719-720 | adding the same normalisable URL twice reports it as a duplicate of itself |
| Sitemap.Visit | check_sites.py:738-830 | handling one fetched document computes the diagnostic entry, the children to enqueue and the new crawl state of the specification `VisitOutcome` |
| Sitemap.VisitEntry | check_sites.py:738-830 | the entry is logged for the URL at its depth and matches the fetch outcome (error, status of 400 or more, unparsed, index, urlset, unknown); exactly the listed children not fetched yet are enqueued, and only below the depth limit |
| Sitemap.VisitCollected | check_sites.py:816-820 | the collected URLs grow by exactly the first `found` candidates of a urlset, and by nothing for any other document; they never pass the cap |
| Sitemap.UrlsetAdded | check_sites.py:816-820 | a urlset below the cap adds all of its capped candidates, `found` counts them, and they are a prefix of the document's candidates |
| Sitemap.VisitValid | check_sites.py:711-730 | handling a document keeps the duplicate bookkeeping valid and the skip samples at 50 or below |
| Sitemap.PopPush | check_sites.py:732-736 | popping one sitemap and enqueuing its children one level deeper decreases the queue measure, so the crawl ends |
| Sitemap.Pop | check_sites.py:732-735 | popping a sitemap that is skipped keeps the queue layered by depth and decreases the measure |
| Sitemap.CrawlFrom | check_sites.py:732-833 | the crawl loop stops with an empty queue or with the cap reached |
| Sitemap.CrawlFromInv | check_sites.py:732-833 | the crawl invariant holds when the loop stops: collected URLs are exactly the logged urlset contributions, one log entry per fetched sitemap, every listed child fetched or queued, every queued or logged sitemap the start URL or a child listed earlier, duplicates bookkept |
| Sitemap.CrawlVisitInv | check_sites.py:738-833 | fetching the head of the queue keeps the crawl invariant, and so it holds when the loop stops |
| Sitemap.CrawlIteration | check_sites.py:732-833 | one iteration keeps the queue layered, decreases the termination measure, and leaves the crawl's final state unchanged |
| Sitemap.CrawlSound | check_sites.py:671-842 | the crawl collects at most `max_urls` URLs, exactly the added candidates of its urlset entries in log order; each sitemap is logged once, within the depth limit and matching its fetch, the start URL first; at most 50 skips; exactly the repeats of a normal form are reported, each against its first URL; unless the cap stopped it, every child sitemap an index listed below the depth limit was fetched; and every sitemap fetched after the start URL was listed by an index fetched before it, one level deeper |
| Sitemap.SkipKeepsOrigins | check_sites.py:733-735 | skipping the head of the queue keeps every queued sitemap the start URL or a listed child |
| Sitemap.VisitKeepsOrigins | check_sites.py:736-812 | the fetched URL is the start URL or a child listed earlier, and only children the new index lists are enqueued, at `depth + 1` |
| Sitemap.ChildListed | check_sites.py:806-812 | a child enqueued because it was not fetched yet is a child the index lists |
| Sitemap.LaterListed | check_sites.py:732-812 | in a log of distinct URLs of known origin, the start URL comes first and every later entry was listed by an earlier index |
| Sitemap.CrawlDuplicates | check_sites.py:719-722 | each duplicate the crawl reports names the first collected URL of its normal form |
| Sitemap.DebugLogSnoc | check_sites.py:822-830 | the debug log stays one entry per distinct visited sitemap, each within the depth limit and matching its fetch |
| Sitemap.LogSnoc | check_sites.py:822-830 | logging an entry adds its URL to the fetched sitemaps and its contribution to the page URLs, and keeps the first entry |
| Sitemap.FetchedOnly | check_sites.py:733-736 | a sitemap counts as fetched only when some log entry names it |
| Sitemap.FetchSitemapUrls | check_sites.py:671-842 | the returned page URLs, diagnostic log, skip samples and duplicate reports are exactly those of the crawl specification `Crawl` |
| PageAudit.RetryFacts | check_sites.py:299-312 | attempts stop at the first success or non-retryable failure, or at the attempt cap; every earlier attempt was a timeout or connection failure; the outcome is classified by the last attempt |
| PageAudit.FetchWithRetries | check_sites.py:301-312 | the loop gives the specified outcome and attempt count |
| PageAudit.TitleWarnings | check_sites.py:484-490 | at most one title warning: missing iff empty, short iff 1-29, long iff over 60, none iff 30-60 characters |
| PageAudit.DescriptionWarnings | check_sites.py:492-498 | at most one description warning: missing, under 120 or over 160, and none exactly for 120-160 characters |
| PageAudit.H1Warnings | check_sites.py:500-504 | at most one H1 warning: missing iff no H1, "Multiple H1 tags" iff more than one, none iff exactly one |
| PageAudit.RoundHalfEvenNearest | check_sites.py:545-546 | `round` lands within half a unit of the exact quotient, and an exact tie goes to the even neighbour |
| PageAudit.OtherOutsideGroups | check_sites.py:506-578 | no other warning is a title, description or H1 message |
| PageAudit.TitleGroupKept | check_sites.py:482-504 | the title messages in the full warning list are exactly the title rule's output |
| PageAudit.DescriptionGroupKept | check_sites.py:482-504 | the description messages in the full list are exactly the description rule's output |
| PageAudit.H1GroupKept | check_sites.py:482-504 | the H1 messages in the full list are exactly the H1 rule's output |
| PageAudit.AuditResult | check_sites.py:580-645 | 'OK' iff the page was fetched, its URL parsed and its analysis did not raise, with status below 400; 'Page Error' likewise at 400 and above; the failure records are 'Timeout', 'Connection Error' or 'Error' (any other exception, including one raised while analysing the page), with status 'N/A' and one warning |
| PageAudit.AuditWebsite | check_sites.py:299-645 | the audit is the classification of the retried fetch, after between 1 and the capped number of attempts |
| SiteInfo.RulesOf | check_sites.py:92-101 | never more rules than lines |
| SiteInfo.RulesOfMembers | check_sites.py:93-96 | the rules are exactly the `Disallow:`/`Allow:` lines, in their order in the file, so `[:20]` keeps the first twenty |
| SiteInfo.RulesStripped | check_sites.py:93-96 | each kept rule is stripped of surrounding whitespace |
| SiteInfo.ScanRobots | check_sites.py:92-101 | the loop yields the rules and the sitemap line of the stripped lines |
| SiteInfo.CountListed | check_sites.py:113-116 | the sitemap URL count is at most the number of entries |
| SiteInfo.FreshEntry | check_sites.py:74-120 | robots content is cut to 2000 characters and rules to 20; without robots.txt both are empty; a found sitemap has a URL |
| SiteInfo.SiteCache.constructor | check_sites.py:30 | the cache starts empty |
| SiteInfo.SiteCache.GetSiteInfo | check_sites.py:59-123 | an unparsable URL changes nothing; a cached domain is returned as is; otherwise a fresh entry is added for the domain and nothing else changes |
| SiteInfo.SiteCache.UpdateSitemap | check_sites.py:33-56 | succeeds iff the domain parses; then only that domain's entry changes, to its upgraded form |
| SiteInfo.Upgraded | check_sites.py:41-56 | the entry gets the sitemap and keeps its robots data; a zero count keeps the old count; a new domain gets an entry without robots.txt |
| SiteInfo.SitemapMarkSticks | check_sites.py:33-72 | after a sitemap is recorded for a site, the next lookup reports it |
| SiteInfo.ChainShape | check_sites.py:139-168 | the chain starts at the URL, has at most `max_redirects` hops, each hop but the last is a redirect to the next, and a chain shorter than the limit ends at a non-redirect |
| SiteInfo.RedirectChain | check_sites.py:139-168 | the loop computes the specified chain |
| Pipeline.ClampMaxPages | check_sites.py:901-905 | `max_pages` is clamped to [1, 10000]; a value that cannot be converted gives 100 |
| Pipeline.RegisterOneKeeps | check_sites.py:939-946 | every URL with an earlier URL of the same crude key is mapped, the map only grows, and each mapping is to a URL of the same key |
| Pipeline.RegisterNext | check_sites.py:939-946 | one pass of the `for u in crawled_urls` loop keeps the duplicate invariant and every existing mapping |
| Pipeline.RegisterCrawled | check_sites.py:939-946 | the loop keeps the duplicate invariant over all crawled URLs and never changes an existing mapping |
| Pipeline.DuplicateEquivalent | check_sites.py:926-930 | a duplicate reported by the crawl has the same normal form as the URL it duplicates |
| Pipeline.AddCrawlDuplicates | check_sites.py:926-930 | every reported duplicate is mapped, to an equivalent URL, and no mapping is lost |
| Pipeline.ExpandOne | check_sites.py:918-961 | one entered URL appends exactly its contribution (`Contributed`): the crawled URLs when the cache update succeeds, nothing when it raises, the entered URL itself when nothing was crawled and its crude key is new; the duplicate invariant is kept, the notes are the crawl's entries plus the failure note, and only that domain's cache entry changes |
| Pipeline.SeenIsKeys | check_sites.py:939-946 | the keys of `seen_crawled` are exactly the crude keys of the URLs collected so far |
| Pipeline.ExpandNext | check_sites.py:918-961 | one pass of the loop over the entered URLs extends the list to the expansion of one more entered URL |
| Pipeline.ExpandedGrows | check_sites.py:918-961 | the expansion of the first entered URLs is a prefix of the expansion of all of them |
| Pipeline.EnteredKept | check_sites.py:956-961 | an entered URL whose crawl found nothing is audited itself, unless a URL with the same crude key already is |
| Pipeline.ExpandedFrom | check_sites.py:918-961 | every expanded URL is an entered URL or a URL the crawl of some entered URL collected |
| Pipeline.ExpandSitemaps | check_sites.py:911-972 | the audited URLs are the expansion of the entered URLs when it is not empty, and the entered URLs otherwise, with a "nothing found" note last; every mapping is between equivalent URLs, and with sitemap URLs every later URL of a repeated crude key is mapped |
| Pipeline.PoolSize | check_sites.py:991 | the pool size is the batch length clamped to [2, 8] |
| Pipeline.BatchesCover | check_sites.py:987-990 | the batches concatenate back to the URLs; each holds 1 to 300 URLs; all but the last are full; there are ceil(n/300) of them |
| Pipeline.Annotate | check_sites.py:1001-1008 | an unmapped result is unchanged; a mapped one gains 'Duplicate URL' at most once |
| Pipeline.AnnotateIdempotent | check_sites.py:1007-1008 | annotating twice gives the same result as annotating once |
| Pipeline.AuditAll | check_sites.py:993-1009 | one annotated audit per URL, in order |
| Pipeline.RunBatch | check_sites.py:992-1017 | a batch's results, in whatever order they arrive, are a permutation of its annotated audits, and `completed` rises by one per result |
| Pipeline.BatchStep | check_sites.py:987-1019 | after each batch the results are a permutation of the audits of the URLs so far, each batch is complete, and progress counts 1, 2, ... |
| Pipeline.RunBatches | check_sites.py:987-1019 | all results are a permutation of the annotated audits of all URLs, and `completed` ends at the total |
| Pipeline.SortSeoResults | check_sites.py:1021-1024 | a permutation with the 'OK' records first, then ascending status code (999 when not a number), equal keys in arrival order |
| Pipeline.SortCheckResults | check_sites.py:880-883 | a permutation with the sites that are not 'Online' first, then ascending status code, equal keys in arrival order |
| Pipeline.SeoAudit | check_sites.py:895-1033 | a request without URLs gets the right 400 message; otherwise the audited URLs are the expansion of the entered URLs (or the entered URLs when sitemaps are off or yield nothing); the results are a permutation of the annotated audits of those URLs, batch by batch, one progress count per result counting up from 1, sorted with the 'OK' results first and then by ascending status code |
| Ui.AltPenalty | static/js/ui.js:174-177 | zero iff no image lacks alt text, otherwise between 3 and 10 |
| Ui.BrokenLinkPenalty | static/js/ui.js:186-188 | twice the broken links, capped at 8 |
| Ui.DimensionPenalty | static/js/ui.js:178-180 | nothing up to 10 images without size, then 3 to 7 |
| Ui.LazyPenalty | static/js/ui.js:181-183 | nothing up to 10 images not lazy-loaded, then 2 to 6 |
| Ui.RenderBlockingPenalty | static/js/ui.js:197-199 | nothing up to 20 blocking resources, then 2 to 8 |
| Ui.ResponsePenalty | static/js/ui.js:200-205 | 0, 2, 4 or 6; zero exactly for no timing or at most one second |
| Ui.PageSizePenalty | static/js/ui.js:206-208 | nothing below 2500 KB, never more than 5 |
| Ui.Clamp100 | static/js/ui.js:210 | the result lies in [0, 100], and a score already in range is unchanged |
| Ui.SeoScore | static/js/ui.js:137-211 | the score is in [0, 100]; 100 iff nothing is deducted; otherwise 100 minus the deductions when they are at most 100 |
| Ui.CalculateSeoScore | static/js/ui.js:137-211 | the step-by-step subtraction and clamp computes the specified score |
| Ui.MoreMissingAltNeverHelps | static/js/ui.js:174-177 | more images without alt never raise the score |
| Ui.MoreBrokenLinksNeverHelp | static/js/ui.js:186-188 | more broken links never raise the score |
| Ui.HttpsHelps | static/js/ui.js:146 | serving over HTTPS never lowers the score, and raises it by 15 when nothing clamps |
| Ui.ErrorRecordScore | static/js/ui.js:137-211 | a failed fetch's record scores 5 with an underscore in the URL and 8 without |
| Ui.ScoreClass | static/js/ui.js:213-219 | each class holds exactly for its score band (90, 70, 50, 30) |
| Ui.ScoreLabel | static/js/ui.js:221-227 | each label holds exactly for the same bands |
| Ui.ClassAgreesWithLabel | static/js/ui.js:213-227 | the class is always 'score-' followed by the lower-cased label |
| Ui.AnyIn | static/js/ui.js:233-234 | true iff some key is a substring of the warning |
| Ui.SeverityClass | static/js/ui.js:229-236 | high iff a high key matches; medium iff no high key and a medium key matches; low otherwise |
| Ui.IssuePriority | static/js/ui.js:239-248 | the score is 10, 7, 4 or 2, by the first matching tier in the order critical, high, medium, low |
| Ui.CriticalIsHighSeverity | static/js/ui.js:229-248 | a critical issue is always shown with the high severity class |
| Ui.FirstMatch | static/js/ui.js:492-496 | the first table entry whose key occurs in the warning, or none when no key occurs |
| Ui.IssueFix | static/js/ui.js:467-519 | the advice of the first matching table key, else of the first matching fallback, else the default |
| Ui.RemoveCR | static/js/ui.js:95 | no carriage return remains |
| Ui.CleanLine | static/js/ui.js:99-106 | a blank line is dropped; any other line comes back with an http(s) scheme, ending with the trimmed line |
| Ui.FilterMapSound | static/js/ui.js:97-108 | at most one output per line, and each output comes from a line |
| Ui.FilterMapComplete | static/js/ui.js:97-108 | every line that yields a value contributes it |
| Ui.FilterMapInOrder | static/js/ui.js:97-108 | the k-th output is the value of the input at the k-th position that has one |
| Ui.CleanLinesFacts | static/js/ui.js:92-109 | no more URLs than lines; each comes from a non-blank line and has an http(s) scheme; every non-blank line yields one |
| Ui.ReadUrls | static/js/ui.js:92-109 | the loop computes the cleaned lines of the CR-free text |
| Ui.Controller.constructor | static/js/ui.js:37 | a new controller is not aborted |
| Ui.Controller.Abort | static/js/ui.js:35 | the controller is aborted |
| Ui.OperationState.constructor | static/js/ui.js:7-8 | no controller, an empty name, cancel disabled |
| Ui.OperationState.StartOperation | static/js/ui.js:33-41 | a running controller is aborted first; a fresh controller is installed; the name defaults to 'operation'; cancel is enabled |
| Ui.OperationState.ClearOperationState | static/js/ui.js:43-47 | no controller, an empty name, cancel disabled |
| Ui.OperationState.CancelCurrentOperation | static/js/ui.js:49-56 | with no operation only the toast is shown; otherwise the controller is aborted |
| Api.FrameCall | static/js/api.js:36-50 | only frames starting with `data: ` whose JSON parses trigger a callback, and only when the handler exists and the event type matches |
| Api.ErrorMessage | static/js/api.js:49 | the error message is never empty |
| Api.FrameError | static/js/api.js:48-50 | only a parsed `error` event records an error |
| Api.CallsConcat | static/js/api.js:35-51 | the callbacks of two runs of frames are the callbacks of each, in order |
| Api.StreamOutcome | static/js/api.js:29-76 | every complete frame dispatches in order; a recorded error is thrown after the stream ends; the trailing buffer adds at most one `onComplete`, and only if none was dispatched earlier |
| Api.ReadStep | static/js/api.js:32-34 | the complete frames of the stream are those of the earlier buffer followed by those of the new buffer, so where reads cut the stream does not matter |
| Api.DispatchFrames | static/js/api.js:35-51 | the loop computes the callbacks, the `completed` flag and the last error of the frames |
| Api.ReadChunk | static/js/api.js:30-53 | one read appends the chunk to the buffer, dispatches the newly completed frames and keeps the unfinished last line, as the whole text read so far determines |
| Api.StreamResult | static/js/api.js:9-76 | a rejected `fetch` is passed on with no callback run; a status outside 200-299 throws 'Server responded with status N' before any read; otherwise every complete frame read is dispatched in order, an abort mid-stream then passes on the read's rejection, and a stream that ends has the outcome of its whole text |
| Api.StreamEndpoint | static/js/api.js:9-76 | the status check and the read loop give `StreamResult` of what the browser delivered, whatever the chunking |
| Api.ProgressPercentBounds | static/js/api.js:111 | the exact percentage rounded half up; 0 for no total; in [0, 100] when `completed <= total`; 100 when done |
| Api.ProgressMonotone | static/js/api.js:110-111 | the bar never moves backwards as results arrive |
| Api.BucketHostOccurs | static/js/api.js:240-247 | a bucket exists only for a host some result has |
| Api.InBucketMembers | static/js/api.js:240-247 | a bucket holds only results of its own host |
| Api.BucketsStep | static/js/api.js:244-246 | pushing one result keeps the map a grouping by host |
| Api.BucketBySite | static/js/api.js:240-247 | every result's host has a non-empty bucket holding that host's results in order, and no other bucket exists |
| Api.ScoreSum | static/js/api.js:262-265 | the total is at most 100 per result |
| Api.TotalScore | static/js/api.js:262-265 | the loop computes the sum of the scores |
| Api.RoundedMeanBound | static/js/api.js:266 | the rounded mean of scores of at most 100 lies in [0, 100] and within half of the exact mean |
| Api.AverageScore | static/js/api.js:266 | in [0, 100], and the nearest integer to the mean score, halves up |
| Api.CountsStep | static/js/api.js:271-273 | one `warningCounts[w]++` keeps the map the occurrence count |
| Api.CountInto | static/js/api.js:271-273 | the inner loop extends the counts by one result's warnings |
| Api.CountWarnings | static/js/api.js:269-274 | the map holds exactly the warnings seen, each with its number of occurrences |
| Api.FirstOccurrences | static/js/api.js:275 | each warning that occurs appears once, and in the order of its first occurrence |
| Api.WarningsByCount | static/js/api.js:275-276 | the distinct warnings, each once, most frequent first, and warnings counted equally in order of first occurrence |
| Api.TopFacts | static/js/api.js:275-278 | the cut entries occur, with their true counts, in non-increasing order; a warning left out means the list is full of warnings counted at least as often |
| Api.TopWarnings | static/js/api.js:275-278 | at most `limit` entries with true positive counts, in non-increasing order; a warning left out counts no more than any kept one |
| Api.TopWarningsOnce | static/js/api.js:275-278 | no warning is listed twice, and warnings counted equally appear in order of first occurrence |
| Api.TopTies | static/js/api.js:275-278 | the cut of a distinct list ordered by first occurrence among ties keeps both properties |
| Api.ByCountTies | static/js/api.js:275-276 | the stable sort of the first occurrences keeps them distinct and in first-occurrence order among equal counts |
| Api.DistributionPartitions | static/js/api.js:304-312 | the five buckets sum to the number of results, and each bucket counts the results whose score class it is |
| Api.ScoreDistribution | static/js/api.js:304-312 | the loop computes the distribution |
| Api.SortRecommendations | static/js/api.js:671-672 | a permutation ordered high, medium, low; within a severity the order they were pushed |
| Export.RowBreak | static/js/export.js:84 | the row break starts with a character that ends an unquoted field and is not a comma |
| Export.UnquotedIsBare | static/js/export.js:40-46 | a value left unquoted has no double quote and no character that would end the field early |
| Export.EscapeCsv | static/js/export.js:40-46 | null gives ''; a value needing quotes is wrapped in double quotes; any other value is unchanged |
| Export.QuotedReadsBack | static/js/export.js:43 | a quoted body with doubled quotes reads back as the original value |
| Export.FieldReadsBack | static/js/export.js:40-46 | every escaped value reads back as itself, in both variants |
| Export.RecordReadsBack | static/js/export.js:81 | a comma-joined escaped row reads back as its values |
| Export.RowsReadBack | static/js/export.js:84 | rows joined by the row break read back as the rows |
| Export.DocumentReadsBack | static/js/export.js:84 | a header without special characters followed by the rows reads back as header and rows |
| Export.SeoRow | static/js/export.js:50-81 | each row has as many fields as the 30 headers |
| Export.SiteRow | static/js/export.js:129-162 | each per-site row has as many fields as the 23 headers |
| Export.HeadersPlain | static/js/export.js:31-38 | no header name needs quoting |
| Export.SeoCsvReadsBack | static/js/export.js:31-84 | the CSV reads back as the 30 headers and one 30-field record per result, holding exactly the values written |
| Export.SiteCsvReadsBack | static/js/export.js:129-164 | a per-site CSV reads back as the 23 headers and one 23-field record per result |
| Export.ExportSeoJson | static/js/export.js:11-23 | refused with the toast iff there are no results; otherwise one `seo-audit.json` download of type `application/json` holding the serialised results, and the success toast |
| Export.ExportSeoCsv | static/js/export.js:25-92 | refused iff there are no results; otherwise one `seo-audit.csv` of type `text/csv` that reads back as headers and rows, and the success toast |
| Export.SiteHost | static/js/export.js:112 | the host key is never empty ('unknown-site' stands in) |
| Export.SiteHosts | static/js/export.js:109-118 | the distinct hosts of the results, each once, in order of first occurrence |
| Export.HostListed | static/js/export.js:109-118 | the host of every result is among the listed hosts |
| Export.SanitizeHost | static/js/export.js:168 | same length, each character kept when in `[a-zA-Z0-9_-]` and replaced by '_' otherwise |
| Export.SanitizeSafe | static/js/export.js:168 | sanitised names use only safe characters, and sanitising again changes nothing |
| Export.GroupBySite | static/js/export.js:109-115 | the map groups the results by host, in order |
| Export.DownloadNext | static/js/export.js:120-172 | the download for one host is the CSV of exactly that host's results |
| Export.SiteFilesAt | static/js/export.js:120-176 | the i-th download is the file of the i-th host |
| Export.ExportSeoPerSiteCsv | static/js/export.js:94-177 | refused iff there are no results; otherwise one file per host, in order, each of type `text/csv;charset=utf-8;`, and the toast gives their number |
| Export.PerSiteFilesPartition | static/js/export.js:109-176 | every result is written to the file of its own host |
| Export.PerSiteFileReadsBack | static/js/export.js:120-164 | each per-site file reads back as the headers and one record per result of that host |
| Export.IssueCountOf | static/js/export.js:193-198 | high, medium and low sum to the number of warning occurrences |
| Export.CountMapUnique | static/js/export.js:194 | a map that counts the warnings is the count map |
| Export.CountSeverity | static/js/export.js:195-198 | exactly one of the three counters rises by one |
| Export.TallyWarnings | static/js/export.js:193-199 | the inner loop keeps the counts and the severity tally of all warnings seen |
| Export.SummaryStep | static/js/export.js:191-200 | one result adds its score and its warnings to the running totals |
| Export.ExecutiveSummary | static/js/export.js:179-217 | refused iff there are no results; otherwise the page count, the rounded mean score and its label, a severity tally summing to all warning occurrences, and the ten most frequent warnings |
| Export.MeanScore | static/js/export.js:202 | `Math.round` of the mean is the specified average |
| Export.TopIssues | static/js/export.js:215-217 | the ten most frequent warnings, with the properties of the top-warnings cut |
| Storage.Lookup | static/js/storage.js:101 | the stored value when the key is present, the default otherwise |
| Storage.ProbedLocal | static/js/storage.js:57-72 | a passing probe leaves the browser's store without the test key; a failing probe changes nothing |
| Storage.StoreItem | static/js/storage.js:118-134 | the memory always takes the value; the browser's store takes it, and the result is true, exactly when it is available and the write fits |
| Storage.ReadItem | static/js/storage.js:96-110 | the browser's store answers when available and the read does not throw; the memory answers otherwise |
| Storage.DropItem | static/js/storage.js:140-152 | the key leaves the memory always, and the browser's store when it is available |
| Storage.ReadJson | static/js/storage.js:160-171 | the default when nothing is stored or the text does not parse; the parsed value otherwise |
| Storage.StoreJson | static/js/storage.js:179-185 | a value that cannot be serialised changes nothing and gives false; otherwise `setItem` of its text |
| Storage.StoreThenRead | static/js/storage.js:96-134 | a stored value reads back, unless the available store refused it and the read goes to the store |
| Storage.StoreOtherKey | static/js/storage.js:118-134 | writing one key leaves every other key's reading unchanged |
| Storage.DropThenRead | static/js/storage.js:96-152 | a removed key reads as the default |
| Storage.JsonThenRead | static/js/storage.js:160-185 | a value that round-trips through JSON and is stored where it is read reads back as itself |
| Storage.ZenStorage.constructor | static/js/storage.js:22-23 | availability unknown, an empty memory fallback |
| Storage.ZenStorage.TestStorage | static/js/storage.js:43-80 | the flag is the probe outcome, computed once and then cached; only the first call touches the store, and it leaves no test key behind |
| Storage.ZenStorage.GetItem | static/js/storage.js:96-110 | returns the specified read after availability is settled, changing nothing else |
| Storage.ZenStorage.SetItem | static/js/storage.js:118-134 | the new contents and the result are those of the specified store |
| Storage.ZenStorage.RemoveItem | static/js/storage.js:140-152 | the new contents are those of the specified removal |
| Storage.ZenStorage.GetJson | static/js/storage.js:160-171 | returns the specified JSON read |
| Storage.ZenStorage.SetJson | static/js/storage.js:179-185 | a value that cannot be serialised leaves everything, the flag included, unchanged and gives false; otherwise the specified JSON store |
| History.MakeEntry | static/js/main.js:45-56 | the entry carries the results, `pageCount` equal to their number, the distinct hosts of the results in order of first appearance, and the rounded mean score |
| History.DistinctSites | static/js/main.js:49-51 | each host of the results appears once, in order of first appearance |
| History.KeepNewest | static/js/main.js:60 | a prefix of the history, at most n long |
| History.PushedFacts | static/js/main.js:58-61 | the new entry is first, at most 10 entries are kept, and the older ones follow in their order |
| History.SavedReadsBack | static/js/main.js:58-67 | after a save, the history reads back as the pushed list when it fits, as its first 5 entries when only those fit, and unchanged otherwise |
| History.SavedHistoryShape | static/js/main.js:58-67 | whichever list is written starts with the new entry, followed by a prefix of the old history, and has at most 10 entries |
| History.WriteHistory | static/js/main.js:63-67 | a failed write retries with the first 5 entries |
| History.SaveAuditToHistory | static/js/main.js:40-71 | no results change nothing; otherwise availability is settled and the store holds the specified save |
| History.FindEntry | static/js/main.js:83 | the first entry with the id, or none iff no entry has it |
| History.LoadFrom | static/js/main.js:83-116 | the results are shown iff an entry with the id exists and has results |
| History.LoadAuditFromHistory | static/js/main.js:77-122 | the outcome of looking the id up in the stored history, with nothing else changed |
| History.SaveThenLoad | static/js/main.js:40-116 | loading the entry a save just put first shows the saved results and date |
| History.ClearAuditHistory | static/js/main.js:124-129 | the history key is removed |
| History.ClearedHistoryEmpty | static/js/main.js:124-129 | after clearing, the history reads as empty |
| History.SplitBreaks | static/js/main.js:172 | `split(/[\r\n]+/)` gives at least one part, none containing a line break |
| History.SplitBreaksJoin | static/js/main.js:172 | the parts joined by "\n" are the text with each run of line breaks collapsed to one "\n" |
| History.UploadedUrls | static/js/main.js:172-174 | exactly the pieces that are not blank and do not start with '#', in their order, repeats kept |
| History.LoadUrlFile | static/js/main.js:178-179 | the text area gets the kept lines joined by "\n", and the toast gives their number |
| History.UploadReadsBack | static/js/main.js:172-178 | splitting the text area's value on newlines gives back the kept lines |
| History.FilterMeaning | static/js/main.js:226-229 | 'good' and 'poor' split the cards at 70; 'issues' shows exactly the cards with issues; anything else shows all |
| History.CompareIsKeyOrder | static/js/main.js:239-249 | each comparator is the order of a sort key: ascending score, descending score or descending issues |
| History.ArrangeGroup | static/js/main.js:235-256 | a permutation; for a non-default sort it is sorted by the key and stable |
| History.UnknownSortKeepsOrder | static/js/main.js:245-248 | an unknown sort name leaves the cards in place |

## Left out

- RedirectChain: `urljoin` is a total parameter. When it raises on a `Location` value (check_sites.py:159), the bare `except` (check_sites.py:164-165) appends a second hop `(url, 0)` for the same URL and stops; the model does not produce that chain.
- FrameCall: the `JSON.parse` parameter yields an event or nothing. A frame `data: null` parses to `null`, and reading `data.type` then throws out of `streamEndpoint` (static/js/api.js:45); that outcome is not modelled.
- UrlSplit: `urlsplit` is modelled as in Python 3.11.4 and later (leading C0 controls and spaces stripped, tabs and newlines removed), for ASCII input, but without `_check_bracketed_host`: only the unbalanced-bracket `ValueError` is raised. The `_check_bracketed_host` check (a bracketed host that is not an IPv6 or IPvFuture address, such as `http://[abc]/`, raises) and `_checknetloc` (which examines only non-ASCII netlocs) are not modelled, so such a URL normalises instead of being skipped as 'normalize-failed'.
- Export.SeoCsvReadsBack: `exportSeoCsv` quotes a value only for `"`, `,` and `\n` (static/js/export.js:42), so a carriage return inside a value is written unquoted. The reader here follows the writer's own convention and keeps it as field content. RFC 4180 allows no carriage return in an unquoted field, so a reader of that format may split the record there; the round trip is proved only for the writer's own reader.
- HTTP transport, HTML extraction, XML and gzip parsing: fetches, HEAD requests and the parsed tree are inputs (oracle functions), and so are the page signals that BeautifulSoup extracts. An exception raised while extracting them (such as `urlparse` of a malformed `href`) is an input too: the audit then receives no signals.
- Floating point: response times are held in hundredths of a second and page sizes in tenths of a KB, with the thresholds compared exactly. The `:.2f` text and the timings inside the warning messages come from a rounding helper, not from Python float formatting.
- Threads, `time.sleep` backoff, keep-alive comments and SSE text emission: `as_completed` becomes an arbitrary choice of the next finished URL (`pick`), and only the results and progress counts are modelled.
- Flask routing and `check_website_status`: only the `/check` result order is modelled.
- The abort signal reaches `Api.StreamEndpoint` only as what the browser delivers (a rejected `fetch`, or a rejected read after the chunks so far); its link to the `Ui.Controller` that `cancelCurrentOperation` aborts is not modelled.
- The browser's URL parser (`a.href`), `urljoin`, `JSON.parse`, `JSON.stringify` and `TextDecoder` are parameters.
- `Strings.Lower` lower-cases ASCII letters only; Python's and JavaScript's full Unicode case mapping is not modelled.
- The `max_pages` request value is a `PagesParam`: either an integer or a value `int()` rejects. Other conversions, such as floats and numeric strings, are not distinguished.
- Audit record fields that are derived from other fields (`title_length`, `meta_description_length`) are computed from the strings. Fields the models never read are left out of the record.
- `Api.AverageScore` and `Api.ProgressPercent`: `Math.round` is applied to the exact rational, not the floating-point quotient. The two can differ only when the float rounds across a half.
- JavaScript's ordering of integer-like object keys (`Object.keys` lists "123" before "abc") is not modelled: hosts and warnings are listed in insertion order.
- `displaySeoResults`: the averages of words and response times, the per-page status badge, and the conditions that push each recommendation are not modelled; only the recommendation sort is.
- `generateExecutiveSummary` and the Markdown text of `exportExecutiveSummary` are not modelled; only its figures are.
- The DOM, toasts, modals, Blob downloads, `FileReader`, the `setTimeout` download chain, `printSeoReport`, static/js/themes.js and wsgi.py are not part of this model.
- Storage.ZenStorage.TestStorage: the probe's own read and remove are taken not to throw. A store that drops a write without throwing is not modelled.
- Storage.ZenStorage.RemoveItem: the silently caught exception of the browser's `removeItem` is not modelled; removal from an available store always succeeds.
- Storage.StoreItem: the quota is per value (`capacity`), not a total over all keys. `_isRestrictedContext` is an input flag.
- History.LoadAuditFromHistory: the display calls, toasts and tab switching after a successful lookup are not modelled. The ids come in as integers, with `parseInt` of the data attributes left out.
- `updateHistoryUI` rendering and the highlighting of the active filter button are not modelled.
- In the page audit, `canonical` absent is the empty string, so `None` and `''` are not distinguished.
