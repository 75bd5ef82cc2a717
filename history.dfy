/** The application glue of the browser (static/js/main.js): the audit
    history kept in the wrapped key-value store, newest first and bounded;
    the URL file upload's line filter; and the filter and sort of the result
    cards. */
module History {
  import opened Strings
  import opened Sorting
  import opened Records
  import Ui
  import Api
  import opened Storage

  // ---------------------------------------------------------------------
  // Audit history

  const HistoryKey: string := "zenStatusAuditHistory"
  const MaxHistory: nat := 10
  /** The length the history is cut to when writing it failed. */
  const RetryKeep: nat := 5
  /** The site of a result whose URL does not parse. */
  const UnknownSite: string := "unknown"

  /** One saved audit: `id` is `Date.now()` and `date` its ISO text, both
      supplied by the caller. */
  datatype Entry = Entry(id: int, date: string, pageCount: nat, sites: seq<string>,
                         avgScore: int, results: seq<AuditRecord>)

  /** `new URL(r.url).hostname`, `'unknown'` where the URL constructor
      throws (`hostOf` gives `None`). */
  function SiteOf(r: AuditRecord, hostOf: string -> Option<string>): string {
    match hostOf(r.url)
    case None => UnknownSite
    case Some(h) => h
  }

  /** The site of each result, in result order. */
  function SitesOf(results: seq<AuditRecord>, hostOf: string -> Option<string>): (hs: seq<string>)
    ensures |hs| == |results|
    ensures forall i :: 0 <= i < |results| ==> hs[i] == SiteOf(results[i], hostOf)
  {
    if results == [] then []
    else SitesOf(results[..|results| - 1], hostOf) + [SiteOf(results[|results| - 1], hostOf)]
  }

  /** `[...new Set(results.map(...))]`: each site once, in order of first
      appearance. */
  function DistinctSites(results: seq<AuditRecord>, hostOf: string -> Option<string>): (sites: seq<string>)
    ensures forall s :: s in sites <==> s in SitesOf(results, hostOf)
    ensures forall i, j :: 0 <= i < j < |sites| ==> sites[i] != sites[j]
    ensures forall i, j :: 0 <= i < j < |sites| ==> Api.FirstBefore(SitesOf(results, hostOf), sites[i], sites[j])
  {
    Api.FirstOccurrences(SitesOf(results, hostOf))
  }

  /** The history entry `saveAuditToHistory` builds: one page per result,
      the distinct sites in order of first appearance and the rounded mean
      score. */
  function MakeEntry(results: seq<AuditRecord>, id: int, date: string,
                     hostOf: string -> Option<string>): (e: Entry)
    ensures e.id == id && e.date == date && e.results == results
    ensures e.pageCount == |results|
    ensures e.sites == DistinctSites(results, hostOf)
    ensures e.avgScore == Api.AverageScore(results)
  {
    Entry(id, date, |results|, DistinctSites(results, hostOf), Api.AverageScore(results), results)
  }

  /** `h.slice(0, n)`: the first `n` entries, or all of them. */
  function KeepNewest(h: seq<Entry>, n: nat): (r: seq<Entry>)
    ensures |r| == if |h| <= n then |h| else n
    ensures r == h[..|r|]
  {
    if |h| > n then h[..n] else h
  }

  /** `history.unshift(entry)` followed by the cut to `MAX_HISTORY`. */
  function Pushed(prior: seq<Entry>, entry: Entry): seq<Entry> {
    KeepNewest([entry] + prior, MaxHistory)
  }

  /** The new entry comes first, at most ten entries are kept, and the kept
      older entries are the newest of the previous history in their order. */
  lemma PushedFacts(prior: seq<Entry>, entry: Entry)
    ensures var h := Pushed(prior, entry);
      |h| == (if |prior| < MaxHistory then |prior| + 1 else MaxHistory)
      && h[0] == entry && h[1..] == prior[..|h| - 1]
  {
    var h := Pushed(prior, entry);
    assert h == ([entry] + prior)[..|h|];
    assert h[1..] == prior[..|h| - 1];
  }

  /** The store after `saveAuditToHistory` on available storage, from
      contents whose availability is known: the history read with
      `getJSON(HISTORY_KEY, [])`, the pushed history written with
      `setJSON`, and, when that write fails, its five newest entries
      written once more. Unavailable storage is left as it is. */
  function Saved(env: Env, c: Cells, entry: Entry, parse: string -> Option<seq<Entry>>,
                 stringify: seq<Entry> -> Option<string>, readThrows: bool): Cells
  {
    if !Probe(env) then c
    else
      Written(env, c, Pushed(ReadJson(env, c, HistoryKey, [], parse, readThrows), entry), stringify)
  }

  /** What the history reads as after a save, when the serialisation of
      every history parses back: the pushed history when its text fits the
      quota; otherwise its five newest entries when the read goes to the
      memory fallback or their text fits; otherwise (both writes refused by
      the browser's store, which is read) the history as before. */
  lemma SavedReadsBack(env: Env, c: Cells, entry: Entry, parse: string -> Option<seq<Entry>>,
                       stringify: seq<Entry> -> Option<string>, readThrows: bool)
    requires Probe(env)
    requires forall h :: stringify(h).Some? && parse(stringify(h).value) == Some(h)
    ensures var prior := ReadJson(env, c, HistoryKey, [], parse, readThrows);
      var h := Pushed(prior, entry);
      var short := KeepNewest(h, RetryKeep);
      var r := ReadJson(env, Saved(env, c, entry, parse, stringify, readThrows), HistoryKey, [], parse, readThrows);
      (Fits(env, stringify(h).value) ==> r == h)
      && (!Fits(env, stringify(h).value) && (readThrows || Fits(env, stringify(short).value)) ==> r == short)
      && (!Fits(env, stringify(h).value) && !readThrows && !Fits(env, stringify(short).value) ==> r == prior)
  {
    var prior := ReadJson(env, c, HistoryKey, [], parse, readThrows);
    var h := Pushed(prior, entry);
    var short := KeepNewest(h, RetryKeep);
    var (c1, ok) := StoreJson(env, c, HistoryKey, h, stringify);
    if ok {
      JsonThenRead(env, c, HistoryKey, h, [], stringify, parse, readThrows);
    } else {
      var c2 := StoreJson(env, c1, HistoryKey, short, stringify).0;
      assert Saved(env, c, entry, parse, stringify, readThrows) == Written(env, c, h, stringify) == c2;
      if readThrows || Fits(env, stringify(short).value) {
        JsonThenRead(env, c1, HistoryKey, short, [], stringify, parse, readThrows);
      } else {
        assert c2.local == c.local;
      }
    }
  }

  /** After a save that reads back as the pushed history or its five
      newest entries, the new entry is the first entry and the older ones
      are the newest of the previous history, in order. */
  lemma SavedHistoryShape(prior: seq<Entry>, entry: Entry, r: seq<Entry>)
    requires r == Pushed(prior, entry) || r == KeepNewest(Pushed(prior, entry), RetryKeep)
    ensures 1 <= |r| <= MaxHistory && r[0] == entry
    ensures r[1..] == prior[..|r| - 1]
  {
    PushedFacts(prior, entry);
    var h := Pushed(prior, entry);
    assert r == h[..|r|];
    assert r[1..] == h[1..][..|r| - 1];
  }

  /** The store after writing `history` with `setJSON` and, when that
      fails, its five newest entries once more. */
  function Written(env: Env, c: Cells, h: seq<Entry>, stringify: seq<Entry> -> Option<string>): Cells {
    var (c1, ok) := StoreJson(env, c, HistoryKey, h, stringify);
    if ok then c1 else StoreJson(env, c1, HistoryKey, KeepNewest(h, RetryKeep), stringify).0
  }

  /** The `setJSON` call of `saveAuditToHistory` and its retry. */
  method WriteHistory(store: ZenStorage, history: seq<Entry>, stringify: seq<Entry> -> Option<string>)
    requires store.Valid() && store.isAvailable.Some?
    modifies store
    ensures store.Valid() && store.isAvailable == old(store.isAvailable)
    ensures store.Contents() == Written(store.env, old(store.Contents()), history, stringify)
  {
    var ok := store.SetJson(HistoryKey, history, stringify);
    if !ok {
      var kept := if |history| > RetryKeep then history[..RetryKeep] else history;
      ok := store.SetJson(HistoryKey, kept, stringify);
    }
  }

  /** `saveAuditToHistory(results)`: nothing happens for no results, and
      only the availability check on unavailable storage; otherwise the
      entry is pushed and written as `Saved` describes. */
  method SaveAuditToHistory(store: ZenStorage, results: seq<AuditRecord>, id: int, date: string,
                            hostOf: string -> Option<string>, parse: string -> Option<seq<Entry>>,
                            stringify: seq<Entry> -> Option<string>, readThrows: bool)
    requires store.Valid()
    modifies store
    ensures store.Valid()
    ensures |results| == 0 ==> unchanged(store)
    ensures |results| > 0 ==> store.isAvailable == Some(Probe(store.env))
    ensures |results| > 0 ==>
      store.Contents() == Saved(store.env, old(store.Settled()), MakeEntry(results, id, date, hostOf), parse, stringify, readThrows)
  {
    if |results| == 0 {
      return;
    }
    var available := store.TestStorage();
    if !available {
      return;
    }
    var history := store.GetJson(HistoryKey, [], parse, readThrows);
    var entry := MakeEntry(results, id, date, hostOf);
    history := [entry] + history;
    if |history| > MaxHistory {
      history := history[..MaxHistory];
    }
    WriteHistory(store, history, stringify);
  }

  /** `history.find(h => h.id === id)`: the first entry with that id. */
  function FindEntry(history: seq<Entry>, id: int): (r: Option<Entry>)
    ensures r.None? <==> forall i :: 0 <= i < |history| ==> history[i].id != id
    ensures r.Some? ==> exists i :: (0 <= i < |history| && history[i] == r.value && r.value.id == id
      && forall j :: 0 <= j < i ==> history[j].id != id)
  {
    if history == [] then None
    else if history[0].id == id then
      assert history[0] == history[0];
      Some(history[0])
    else
      var r := FindEntry(history[1..], id);
      assert forall i :: 1 <= i < |history| ==> history[i] == history[1..][i - 1];
      if r.Some? then
        var i :| 0 <= i < |history[1..]| && history[1..][i] == r.value && r.value.id == id
          && forall j :: 0 <= j < i ==> history[1..][j].id != id;
        assert history[i + 1] == r.value;
        r
      else r
  }

  /** What loading a history entry shows: its results and the date of the
      toast, or the 'No results found in history entry' error. */
  datatype LoadOutcome = Shown(results: seq<AuditRecord>, date: string) | NoResults

  /** `loadAuditFromHistory(id)` on the history read: the found entry's
      results when it has any. */
  function LoadFrom(history: seq<Entry>, id: int): (o: LoadOutcome)
    ensures o.Shown? <==> FindEntry(history, id).Some? && |FindEntry(history, id).value.results| > 0
    ensures o.Shown? ==> exists i :: (0 <= i < |history| && history[i].id == id
      && o == Shown(history[i].results, history[i].date))
  {
    match FindEntry(history, id)
    case None => NoResults
    case Some(e) => if |e.results| > 0 then Shown(e.results, e.date) else NoResults
  }

  /** `loadAuditFromHistory(id)`: reads the history and looks the entry up. */
  method LoadAuditFromHistory(store: ZenStorage, id: int, parse: string -> Option<seq<Entry>>, readThrows: bool)
    returns (o: LoadOutcome)
    requires store.Valid()
    modifies store
    ensures store.Valid() && store.Contents() == old(store.Settled())
    ensures o == LoadFrom(ReadJson(store.env, old(store.Settled()), HistoryKey, [], parse, readThrows), id)
  {
    var history := store.GetJson(HistoryKey, [], parse, readThrows);
    var entry := FindEntry(history, id);
    if entry.Some? && |entry.value.results| > 0 {
      o := Shown(entry.value.results, entry.value.date);
    } else {
      o := NoResults;
    }
  }

  /** Loading the entry a save has just put first shows the saved results. */
  lemma SaveThenLoad(prior: seq<Entry>, results: seq<AuditRecord>, id: int, date: string,
                     hostOf: string -> Option<string>, r: seq<Entry>)
    requires |results| > 0
    requires var entry := MakeEntry(results, id, date, hostOf);
      r == Pushed(prior, entry) || r == KeepNewest(Pushed(prior, entry), RetryKeep)
    ensures LoadFrom(r, id) == Shown(results, date)
  {
    var entry := MakeEntry(results, id, date, hostOf);
    SavedHistoryShape(prior, entry, r);
    assert r[0].id == id;
  }

  /** `clearAuditHistory()`: on available storage the history key is
      removed; otherwise only availability is checked. */
  method ClearAuditHistory(store: ZenStorage)
    requires store.Valid()
    modifies store
    ensures store.Valid() && store.isAvailable == Some(Probe(store.env))
    ensures store.Contents() == if Probe(store.env) then DropItem(store.env, old(store.Settled()), HistoryKey)
                                else old(store.Settled())
  {
    var available := store.TestStorage();
    if !available {
      return;
    }
    store.RemoveItem(HistoryKey);
  }

  /** After clearing, the history reads as empty. */
  lemma ClearedHistoryEmpty(env: Env, c: Cells, parse: string -> Option<seq<Entry>>, readThrows: bool)
    requires Probe(env)
    ensures ReadJson(env, DropItem(env, c, HistoryKey), HistoryKey, [], parse, readThrows) == []
  {
    DropThenRead(env, c, HistoryKey, None, readThrows);
  }

  // ---------------------------------------------------------------------
  // File upload

  predicate IsBreak(c: char) {
    c == '\r' || c == '\n'
  }

  predicate NoBreak(p: string) {
    forall i :: 0 <= i < |p| ==> !IsBreak(p[i])
  }

  /** `content.split(/[\r\n]+/)`: the pieces between maximal runs of
      carriage returns and line feeds, with an empty piece before a leading
      run and after a trailing one. */
  function SplitBreaks(s: string): (parts: seq<string>)
    ensures |parts| >= 1
    ensures forall k :: 0 <= k < |parts| ==> NoBreak(parts[k])
  {
    if s == [] then [""]
    else
      var init := SplitBreaks(s[..|s| - 1]);
      var c := s[|s| - 1];
      if !IsBreak(c) then init[..|init| - 1] + [init[|init| - 1] + [c]]
      else if |s| >= 2 && IsBreak(s[|s| - 2]) then init
      else init + [""]
  }

  /** Reference definition: every maximal run of line breaks replaced by a
      single line feed. */
  function CollapseBreaks(s: string): string {
    if s == [] then ""
    else
      var c := s[|s| - 1];
      if !IsBreak(c) then CollapseBreaks(s[..|s| - 1]) + [c]
      else if |s| >= 2 && IsBreak(s[|s| - 2]) then CollapseBreaks(s[..|s| - 1])
      else CollapseBreaks(s[..|s| - 1]) + "\n"
  }

  lemma JoinSnoc(ps: seq<string>, p: string, d: string)
    requires |ps| >= 1
    ensures Join(ps + [p], d) == Join(ps, d) + d + p
    decreases |ps|
  {
    if |ps| == 1 {
      assert (ps + [p])[1..] == [p];
    } else {
      assert (ps + [p])[1..] == ps[1..] + [p];
      JoinSnoc(ps[1..], p, d);
    }
  }

  lemma JoinExtendLast(ps: seq<string>, c: char, d: string)
    requires |ps| >= 1
    ensures Join(ps[..|ps| - 1] + [ps[|ps| - 1] + [c]], d) == Join(ps, d) + [c]
  {
    var n := |ps|;
    if n == 1 {
      assert ps[..0] + [ps[0] + [c]] == [ps[0] + [c]];
    } else {
      assert ps == ps[..n - 1] + [ps[n - 1]];
      JoinSnoc(ps[..n - 1], ps[n - 1], d);
      JoinSnoc(ps[..n - 1], ps[n - 1] + [c], d);
    }
  }

  /** The pieces joined by single line feeds are the content with its runs
      of breaks collapsed. */
  lemma {:induction false} SplitBreaksJoin(s: string)
    ensures Join(SplitBreaks(s), "\n") == CollapseBreaks(s)
  {
    if s != [] {
      var init := SplitBreaks(s[..|s| - 1]);
      SplitBreaksJoin(s[..|s| - 1]);
      var c := s[|s| - 1];
      if !IsBreak(c) {
        JoinExtendLast(init, c, "\n");
      } else if !(|s| >= 2 && IsBreak(s[|s| - 2])) {
        JoinSnoc(init, "", "\n");
      }
    }
  }

  /** A line the upload keeps: `line.trim() && !line.startsWith('#')` (the
      test is on the untrimmed line). */
  predicate KeepLine(line: string) {
    JsTrim(line) != "" && !StartsWith(line, "#")
  }

  function KeepOrDrop(line: string): Option<string> {
    if KeepLine(line) then Some(line) else None
  }

  /** The URLs the uploaded file contributes, in file order: the k-th URL is
      the line at the k-th position of a kept line, repeats included. */
  function UploadedUrls(content: string): (urls: seq<string>)
    ensures var pieces := SplitBreaks(content); var pos := Positions(pieces, KeepLine);
      |urls| == |pos| && forall k :: 0 <= k < |pos| ==> urls[k] == pieces[pos[k]]
    ensures forall u :: u in urls <==> u in SplitBreaks(content) && KeepLine(u)
  {
    var pieces := SplitBreaks(content);
    Ui.FilterMapSound(pieces, KeepOrDrop);
    Ui.FilterMapComplete(pieces, KeepOrDrop);
    Ui.FilterMapInOrder(pieces, KeepOrDrop, KeepLine);
    Ui.FilterMap(pieces, KeepOrDrop)
  }

  /** `urls.join('\n')` into the text area and the count of the toast
      'Loaded N URLs from file'. */
  function LoadUrlFile(content: string): (r: (string, nat))
    ensures r.1 == |UploadedUrls(content)|
    ensures r.0 == Join(UploadedUrls(content), "\n")
  {
    var urls := UploadedUrls(content);
    (Join(urls, "\n"), |urls|)
  }

  /** Splitting on a single-character separator undoes joining on it when
      no part holds it. */
  lemma {:induction false} SplitJoinParts(parts: seq<string>, d: char)
    requires |parts| >= 1
    requires forall k :: 0 <= k < |parts| ==> d !in parts[k]
    ensures Split(Join(parts, [d]), [d]) == parts
    decreases |parts|
  {
    var p := parts[0];
    var s := Join(parts, [d]);
    if |parts| == 1 {
      forall j | 0 <= j < |s| ensures !OccursAt(s, [d], j) {
        assert s[j] in p;
      }
      assert IndexOf(s, [d]).None?;
    } else {
      var rest := Join(parts[1..], [d]);
      assert s == p + [d] + rest;
      assert OccursAt(s, [d], |p|);
      forall j | 0 <= j < |p| ensures !OccursAt(s, [d], j) {
        assert s[j] == p[j];
      }
      assert IndexOf(s, [d]) == Some(|p|);
      assert s[..|p|] == p;
      assert s[|p| + 1..] == rest;
      SplitJoinParts(parts[1..], d);
    }
  }

  /** The text area's lines read back as exactly the kept URLs. */
  lemma UploadReadsBack(content: string)
    requires UploadedUrls(content) != []
    ensures Split(LoadUrlFile(content).0, "\n") == UploadedUrls(content)
  {
    var urls := UploadedUrls(content);
    forall k | 0 <= k < |urls| ensures '\n' !in urls[k] {
      assert urls[k] in SplitBreaks(content);
      var j :| 0 <= j < |SplitBreaks(content)| && SplitBreaks(content)[j] == urls[k];
      assert NoBreak(SplitBreaks(content)[j]);
    }
    SplitJoinParts(urls, '\n');
  }

  // ---------------------------------------------------------------------
  // Card filter and sort

  /** The data attributes of a result card (`data-score`,
      `data-has-issues`, `data-issue-count`). */
  datatype Card = Card(score: int, hasIssues: bool, issueCount: int)

  const PassScore: int := 70

  /** Whether `applyFilterSort` shows a card under `filter`. */
  predicate Visible(filter: string, card: Card) {
    !(filter == "issues" && !card.hasIssues)
    && !(filter == "good" && card.score < PassScore)
    && !(filter == "poor" && card.score >= PassScore)
  }

  /** 'good' and 'poor' split the cards between them; 'issues' shows
      exactly the cards with issues; 'all' and any unknown filter show every
      card. */
  lemma FilterMeaning(card: Card, filter: string)
    ensures Visible("good", card) != Visible("poor", card)
    ensures Visible("good", card) <==> card.score >= PassScore
    ensures Visible("issues", card) <==> card.hasIssues
    ensures filter !in {"issues", "good", "poor"} ==> Visible(filter, card)
  {
  }

  /** The comparator of `sortableCards.sort`. */
  function Compare(sortBy: string, a: Card, b: Card): int {
    if sortBy == "score-asc" then a.score - b.score
    else if sortBy == "score-desc" then b.score - a.score
    else if sortBy == "issues" then b.issueCount - a.issueCount
    else 0
  }

  /** The sort key the comparator orders by. */
  function CardKey(sortBy: string): Card -> Key {
    (c: Card) => if sortBy == "score-asc" then Key(c.score, 0)
         else if sortBy == "score-desc" then Key(-c.score, 0)
         else if sortBy == "issues" then Key(-c.issueCount, 0)
         else Key(0, 0)
  }

  /** The comparator's sign is the order of the keys. */
  lemma CompareIsKeyOrder(sortBy: string, a: Card, b: Card)
    ensures Compare(sortBy, a, b) <= 0 <==> KeyLe(CardKey(sortBy)(a), CardKey(sortBy)(b))
    ensures Compare(sortBy, a, b) == 0 <==> CardKey(sortBy)(a) == CardKey(sortBy)(b)
  {
  }

  /** The order of one site group's cards: unchanged for 'default',
      otherwise the stable sort by the comparator. */
  function ArrangeGroup(cards: seq<Card>, sortBy: string): (r: seq<Card>)
    ensures multiset(r) == multiset(cards)
    ensures sortBy != "default" ==> SortedBy(r, CardKey(sortBy))
    ensures sortBy != "default" ==> forall k :: WithKey(r, CardKey(sortBy), k) == WithKey(cards, CardKey(sortBy), k)
  {
    if sortBy == "default" then cards else StableSort(cards, CardKey(sortBy))
  }

  lemma {:induction false} WithKeyAll<T>(s: seq<T>, key: T -> Key, k: Key)
    requires forall i :: 0 <= i < |s| ==> key(s[i]) == k
    ensures WithKey(s, key, k) == s
  {
    if |s| > 0 {
      WithKeyAll(s[..|s| - 1], key, k);
      assert s == s[..|s| - 1] + [s[|s| - 1]];
    }
  }

  /** A sort other than the three known ones compares every pair equal and
      leaves the order as it was. */
  lemma UnknownSortKeepsOrder(cards: seq<Card>, sortBy: string)
    requires sortBy !in {"score-asc", "score-desc", "issues"}
    ensures ArrangeGroup(cards, sortBy) == cards
  {
    if sortBy != "default" {
      var key := CardKey(sortBy);
      var r := ArrangeGroup(cards, sortBy);
      WithKeyAll(cards, key, Key(0, 0));
      assert forall i :: 0 <= i < |r| ==> key(r[i]) == Key(0, 0) by {
        forall i | 0 <= i < |r| ensures key(r[i]) == Key(0, 0) {
          assert r[i] in multiset(r);
        }
      }
      WithKeyAll(r, key, Key(0, 0));
    }
  }
}
