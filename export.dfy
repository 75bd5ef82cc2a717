/** The browser's exports of the last audit (static/js/export.js): the two
    CSV writers with their field escaping, the per-site split with its file
    names, and the figures of the executive summary. Each CSV writer is
    checked against a reader of the writer's own convention (a field is
    quoted when it holds a comma, a double quote or a line feed, and in the
    per-site files also a carriage return; a quote inside is doubled;
    records end at the row break):
    what the writer produces reads back as the header and the rows it
    wrote. */
module Export {
  import opened Strings
  import opened Records
  import Ui
  import Api
  import PageAudit

  // ---------------------------------------------------------------------
  // escapeCsv

  /** `v.replace(/"/g, '""')`: every double quote doubled. */
  function Doubled(s: string): string {
    if s == [] then [] else (if s[0] == '"' then "\"\"" else [s[0]]) + Doubled(s[1..])
  }

  /** The characters that end an unquoted field for a reader of the file
      the writer produces: the field separator and the characters of the
      row break ('\n' for `exportSeoCsv`, "\r\n" per site). */
  function Stops(perSite: bool): set<char> {
    if perSite then {',', '\n', '\r'} else {',', '\n'}
  }

  /** The row break of each writer. */
  function RowBreak(perSite: bool): (brk: string)
    ensures |brk| > 0 && brk[0] in Stops(perSite) && brk[0] != ','
  {
    if perSite then "\r\n" else "\n"
  }

  /** The `indexOf(...) !== -1` test of each variant: the per-site one also
      quotes on '\r'. */
  predicate NeedsQuotes(v: string, perSite: bool) {
    '"' in v || ',' in v || '\n' in v || (perSite && '\r' in v)
  }

  /** A value that is not quoted holds no double quote and none of the
      characters that would end its field early. */
  lemma UnquotedIsBare(v: string, perSite: bool)
    requires !NeedsQuotes(v, perSite)
    ensures '"' !in v && forall c :: c in v ==> c !in Stops(perSite)
  {
  }

  /** `escapeCsv(val)`: null and undefined print as the empty text; a value
      holding a double quote, a comma or a line feed (per site also a
      carriage return) is wrapped in double quotes with its own double
      quotes doubled; any other value is left as it is. */
  function EscapeCsv(val: Option<string>, perSite: bool): (e: string)
    ensures val.None? ==> e == ""
    ensures val.Some? && !NeedsQuotes(val.value, perSite) ==> e == val.value
    ensures val.Some? && NeedsQuotes(val.value, perSite) ==> |e| >= 2 && e[0] == '"' && e[|e| - 1] == '"'
  {
    var v := if val.None? then "" else val.value;
    if NeedsQuotes(v, perSite) then "\"" + Doubled(v) + "\"" else v
  }

  // ---------------------------------------------------------------------
  // A reader of the writer's own CSV convention

  /** The rest of a quoted field after its opening quote: a doubled quote
      stands for one quote and a lone quote closes the field. None when the
      closing quote is missing. Yields the field and what follows it. */
  function ReadQuoted(s: string): (r: Option<(string, string)>)
    ensures r.Some? ==> |r.value.1| < |s|
  {
    if s == [] then None
    else if s[0] == '"' then
      if |s| > 1 && s[1] == '"' then
        match ReadQuoted(s[2..])
        case None => None
        case Some(p) => Some(("\"" + p.0, p.1))
      else Some(("", s[1..]))
    else
      match ReadQuoted(s[1..])
      case None => None
      case Some(p) => Some(([s[0]] + p.0, p.1))
  }

  /** An unquoted field: everything up to the first stop character. */
  function ReadBare(s: string, stops: set<char>): (r: (string, string))
    ensures r.0 + r.1 == s
  {
    if s == [] || s[0] in stops then ("", s)
    else
      var p := ReadBare(s[1..], stops);
      ([s[0]] + p.0, p.1)
  }

  /** One field, quoted or not. */
  function ReadField(s: string, stops: set<char>): (r: Option<(string, string)>)
    ensures r.Some? ==> |r.value.1| <= |s|
  {
    if |s| > 0 && s[0] == '"' then ReadQuoted(s[1..]) else Some(ReadBare(s, stops))
  }

  /** One record: fields separated by commas, up to the first character
      after a field that is not a comma. */
  function ReadRecord(s: string, stops: set<char>): (r: Option<(seq<string>, string)>)
    ensures r.Some? ==> |r.value.1| <= |s|
    decreases |s|
  {
    match ReadField(s, stops)
    case None => None
    case Some(f) =>
      if |f.1| > 0 && f.1[0] == ',' then
        match ReadRecord(f.1[1..], stops)
        case None => None
        case Some(more) => Some(([f.0] + more.0, more.1))
      else Some(([f.0], f.1))
  }

  /** A whole file: records separated by `brk`. None when a record is
      followed by anything else. */
  function ReadRows(s: string, stops: set<char>, brk: string): Option<seq<seq<string>>>
    requires |brk| > 0
    decreases |s|
  {
    match ReadRecord(s, stops)
    case None => None
    case Some(rec) =>
      if rec.1 == [] then Some([rec.0])
      else if StartsWith(rec.1, brk) then
        match ReadRows(rec.1[|brk|..], stops, brk)
        case None => None
        case Some(rows) => Some([rec.0] + rows)
      else None
  }

  // ---------------------------------------------------------------------
  // Writing rows: `[...].map(escapeCsv).join(',')` and `rows.join(brk)`

  function EscapeAll(values: seq<string>, perSite: bool): (es: seq<string>)
    ensures |es| == |values|
  {
    seq(|values|, i requires 0 <= i < |values| => EscapeCsv(Some(values[i]), perSite))
  }

  function EncodeRecord(values: seq<string>, perSite: bool): string {
    Join(EscapeAll(values, perSite), ",")
  }

  function EncodeRows(rows: seq<seq<string>>, perSite: bool): (lines: seq<string>)
    ensures |lines| == |rows|
  {
    seq(|rows|, i requires 0 <= i < |rows| => EncodeRecord(rows[i], perSite))
  }

  /** `headers.join(',') + brk + rows.join(brk)`: the header is joined
      without escaping. */
  function EncodeDocument(header: seq<string>, rows: seq<seq<string>>, perSite: bool): string {
    Join(header, ",") + RowBreak(perSite) + Join(EncodeRows(rows, perSite), RowBreak(perSite))
  }

  // ---------------------------------------------------------------------
  // Reading back what was written

  lemma {:induction false} QuotedReadsBack(v: string, rest: string)
    requires rest == [] || rest[0] != '"'
    ensures ReadQuoted(Doubled(v) + "\"" + rest) == Some((v, rest))
    decreases |v|
  {
    var s := Doubled(v) + "\"" + rest;
    if v != [] {
      QuotedReadsBack(v[1..], rest);
      if v[0] == '"' {
        assert s == "\"\"" + (Doubled(v[1..]) + "\"" + rest);
        assert s[2..] == Doubled(v[1..]) + "\"" + rest;
        assert "\"" + v[1..] == v;
      } else {
        assert s == [v[0]] + (Doubled(v[1..]) + "\"" + rest);
        assert s[1..] == Doubled(v[1..]) + "\"" + rest;
        assert [v[0]] + v[1..] == v;
      }
    } else {
      assert s == "\"" + rest;
      assert s[1..] == rest;
    }
  }

  lemma {:induction false} BareReadsBack(v: string, rest: string, stops: set<char>)
    requires forall c :: c in v ==> c !in stops
    requires rest == [] || rest[0] in stops
    ensures ReadBare(v + rest, stops) == (v, rest)
    decreases |v|
  {
    if v == [] {
      assert v + rest == rest;
    } else {
      assert v[0] in v;
      assert (v + rest)[1..] == v[1..] + rest;
      assert forall c :: c in v[1..] ==> c in v;
      BareReadsBack(v[1..], rest, stops);
      assert [v[0]] + v[1..] == v;
    }
  }

  /** A quoted field reads back as the value whose quotes were doubled. */
  lemma QuotedFieldReadsBack(v: string, rest: string, stops: set<char>)
    requires rest == [] || rest[0] != '"'
    ensures ReadField("\"" + Doubled(v) + "\"" + rest, stops) == Some((v, rest))
  {
    var s := "\"" + Doubled(v) + "\"" + rest;
    assert s[1..] == Doubled(v) + "\"" + rest;
    QuotedReadsBack(v, rest);
  }

  /** An unquoted field reads back as itself. */
  lemma BareFieldReadsBack(v: string, rest: string, perSite: bool)
    requires !NeedsQuotes(v, perSite)
    requires rest == [] || rest[0] in Stops(perSite)
    ensures ReadField(v + rest, Stops(perSite)) == Some((v, rest))
  {
    UnquotedIsBare(v, perSite);
    BareReadsBack(v, rest, Stops(perSite));
    if |v| > 0 {
      assert v[0] in v;
    }
  }

  /** An escaped value reads back as itself, whatever stop character
      follows it. */
  lemma FieldReadsBack(v: string, rest: string, perSite: bool)
    requires rest == [] || rest[0] in Stops(perSite)
    ensures ReadField(EscapeCsv(Some(v), perSite) + rest, Stops(perSite)) == Some((v, rest))
  {
    if NeedsQuotes(v, perSite) {
      assert EscapeCsv(Some(v), perSite) == "\"" + Doubled(v) + "\"";
      QuotedFieldReadsBack(v, rest, Stops(perSite));
    } else {
      BareFieldReadsBack(v, rest, perSite);
    }
  }

  lemma EscapeAllTail(values: seq<string>, perSite: bool)
    requires |values| > 0
    ensures EscapeAll(values, perSite) == [EscapeCsv(Some(values[0]), perSite)] + EscapeAll(values[1..], perSite)
  {
  }

  /** A record of several values is its first escaped value, a comma and
      the record of the rest. */
  lemma EncodeRecordCons(values: seq<string>, perSite: bool)
    requires |values| > 1
    ensures EncodeRecord(values, perSite)
            == EscapeCsv(Some(values[0]), perSite) + "," + EncodeRecord(values[1..], perSite)
  {
    var es := EscapeAll(values, perSite);
    EscapeAllTail(values, perSite);
    assert es[1..] == EscapeAll(values[1..], perSite);
  }

  lemma CommaRegroup(a: string, b: string, c: string)
    ensures a + "," + b + c == a + ("," + (b + c))
  {
  }

  /** A field followed by a comma and a record reads as one longer record. */
  lemma ReadRecordCons(s: string, stops: set<char>, v: string, tail: string, more: seq<string>, rest: string)
    requires ReadField(s, stops) == Some((v, "," + tail))
    requires ReadRecord(tail, stops) == Some((more, rest))
    ensures ReadRecord(s, stops) == Some(([v] + more, rest))
  {
    assert ("," + tail)[1..] == tail;
  }

  /** A record of one value reads back as that value. */
  lemma OneValueReadsBack(values: seq<string>, rest: string, perSite: bool)
    requires |values| == 1
    requires rest == [] || (rest[0] in Stops(perSite) && rest[0] != ',')
    ensures ReadRecord(EncodeRecord(values, perSite) + rest, Stops(perSite)) == Some((values, rest))
  {
    EscapeAllTail(values, perSite);
    assert EncodeRecord(values, perSite) == EscapeCsv(Some(values[0]), perSite);
    FieldReadsBack(values[0], rest, perSite);
    assert [values[0]] == values;
  }

  /** A record of several values reads back when the record of all but the
      first value does. */
  lemma MoreValuesReadBack(values: seq<string>, rest: string, perSite: bool)
    requires |values| > 1
    requires ReadRecord(EncodeRecord(values[1..], perSite) + rest, Stops(perSite)) == Some((values[1..], rest))
    ensures ReadRecord(EncodeRecord(values, perSite) + rest, Stops(perSite)) == Some((values, rest))
  {
    var e0 := EscapeCsv(Some(values[0]), perSite);
    var tail := EncodeRecord(values[1..], perSite) + rest;
    assert EncodeRecord(values, perSite) + rest == e0 + ("," + tail) by {
      EncodeRecordCons(values, perSite);
      CommaRegroup(e0, EncodeRecord(values[1..], perSite), rest);
    }
    assert ReadField(e0 + ("," + tail), Stops(perSite)) == Some((values[0], "," + tail)) by {
      FieldReadsBack(values[0], "," + tail, perSite);
    }
    ReadRecordCons(e0 + ("," + tail), Stops(perSite), values[0], tail, values[1..], rest);
    assert [values[0]] + values[1..] == values;
  }

  /** An encoded record reads back as its values, up to the row break. */
  lemma {:induction false} RecordReadsBack(values: seq<string>, rest: string, perSite: bool)
    requires |values| > 0
    requires rest == [] || (rest[0] in Stops(perSite) && rest[0] != ',')
    ensures ReadRecord(EncodeRecord(values, perSite) + rest, Stops(perSite)) == Some((values, rest))
    decreases |values|
  {
    if |values| == 1 {
      OneValueReadsBack(values, rest, perSite);
    } else {
      RecordReadsBack(values[1..], rest, perSite);
      MoreValuesReadBack(values, rest, perSite);
    }
  }

  /** Encoded rows joined by the row break read back as the rows. */
  lemma {:induction false} RowsReadBack(rows: seq<seq<string>>, perSite: bool)
    requires |rows| > 0 && forall i :: 0 <= i < |rows| ==> |rows[i]| > 0
    ensures ReadRows(Join(EncodeRows(rows, perSite), RowBreak(perSite)), Stops(perSite), RowBreak(perSite)) == Some(rows)
    decreases |rows|
  {
    var brk := RowBreak(perSite);
    var lines := EncodeRows(rows, perSite);
    if |rows| == 1 {
      assert Join(lines, brk) == EncodeRecord(rows[0], perSite) + "";
      RecordReadsBack(rows[0], "", perSite);
      assert EncodeRecord(rows[0], perSite) + "" == EncodeRecord(rows[0], perSite);
      assert [rows[0]] == rows;
    } else {
      var more := Join(EncodeRows(rows[1..], perSite), brk);
      assert lines[1..] == EncodeRows(rows[1..], perSite);
      assert Join(lines, brk) == EncodeRecord(rows[0], perSite) + (brk + more);
      RecordReadsBack(rows[0], brk + more, perSite);
      assert StartsWith(brk + more, brk);
      assert (brk + more)[|brk|..] == more;
      RowsReadBack(rows[1..], perSite);
      assert [rows[0]] + rows[1..] == rows;
    }
  }

  /** A header no field of which needs quoting. */
  predicate PlainHeader(header: seq<string>, perSite: bool) {
    |header| > 0 && forall i :: 0 <= i < |header| ==> !NeedsQuotes(header[i], perSite)
  }

  /** The whole file reads back as the header followed by the rows, so
      every row has as many fields as it was given. */
  lemma DocumentReadsBack(header: seq<string>, rows: seq<seq<string>>, perSite: bool)
    requires PlainHeader(header, perSite)
    requires |rows| > 0 && forall i :: 0 <= i < |rows| ==> |rows[i]| > 0
    ensures ReadRows(EncodeDocument(header, rows, perSite), Stops(perSite), RowBreak(perSite)) == Some([header] + rows)
  {
    var brk := RowBreak(perSite);
    var all := [header] + rows;
    assert EscapeAll(header, perSite) == header;
    assert EncodeRows(all, perSite) == [Join(header, ",")] + EncodeRows(rows, perSite);
    assert EncodeRows(all, perSite)[1..] == EncodeRows(rows, perSite);
    assert EncodeDocument(header, rows, perSite) == Join(EncodeRows(all, perSite), brk);
    RowsReadBack(all, perSite);
  }

  // ---------------------------------------------------------------------
  // The rows of the two CSV writers

  function YesNo(b: bool): string {
    if b then "Yes" else "No"
  }

  /** `String(r.status_code)`: the number, or 'N/A'. */
  function StatusText(c: StatusCode): string {
    match c
    case Code(n) => IntToString(n)
    case NotAvailable => "N/A"
  }

  /** `r.response_time` as the back end wrote it: `f"{t:.2f}s"` or 'N/A'. */
  function TimeText(t: ResponseTime): string {
    match t
    case Elapsed(centis) => PageAudit.FixedText(centis, 100) + "s"
    case NoTiming => "N/A"
  }

  /** The header names of the two writers, in five runs: both files start
      with the same 21 columns and end with `warnings` and `h1_samples`;
      `exportSeoCsv` has seven more in between. */
  const RequestHeaders: seq<string> :=
    ["url", "seo_score", "status_code", "status_message", "response_time", "title", "title_length"]
  const ContentHeaders: seq<string> :=
    ["meta_description", "meta_description_length", "h1_count", "h2_count", "h3_count", "h4_count", "word_count"]
  const LinkHeaders: seq<string> :=
    ["internal_links", "external_links", "images_missing_alt", "total_images", "https", "robots", "canonical"]
  const TagHeaders: seq<string> :=
    ["has_viewport", "has_lang", "lang", "has_og_tags", "og_title", "has_schema", "schema_types"]
  const ListHeaders: seq<string> := ["warnings", "h1_samples"]

  const SeoHeaders: seq<string> := RequestHeaders + ContentHeaders + LinkHeaders + TagHeaders + ListHeaders

  /** The values `exportSeoCsv` writes for one result, before escaping.
      `title_length` and `meta_description_length` are the lengths of the
      texts and `has_lang` says whether `lang` is non-empty, as the back end
      sets them. */
  function SeoRow(r: AuditRecord): (row: seq<string>)
    ensures |row| == |SeoHeaders|
  {
    [r.url, IntToString(Ui.SeoScore(r)), StatusText(r.statusCode), r.statusMessage, TimeText(r.responseTime),
     r.title, NatToString(|r.title|), r.metaDescription, NatToString(|r.metaDescription|),
     NatToString(r.h1Count), NatToString(r.h2Count), NatToString(r.h3Count), NatToString(r.h4Count),
     NatToString(r.wordCount), NatToString(r.internalLinks), NatToString(r.externalLinks),
     NatToString(r.imagesMissingAlt), NatToString(r.totalImages), YesNo(r.https), r.robots, r.canonical,
     YesNo(r.hasViewport), YesNo(r.lang != ""), r.lang, YesNo(r.hasOgTags), r.ogTitle, YesNo(r.hasSchema),
     Join(r.schemaTypes, " | "), Join(r.warnings, " | "), Join(r.h1Samples, " | ")]
  }

  const SiteHeaders: seq<string> := RequestHeaders + ContentHeaders + LinkHeaders + ListHeaders

  /** The values `exportSeoPerSiteCsv` writes for one result. */
  function SiteRow(r: AuditRecord): (row: seq<string>)
    ensures |row| == |SiteHeaders|
  {
    [r.url, IntToString(Ui.SeoScore(r)), StatusText(r.statusCode), r.statusMessage, TimeText(r.responseTime),
     r.title, NatToString(|r.title|), r.metaDescription, NatToString(|r.metaDescription|),
     NatToString(r.h1Count), NatToString(r.h2Count), NatToString(r.h3Count), NatToString(r.h4Count),
     NatToString(r.wordCount), NatToString(r.internalLinks), NatToString(r.externalLinks),
     NatToString(r.imagesMissingAlt), NatToString(r.totalImages), YesNo(r.https), r.robots, r.canonical,
     Join(r.warnings, " | "), Join(r.h1Samples, " | ")]
  }

  function SeoRows(results: seq<AuditRecord>): (rows: seq<seq<string>>)
    ensures |rows| == |results|
    ensures forall i :: 0 <= i < |rows| ==> |rows[i]| == |SeoHeaders|
  {
    seq(|results|, i requires 0 <= i < |results| => SeoRow(results[i]))
  }

  function SiteRows(results: seq<AuditRecord>): (rows: seq<seq<string>>)
    ensures |rows| == |results|
    ensures forall i :: 0 <= i < |rows| ==> |rows[i]| == |SiteHeaders|
  {
    seq(|results|, i requires 0 <= i < |results| => SiteRow(results[i]))
  }

  /** The file `exportSeoCsv` writes: line feeds between rows. */
  function SeoCsv(results: seq<AuditRecord>): string {
    EncodeDocument(SeoHeaders, SeoRows(results), false)
  }

  /** The file `exportSeoPerSiteCsv` writes for one host: CRLF between rows. */
  function SiteCsv(records: seq<AuditRecord>): string {
    EncodeDocument(SiteHeaders, SiteRows(records), true)
  }

  /** Lower-case letters, digits and underscores only. */
  predicate Word(h: string) {
    forall i :: 0 <= i < |h| ==> 'a' <= h[i] <= 'z' || '0' <= h[i] <= '9' || h[i] == '_'
  }

  lemma WordPlain(h: string)
    requires Word(h)
    ensures !NeedsQuotes(h, false) && !NeedsQuotes(h, true)
  {
    forall c | c in h ensures c != '"' && c != ',' && c != '\n' && c != '\r' {
      var i :| 0 <= i < |h| && h[i] == c;
    }
  }

  lemma WordsPlain(hs: seq<string>)
    requires |hs| > 0 && forall h :: h in hs ==> Word(h)
    ensures PlainHeader(hs, false) && PlainHeader(hs, true)
  {
    forall i | 0 <= i < |hs| ensures !NeedsQuotes(hs[i], false) && !NeedsQuotes(hs[i], true) {
      assert hs[i] in hs;
      WordPlain(hs[i]);
    }
  }

  /** No header name needs quoting. */
  lemma HeadersPlain()
    ensures PlainHeader(SeoHeaders, false) && PlainHeader(SiteHeaders, true)
  {
    RequestHeadersWords();
    ContentHeadersWords();
    LinkHeadersWords();
    TagHeadersWords();
    ListHeadersWords();
    WordsPlain(SeoHeaders);
    WordsPlain(SiteHeaders);
  }

  lemma RequestHeadersWords()
    ensures forall h :: h in RequestHeaders ==> Word(h)
  {
    assert Word("url");
    assert Word("seo_score");
    assert Word("status_code");
    assert Word("status_message");
    assert Word("response_time");
    assert Word("title");
    assert Word("title_length");
  }

  lemma ContentHeadersWords()
    ensures forall h :: h in ContentHeaders ==> Word(h)
  {
    assert Word("meta_description");
    assert Word("meta_description_length");
    assert Word("h1_count");
    assert Word("h2_count");
    assert Word("h3_count");
    assert Word("h4_count");
    assert Word("word_count");
  }

  lemma LinkHeadersWords()
    ensures forall h :: h in LinkHeaders ==> Word(h)
  {
    assert Word("internal_links");
    assert Word("external_links");
    assert Word("images_missing_alt");
    assert Word("total_images");
    assert Word("https");
    assert Word("robots");
    assert Word("canonical");
  }

  lemma TagHeadersWords()
    ensures forall h :: h in TagHeaders ==> Word(h)
  {
    assert Word("has_viewport");
    assert Word("has_lang");
    assert Word("lang");
    assert Word("has_og_tags");
    assert Word("og_title");
    assert Word("has_schema");
    assert Word("schema_types");
  }

  lemma ListHeadersWords()
    ensures forall h :: h in ListHeaders ==> Word(h)
  {
    assert Word("warnings");
    assert Word("h1_samples");
  }

  /** The CSV file reads back as the 30 headers followed by one record of 30
      fields per result, holding exactly the values written. */
  lemma SeoCsvReadsBack(results: seq<AuditRecord>)
    requires |results| > 0
    ensures ReadRows(SeoCsv(results), Stops(false), "\n") == Some([SeoHeaders] + SeoRows(results))
    ensures |SeoHeaders| == 30
  {
    HeadersPlain();
    DocumentReadsBack(SeoHeaders, SeoRows(results), false);
  }

  /** A per-site file reads back as the 23 headers followed by one record
      of 23 fields per result of that site. */
  lemma SiteCsvReadsBack(records: seq<AuditRecord>)
    requires |records| > 0
    ensures ReadRows(SiteCsv(records), Stops(true), "\r\n") == Some([SiteHeaders] + SiteRows(records))
    ensures |SiteHeaders| == 23
  {
    HeadersPlain();
    DocumentReadsBack(SiteHeaders, SiteRows(records), true);
  }

  // ---------------------------------------------------------------------
  // The export commands

  /** A file handed to the browser for download. */
  datatype Download = Download(fileName: string, mimeType: string, content: string)

  /** What an export does: refuse with an error toast, or download files
      and show a success toast. */
  datatype ExportResult = Refused(toast: string) | Exported(files: seq<Download>, toast: string)

  const NoResultsToast: string := "Run an SEO audit first."

  /** `exportSeoJson`; `stringify` is `JSON.stringify(..., null, 2)`. */
  function ExportSeoJson(results: seq<AuditRecord>, stringify: seq<AuditRecord> -> string): (out: ExportResult)
    ensures |results| == 0 <==> out == Refused(NoResultsToast)
    ensures out.Exported? ==> out.files == [Download("seo-audit.json", "application/json", stringify(results))]
    ensures out.Exported? ==> out.toast == "JSON exported successfully."
  {
    if |results| == 0 then Refused(NoResultsToast)
    else Exported([Download("seo-audit.json", "application/json", stringify(results))], "JSON exported successfully.")
  }

  /** `exportSeoCsv`: nothing but the error toast without results, and
      otherwise one file that reads back as the header and a 30-field
      record per result. */
  function ExportSeoCsv(results: seq<AuditRecord>): (out: ExportResult)
    ensures |results| == 0 <==> out == Refused(NoResultsToast)
    ensures out.Exported? ==>
      (|out.files| == 1 && out.files[0].fileName == "seo-audit.csv" && out.files[0].mimeType == "text/csv"
       && out.toast == "CSV exported successfully."
       && ReadRows(out.files[0].content, Stops(false), "\n") == Some([SeoHeaders] + SeoRows(results)))
  {
    if |results| == 0 then Refused(NoResultsToast)
    else
      SeoCsvReadsBack(results);
      Exported([Download("seo-audit.csv", "text/csv", SeoCsv(results))], "CSV exported successfully.")
  }

  // ---------------------------------------------------------------------
  // exportSeoPerSiteCsv

  /** `parser.hostname || 'unknown-site'`. */
  function SiteHost(hostOf: string -> string): (site: string -> string)
    ensures forall u :: site(u) != ""
  {
    u => if hostOf(u) == "" then "unknown-site" else hostOf(u)
  }

  /** The host of each result, in result order. */
  function HostsInOrder(results: seq<AuditRecord>, hostOf: string -> string): (all: seq<string>)
    ensures |all| == |results| && forall j :: 0 <= j < |results| ==> all[j] == SiteHost(hostOf)(results[j].url)
  {
    seq(|results|, j requires 0 <= j < |results| => SiteHost(hostOf)(results[j].url))
  }

  /** The hosts of the results in order of first occurrence: the order of
      `Object.keys(grouped)`. */
  function SiteHosts(results: seq<AuditRecord>, hostOf: string -> string): (hosts: seq<string>)
    ensures forall h :: h in hosts <==> h in HostsInOrder(results, hostOf)
    ensures forall i, j :: 0 <= i < j < |hosts| ==> hosts[i] != hosts[j]
    ensures forall i, j :: 0 <= i < j < |hosts| ==> Api.FirstBefore(HostsInOrder(results, hostOf), hosts[i], hosts[j])
  {
    Api.FirstOccurrences(HostsInOrder(results, hostOf))
  }

  /** `grouped[host]`: the results of one host, in result order. */
  function SiteRecords(results: seq<AuditRecord>, host: string, hostOf: string -> string): seq<AuditRecord> {
    Api.InBucket(results, host, SiteHost(hostOf))
  }

  predicate SafeFileChar(c: char) {
    'a' <= c <= 'z' || 'A' <= c <= 'Z' || '0' <= c <= '9' || c == '_' || c == '-'
  }

  /** `host.replace(/[^a-zA-Z0-9_-]/g, '_')`. */
  function SanitizeHost(host: string): (safe: string)
    ensures |safe| == |host|
    ensures forall i :: 0 <= i < |host| ==> safe[i] == (if SafeFileChar(host[i]) then host[i] else '_')
  {
    if host == [] then []
    else [if SafeFileChar(host[0]) then host[0] else '_'] + SanitizeHost(host[1..])
  }

  /** Sanitised names use only safe characters, and sanitising them again
      changes nothing. */
  lemma SanitizeSafe(host: string)
    ensures forall i :: 0 <= i < |SanitizeHost(host)| ==> SafeFileChar(SanitizeHost(host)[i])
    ensures SanitizeHost(SanitizeHost(host)) == SanitizeHost(host)
  {
  }

  /** The download for one host. */
  function SiteFile(host: string, records: seq<AuditRecord>): Download {
    Download("seo-audit-" + SanitizeHost(host) + ".csv", "text/csv;charset=utf-8;", SiteCsv(records))
  }

  /** `grouped` maps each host that occurs to its results, in order. */
  ghost predicate Grouped(grouped: map<string, seq<AuditRecord>>, results: seq<AuditRecord>, hostOf: string -> string) {
    (forall i :: 0 <= i < |results| ==> Api.HostKey(results[i], SiteHost(hostOf)) in grouped)
    && forall h :: h in grouped ==> grouped[h] == Api.InBucket(results, h, SiteHost(hostOf))
  }

  /** The `forEach` that fills `grouped`. */
  method GroupBySite(results: seq<AuditRecord>, hostOf: string -> string) returns (grouped: map<string, seq<AuditRecord>>)
    ensures Grouped(grouped, results, hostOf)
  {
    grouped := Api.BucketBySite(results, SiteHost(hostOf));
  }

  /** The body of `downloadNext`: the file of one host. */
  method DownloadNext(results: seq<AuditRecord>, hostOf: string -> string, grouped: map<string, seq<AuditRecord>>, host: string)
    returns (file: Download)
    requires Grouped(grouped, results, hostOf) && host in SiteHosts(results, hostOf)
    ensures file == SiteFile(host, SiteRecords(results, host, hostOf))
  {
    var j :| 0 <= j < |results| && SiteHost(hostOf)(results[j].url) == host;
    assert Api.HostKey(results[j], SiteHost(hostOf)) == host;
    var records := grouped[host];
    file := SiteFile(host, records);
  }

  /** The downloads for `hosts`, one per host, in order. */
  function SiteFiles(results: seq<AuditRecord>, hostOf: string -> string, hosts: seq<string>): (files: seq<Download>)
    ensures |files| == |hosts|
    ensures forall i :: 0 <= i < |files| ==> files[i].mimeType == "text/csv;charset=utf-8;"
  {
    if hosts == [] then []
    else
      var last := hosts[|hosts| - 1];
      SiteFiles(results, hostOf, hosts[..|hosts| - 1]) + [SiteFile(last, SiteRecords(results, last, hostOf))]
  }

  /** The `i`-th download is the file of the `i`-th host. */
  lemma {:induction false} SiteFilesAt(results: seq<AuditRecord>, hostOf: string -> string, hosts: seq<string>, i: nat)
    requires i < |hosts|
    ensures SiteFiles(results, hostOf, hosts)[i] == SiteFile(hosts[i], SiteRecords(results, hosts[i], hostOf))
    decreases |hosts|
  {
    if i < |hosts| - 1 {
      SiteFilesAt(results, hostOf, hosts[..|hosts| - 1], i);
    }
  }

  /** `exportSeoPerSiteCsv`: results are grouped by host, and `downloadNext`
      steps through the hosts in first-occurrence order, downloading one
      file per host, then reports the number of files. */
  method ExportSeoPerSiteCsv(results: seq<AuditRecord>, hostOf: string -> string) returns (out: ExportResult)
    ensures |results| == 0 <==> out == Refused(NoResultsToast)
    ensures out.Exported? ==>
      var hosts := SiteHosts(results, hostOf);
      out.files == SiteFiles(results, hostOf, hosts)
      && out.toast == "Exported " + NatToString(|hosts|) + " CSV files."
    ensures out.Exported? ==>
      forall i :: 0 <= i < |out.files| ==> out.files[i].mimeType == "text/csv;charset=utf-8;"
  {
    if |results| == 0 {
      return Refused(NoResultsToast);
    }
    var grouped := GroupBySite(results, hostOf);
    var hosts := SiteHosts(results, hostOf);
    var files: seq<Download> := [];
    var downloadIndex := 0;
    while downloadIndex < |hosts|
      invariant 0 <= downloadIndex <= |hosts|
      invariant files == SiteFiles(results, hostOf, hosts[..downloadIndex])
    {
      var file := DownloadNext(results, hostOf, grouped, hosts[downloadIndex]);
      assert hosts[..downloadIndex + 1][..downloadIndex] == hosts[..downloadIndex];
      files := files + [file];
      downloadIndex := downloadIndex + 1;
    }
    assert hosts[..downloadIndex] == hosts;
    out := Exported(files, "Exported " + NatToString(|hosts|) + " CSV files.");
  }

  /** Every result is written to exactly one per-site file: the one of its
      own host, whose records are all of that host. */
  lemma PerSiteFilesPartition(results: seq<AuditRecord>, hostOf: string -> string, j: nat)
    requires j < |results|
    ensures var hosts := SiteHosts(results, hostOf);
      exists i :: 0 <= i < |hosts| && results[j] in SiteRecords(results, hosts[i], hostOf)
        && (forall k :: 0 <= k < |hosts| && results[j] in SiteRecords(results, hosts[k], hostOf) ==> k == i)
  {
    var site := SiteHost(hostOf);
    var hosts := SiteHosts(results, hostOf);
    var h := site(results[j].url);
    HostListed(results, hostOf, j);
    var i :| 0 <= i < |hosts| && hosts[i] == h;
    InBucketHas(results, j, site);
    assert Api.HostKey(results[j], site) == h;
    forall k | 0 <= k < |hosts| && results[j] in SiteRecords(results, hosts[k], hostOf)
      ensures k == i
    {
      Api.InBucketMembers(results, hosts[k], site);
      assert hosts[k] == h;
    }
  }

  /** The host of every result is among the per-site hosts. */
  lemma HostListed(results: seq<AuditRecord>, hostOf: string -> string, j: nat)
    requires j < |results|
    ensures SiteHost(hostOf)(results[j].url) in SiteHosts(results, hostOf)
  {
    assert HostsInOrder(results, hostOf)[j] == SiteHost(hostOf)(results[j].url);
  }

  /** A result lies in the group of its own host. */
  lemma {:induction false} InBucketHas(results: seq<AuditRecord>, j: nat, site: string -> string)
    requires j < |results|
    ensures results[j] in Api.InBucket(results, Api.HostKey(results[j], site), site)
    decreases |results|
  {
    var n := |results| - 1;
    var h := Api.HostKey(results[j], site);
    if j < n {
      InBucketHas(results[..n], j, site);
    }
  }

  /** Each per-site file reads back as the 23 headers and one record per
      result of its host. */
  lemma PerSiteFileReadsBack(results: seq<AuditRecord>, hostOf: string -> string, i: nat)
    requires i < |SiteHosts(results, hostOf)|
    ensures var host := SiteHosts(results, hostOf)[i];
      ReadRows(SiteFile(host, SiteRecords(results, host, hostOf)).content, Stops(true), "\r\n")
        == Some([SiteHeaders] + SiteRows(SiteRecords(results, host, hostOf)))
  {
    var site := SiteHost(hostOf);
    var host := SiteHosts(results, hostOf)[i];
    assert host in SiteHosts(results, hostOf);
    var j :| 0 <= j < |results| && SiteHost(hostOf)(results[j].url) == host;
    InBucketHas(results, j, site);
    SiteCsvReadsBack(SiteRecords(results, host, hostOf));
  }

  // ---------------------------------------------------------------------
  // exportExecutiveSummary

  /** `issueCount`: warning occurrences by severity class. */
  datatype IssueCount = IssueCount(high: nat, medium: nat, low: nat)

  /** One occurrence counted under its severity class `sev`. */
  function Tally(c: IssueCount, sev: string): IssueCount {
    if sev == "severity-high" then c.(high := c.high + 1)
    else if sev == "severity-medium" then c.(medium := c.medium + 1)
    else c.(low := c.low + 1)
  }

  /** The tallies of a list of warning occurrences under the classifier
      `severity` (`getSeverityClass`): each occurrence counts once, under
      exactly one class. */
  function IssueCountOf(ws: seq<string>, severity: string -> string): (c: IssueCount)
    ensures c.high + c.medium + c.low == |ws|
  {
    if ws == [] then IssueCount(0, 0, 0)
    else Tally(IssueCountOf(ws[..|ws| - 1], severity), severity(ws[|ws| - 1]))
  }

  /** The number of occurrences of each text, as a map. */
  function CountMap(xs: seq<string>): map<string, nat> {
    map w | w in xs :: multiset(xs)[w]
  }

  /** A map that counts `xs` is the count map of `xs`. */
  lemma CountMapUnique(counts: map<string, nat>, xs: seq<string>)
    requires Api.CountsOf(counts, xs)
    ensures counts == CountMap(xs)
  {
    assert forall w :: w in counts <==> w in xs by {
      forall w ensures w in counts <==> w in xs {
        assert w in xs <==> w in multiset(xs);
      }
    }
  }

  lemma CountMapCounts(xs: seq<string>)
    ensures Api.CountsOf(CountMap(xs), xs)
  {
    forall w ensures w in CountMap(xs) <==> w in multiset(xs) {
      assert w in xs <==> w in multiset(xs);
    }
  }

  /** The figures of the executive summary. */
  datatype Summary = Summary(
    total: nat, avgScore: int, scoreLabel: string, issueCount: IssueCount, topIssues: seq<(string, nat)>)

  datatype SummaryResult = SummaryRefused(toast: string) | Summarised(summary: Summary)

  lemma IssueCountSnoc(ws: seq<string>, w: string, severity: string -> string)
    ensures IssueCountOf(ws + [w], severity) == Tally(IssueCountOf(ws, severity), severity(w))
  {
    assert (ws + [w])[..|ws|] == ws;
  }

  /** `if (sev === 'severity-high') issueCount.high++; else if ...`. */
  method CountSeverity(issues: IssueCount, sev: string) returns (issues': IssueCount)
    ensures issues' == Tally(issues, sev)
    ensures issues'.high + issues'.medium + issues'.low == issues.high + issues.medium + issues.low + 1
  {
    if sev == "severity-high" {
      issues' := issues.(high := issues.high + 1);
    } else if sev == "severity-medium" {
      issues' := issues.(medium := issues.medium + 1);
    } else {
      issues' := issues.(low := issues.low + 1);
    }
  }

  /** One occurrence of the inner `forEach`. */
  method TallyOne(counts: map<string, nat>, issues: IssueCount, w: string, severity: string -> string, ghost seen: seq<string>)
    returns (counts': map<string, nat>, issues': IssueCount)
    requires Api.CountsOf(counts, seen) && issues == IssueCountOf(seen, severity)
    ensures Api.CountsOf(counts', seen + [w]) && issues' == IssueCountOf(seen + [w], severity)
  {
    Api.CountsStep(counts, seen, w);
    IssueCountSnoc(seen, w, severity);
    counts' := counts[w := (if w in counts then counts[w] else 0) + 1];
    var sev := severity(w);
    issues' := CountSeverity(issues, sev);
  }

  /** The inner `forEach` over one result's warnings. */
  method TallyWarnings(counts: map<string, nat>, ws: seq<string>, issues: IssueCount, severity: string -> string, ghost prior: seq<string>)
    returns (counts': map<string, nat>, issues': IssueCount)
    requires Api.CountsOf(counts, prior) && issues == IssueCountOf(prior, severity)
    ensures Api.CountsOf(counts', prior + ws) && issues' == IssueCountOf(prior + ws, severity)
  {
    counts', issues' := counts, issues;
    ghost var seen := prior;
    var j := 0;
    while j < |ws|
      invariant 0 <= j <= |ws| && seen == prior + ws[..j]
      invariant Api.CountsOf(counts', seen) && issues' == IssueCountOf(seen, severity)
    {
      counts', issues' := TallyOne(counts', issues', ws[j], severity, seen);
      TakeSnoc(ws, j);
      ConcatAssoc(prior, ws[..j], [ws[j]]);
      seen := seen + [ws[j]];
      j := j + 1;
    }
    assert ws[..j] == ws;
  }

  /** What the `forEach` over the results has accumulated after `done`. */
  ghost predicate SummaryInv(done: seq<AuditRecord>, totalScore: int, counts: map<string, nat>, issues: IssueCount) {
    totalScore == Api.ScoreSum(done)
    && Api.CountsOf(counts, Api.AllWarnings(done)) && issues == IssueCountOf(Api.AllWarnings(done), Ui.SeverityClass)
  }

  /** One result of the outer `forEach`: its score, then its warnings. */
  method SummaryStep(r: AuditRecord, totalScore: int, counts: map<string, nat>, issues: IssueCount, ghost done: seq<AuditRecord>)
    returns (totalScore': int, counts': map<string, nat>, issues': IssueCount)
    requires SummaryInv(done, totalScore, counts, issues)
    ensures SummaryInv(done + [r], totalScore', counts', issues')
  {
    assert (done + [r])[..|done|] == done;
    var score := Ui.CalculateSeoScore(r);
    totalScore' := totalScore + score;
    counts', issues' := TallyWarnings(counts, r.warnings, issues, Ui.SeverityClass, Api.AllWarnings(done));
  }

  /** `exportExecutiveSummary`: without results only the error toast;
      otherwise the number of pages, the rounded mean score and its label,
      the severity tallies of all warning occurrences, which add up to the
      number of occurrences, and the ten most frequent warnings. */
  method ExecutiveSummary(results: seq<AuditRecord>) returns (out: SummaryResult)
    ensures |results| == 0 <==> out == SummaryRefused(NoResultsToast)
    ensures out.Summarised? ==>
      var all := Api.AllWarnings(results);
      var s := out.summary;
      s.total == |results|
      && s.avgScore == Api.AverageScore(results) && s.scoreLabel == Ui.ScoreLabel(s.avgScore)
      && s.issueCount == IssueCountOf(all, Ui.SeverityClass)
      && s.issueCount.high + s.issueCount.medium + s.issueCount.low == |all|
      && (CountMapCounts(all); s.topIssues == Api.TopWarnings(all, CountMap(all), 10))
  {
    if |results| == 0 {
      return SummaryRefused(NoResultsToast);
    }
    var totalScore := 0;
    var issues := IssueCount(0, 0, 0);
    var counts: map<string, nat> := map[];
    var i := 0;
    while i < |results|
      invariant 0 <= i <= |results|
      invariant SummaryInv(results[..i], totalScore, counts, issues)
    {
      assert results[..i + 1] == results[..i] + [results[i]];
      totalScore, counts, issues := SummaryStep(results[i], totalScore, counts, issues, results[..i]);
      i := i + 1;
    }
    assert results[..i] == results;
    var summary := Summarise(results, totalScore, counts, issues);
    out := Summarised(summary);
  }

  /** The report figures once every result has been seen: `Math.round`
      of the mean score, its label, and the top ten of `warningCounts`. */
  method Summarise(results: seq<AuditRecord>, totalScore: int, counts: map<string, nat>, issues: IssueCount)
    returns (s: Summary)
    requires |results| > 0 && SummaryInv(results, totalScore, counts, issues)
    ensures var all := Api.AllWarnings(results);
      s.total == |results|
      && s.avgScore == Api.AverageScore(results) && s.scoreLabel == Ui.ScoreLabel(s.avgScore)
      && s.issueCount == IssueCountOf(all, Ui.SeverityClass)
      && (CountMapCounts(all); s.topIssues == Api.TopWarnings(all, CountMap(all), 10))
  {
    var avgScore := MeanScore(results, totalScore);
    var top := TopIssues(results, counts);
    s := Summary(|results|, avgScore, Ui.ScoreLabel(avgScore), issues, top);
  }

  /** `Math.round(totalScore / total)`. */
  method MeanScore(results: seq<AuditRecord>, totalScore: int) returns (avgScore: int)
    requires |results| > 0 && totalScore == Api.ScoreSum(results)
    ensures avgScore == Api.AverageScore(results)
  {
    var total := |results|;
    avgScore := (2 * totalScore + total) / (2 * total);
  }

  /** The `topIssues` of the report: `Object.keys(warningCounts)` sorted by
      count, most frequent first, cut to ten. */
  method TopIssues(results: seq<AuditRecord>, counts: map<string, nat>) returns (top: seq<(string, nat)>)
    requires Api.CountsOf(counts, Api.AllWarnings(results))
    ensures (CountMapCounts(Api.AllWarnings(results)); top == Api.TopWarnings(Api.AllWarnings(results), CountMap(Api.AllWarnings(results)), 10))
  {
    CountMapUnique(counts, Api.AllWarnings(results));
    top := Api.TopWarnings(Api.AllWarnings(results), counts, 10);
  }
}
