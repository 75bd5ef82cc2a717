/** The browser side of the server protocol in `static/js/api.js`: the
    frame-splitting loop of `streamEndpoint` over a Server-Sent Events
    stream (section 9.2 of the WHATWG HTML Living Standard, restricted to
    `data: ` lines separated by blank lines), the progress percentage, and
    the aggregations `displaySeoResults` draws from the audit records. */
module Api {
  import opened Strings
  import opened Sorting
  import opened Records
  import opened Ui

  // ---------------------------------------------------------------------
  // streamEndpoint

  /** What `JSON.parse` of a frame's payload yields, by its `type` field. */
  datatype Event =
    | ProgressEvent(completed: int, total: int)
    | CompleteEvent(results: seq<AuditRecord>)
    | ErrorEvent(message: string)
    | OtherEvent

  /** A call of one of the two callbacks, with the parsed event. */
  datatype Call = OnProgress(event: Event) | OnComplete(event: Event)

  /** Which of the optional callbacks the caller passed. */
  datatype Handlers = Handlers(hasOnProgress: bool, hasOnComplete: bool)

  /** How `streamEndpoint` ends: normally, by throwing an error with a
      message of its own, or by passing on the rejection of a promise it
      awaits (the browser's error, such as the `AbortError` of an aborted
      controller). */
  datatype StreamEnd =
    | Ended(calls: seq<Call>)
    | Threw(calls: seq<Call>, message: string)
    | Rejected(calls: seq<Call>)

  /** What the browser delivers for the request: `fetch` rejects (a network
      failure, or the controller aborted before the headers arrived), or a
      response with its status, the decoded reads of its body, and whether
      the read after them rejects (the controller aborted mid-stream)
      instead of reporting the end of the body. */
  datatype Transport =
    | FetchRejected
    | Response(status: nat, chunks: seq<string>, aborted: bool)

  /** `response.ok`: a status in the range 200-299. */
  predicate ResponseOk(status: nat) {
    200 <= status <= 299
  }

  /** The message thrown for a response that is not ok. */
  function StatusMessage(status: nat): string {
    "Server responded with status " + NatToString(status)
  }

  const FrameSeparator: string := "\n\n"
  const DataPrefix: string := "data: "

  /** The callback one complete frame triggers. `parse` is `JSON.parse`
      followed by reading the event's fields; `None` is a parse error. */
  function FrameCall(frame: string, parse: string -> Option<Event>, h: Handlers): (c: Option<Call>)
    ensures !StartsWith(frame, DataPrefix) ==> c.None?
    ensures StartsWith(frame, DataPrefix) && parse(frame[6..]).None? ==> c.None?
    ensures c.Some? ==> StartsWith(frame, DataPrefix) && parse(frame[6..]) == Some(c.value.event)
    ensures c.Some? && c.value.OnProgress? ==> h.hasOnProgress && c.value.event.ProgressEvent?
    ensures c.Some? && c.value.OnComplete? ==> h.hasOnComplete && c.value.event.CompleteEvent?
  {
    if !StartsWith(frame, DataPrefix) then None
    else match parse(frame[6..])
      case None => None
      case Some(e) =>
        if e.ProgressEvent? && h.hasOnProgress then Some(OnProgress(e))
        else if e.CompleteEvent? && h.hasOnComplete then Some(OnComplete(e))
        else None
  }

  /** `data.message || 'Server error'`. */
  function ErrorMessage(message: string): (m: string)
    ensures m != ""
  {
    if message == "" then "Server error" else message
  }

  /** The error a complete frame records, if it is an `error` event. */
  function FrameError(frame: string, parse: string -> Option<Event>): (e: Option<string>)
    ensures e.Some? ==> StartsWith(frame, DataPrefix) && parse(frame[6..]).Some?
                        && parse(frame[6..]).value.ErrorEvent?
  {
    if StartsWith(frame, DataPrefix) && parse(frame[6..]).Some? && parse(frame[6..]).value.ErrorEvent? then
      Some(ErrorMessage(parse(frame[6..]).value.message))
    else None
  }

  /** The callbacks the complete frames trigger, in order. */
  function Calls(frames: seq<string>, parse: string -> Option<Event>, h: Handlers): seq<Call> {
    if frames == [] then []
    else
      var last := frames[|frames| - 1];
      Calls(frames[..|frames| - 1], parse, h)
        + (if FrameCall(last, parse, h).Some? then [FrameCall(last, parse, h).value] else [])
  }

  /** The last error event among the frames: a later one replaces an
      earlier one, and none stops the stream. */
  function LastError(frames: seq<string>, parse: string -> Option<Event>): Option<string> {
    if frames == [] then None
    else
      match FrameError(frames[|frames| - 1], parse)
      case Some(m) => Some(m)
      case None => LastError(frames[..|frames| - 1], parse)
  }

  predicate HasComplete(calls: seq<Call>) {
    exists i :: 0 <= i < |calls| && calls[i].OnComplete?
  }

  lemma HasCompleteSnoc(calls: seq<Call>, c: Call)
    ensures HasComplete(calls + [c]) <==> HasComplete(calls) || c.OnComplete?
  {
    if HasComplete(calls) {
      var i :| 0 <= i < |calls| && calls[i].OnComplete?;
      assert (calls + [c])[i] == calls[i];
    }
    if HasComplete(calls + [c]) && !c.OnComplete? {
      var i :| 0 <= i < |calls + [c]| && (calls + [c])[i].OnComplete?;
      assert i < |calls| && calls[i].OnComplete?;
    }
    if c.OnComplete? {
      assert (calls + [c])[|calls|].OnComplete?;
    }
  }

  /** Splitting distributes over the frames: the calls of `a + b` are the
      calls of `a` followed by those of `b`. */
  lemma {:induction false} CallsConcat(a: seq<string>, b: seq<string>, parse: string -> Option<Event>, h: Handlers)
    ensures Calls(a + b, parse, h) == Calls(a, parse, h) + Calls(b, parse, h)
    decreases |b|
  {
    if b != [] {
      var b' := b[..|b| - 1];
      assert (a + b)[..|a + b| - 1] == a + b';
      var last := b[|b| - 1];
      assert (a + b)[|a + b| - 1] == last;
      var tail := if FrameCall(last, parse, h).Some? then [FrameCall(last, parse, h).value] else [];
      assert Calls(a + b, parse, h) == Calls(a + b', parse, h) + tail;
      assert Calls(b, parse, h) == Calls(b', parse, h) + tail;
      CallsConcat(a, b', parse, h);
    } else {
      assert a + b == a;
    }
  }

  /** The whole stream text read so far, chunk after chunk. */
  function Concat(chunks: seq<string>): string {
    if chunks == [] then "" else Concat(chunks[..|chunks| - 1]) + chunks[|chunks| - 1]
  }

  /** The frames of the text that a blank line has completed. */
  function CompleteFrames(text: string): seq<string> {
    var parts := Split(text, FrameSeparator);
    parts[..|parts| - 1]
  }

  /** What is left in `buffer` when the stream ends. */
  function Trailing(text: string): string {
    var parts := Split(text, FrameSeparator);
    parts[|parts| - 1]
  }

  /** The outcome of `streamEndpoint` on the full stream text: the calls of
      every complete frame; then a stored error is thrown; otherwise a
      trailing `data: ` frame may still complete the stream, if no complete
      event was dispatched before, or throw its error. */
  function StreamOutcome(text: string, parse: string -> Option<Event>, h: Handlers): (r: StreamEnd)
    ensures |r.calls| >= |Calls(CompleteFrames(text), parse, h)|
    ensures r.calls[..|Calls(CompleteFrames(text), parse, h)|] == Calls(CompleteFrames(text), parse, h)
    ensures LastError(CompleteFrames(text), parse).Some? ==>
      r == Threw(Calls(CompleteFrames(text), parse, h), LastError(CompleteFrames(text), parse).value)
    ensures |r.calls| > |Calls(CompleteFrames(text), parse, h)| ==>
      |r.calls| == |Calls(CompleteFrames(text), parse, h)| + 1
      && !HasComplete(Calls(CompleteFrames(text), parse, h))
      && r.calls[|r.calls| - 1].OnComplete? && r.Ended?
  {
    var frames := CompleteFrames(text);
    var calls := Calls(frames, parse, h);
    var buffer := Trailing(text);
    match LastError(frames, parse)
    case Some(m) => Threw(calls, m)
    case None =>
      if JsTrim(buffer) != "" && StartsWith(buffer, DataPrefix) then
        match parse(buffer[6..])
        case None => Ended(calls)
        case Some(e) =>
          if e.CompleteEvent? && h.hasOnComplete && !HasComplete(calls) then Ended(calls + [OnComplete(e)])
          else if e.ErrorEvent? then Threw(calls, ErrorMessage(e.message))
          else Ended(calls)
      else Ended(calls)
  }

  /** The outcome of `streamEndpoint` for what the browser delivers: a
      rejected `fetch` passes on its rejection, a status outside 200-299
      throws before any frame is read, an abort mid-stream passes on the
      rejection of the pending read after the frames read so far were
      dispatched, and otherwise the stream text decides (`StreamOutcome`).
      No callback runs unless the response was ok, and then every complete
      frame read is dispatched, in order, whichever way the call ends. */
  function StreamResult(t: Transport, parse: string -> Option<Event>, h: Handlers): (r: StreamEnd)
    ensures t.FetchRejected? ==> r.Rejected? && r.calls == []
    ensures t.Response? && !ResponseOk(t.status) ==> r == Threw([], StatusMessage(t.status))
    ensures t.Response? && ResponseOk(t.status) ==>
      var calls := Calls(CompleteFrames(Concat(t.chunks)), parse, h);
      |r.calls| >= |calls| && r.calls[..|calls|] == calls
      && (t.aborted ==> r == Rejected(calls))
      && (!t.aborted ==> r == StreamOutcome(Concat(t.chunks), parse, h))
  {
    match t
    case FetchRejected => Rejected([])
    case Response(status, chunks, aborted) =>
      if !ResponseOk(status) then Threw([], StatusMessage(status))
      else if aborted then Rejected(Calls(CompleteFrames(Concat(chunks)), parse, h))
      else StreamOutcome(Concat(chunks), parse, h)
  }

  /** The frames of one read: all complete frames of the buffer, and the
      new buffer. */
  lemma ReadStep(text: string, chunk: string)
    ensures CompleteFrames(text + chunk)
            == CompleteFrames(text) + CompleteFrames(Trailing(text) + chunk)
    ensures Trailing(text + chunk) == Trailing(Trailing(text) + chunk)
  {
    SplitAppend(text, chunk, FrameSeparator);
  }

  /** The inner `for` loop over the complete frames of one read. */
  method DispatchFrames(lines: seq<string>, parse: string -> Option<Event>, h: Handlers,
                        ghost done: seq<string>, calls: seq<Call>, completed: bool, serverError: Option<string>)
    returns (calls': seq<Call>, completed': bool, serverError': Option<string>)
    requires calls == Calls(done, parse, h) && completed == HasComplete(calls)
    requires serverError == LastError(done, parse)
    ensures calls' == Calls(done + lines, parse, h) && completed' == HasComplete(calls')
    ensures serverError' == LastError(done + lines, parse)
  {
    calls', completed', serverError' := calls, completed, serverError;
    var i := 0;
    assert done + lines[..0] == done;
    while i < |lines|
      invariant 0 <= i <= |lines|
      invariant calls' == Calls(done + lines[..i], parse, h) && completed' == HasComplete(calls')
      invariant serverError' == LastError(done + lines[..i], parse)
    {
      var line := lines[i];
      assert (done + lines[..i + 1])[..|done + lines[..i + 1]| - 1] == done + lines[..i];
      assert (done + lines[..i + 1])[|done + lines[..i + 1]| - 1] == line;
      if StartsWith(line, DataPrefix) {
        var data := parse(line[6..]);
        if data.Some? {
          var e := data.value;
          if e.ProgressEvent? && h.hasOnProgress {
            HasCompleteSnoc(calls', OnProgress(e));
            calls' := calls' + [OnProgress(e)];
          } else if e.CompleteEvent? && h.hasOnComplete {
            HasCompleteSnoc(calls', OnComplete(e));
            calls' := calls' + [OnComplete(e)];
            completed' := true;
          } else if e.ErrorEvent? {
            serverError' := Some(ErrorMessage(e.message));
          }
        }
      }
      i := i + 1;
    }
    assert lines[..i] == lines;
  }

  /** `streamEndpoint`: a rejected `fetch` or a status outside 200-299
      ends the call before any read. Otherwise each read is appended to the
      buffer, the buffer is split on blank lines, and the last, possibly
      incomplete, part is kept for the next read; a read that rejects ends
      the call with that rejection. The outcome depends only on the
      concatenated text, not on where the reads cut it. */
  method StreamEndpoint(t: Transport, parse: string -> Option<Event>, h: Handlers)
    returns (outcome: StreamEnd)
    ensures outcome == StreamResult(t, parse, h)
  {
    if t.FetchRejected? {
      return Rejected([]);
    }
    if !ResponseOk(t.status) {
      return Threw([], StatusMessage(t.status));
    }
    var chunks := t.chunks;
    var buffer := "";
    var calls: seq<Call> := [];
    var completed := false;
    var serverError: Option<string> := None;
    ghost var frames: seq<string> := [];
    var k := 0;
    while k < |chunks|
      invariant 0 <= k <= |chunks|
      invariant frames == CompleteFrames(Concat(chunks[..k])) && buffer == Trailing(Concat(chunks[..k]))
      invariant calls == Calls(frames, parse, h) && completed == HasComplete(calls)
      invariant serverError == LastError(frames, parse)
    {
      frames, buffer, calls, completed, serverError :=
        ReadChunk(chunks, k, parse, h, frames, buffer, calls, completed, serverError);
      k := k + 1;
    }
    assert chunks[..k] == chunks;
    if t.aborted {
      return Rejected(calls);
    }
    if serverError.Some? {
      return Threw(calls, serverError.value);
    }
    outcome := Ended(calls);
    if JsTrim(buffer) != "" && StartsWith(buffer, DataPrefix) {
      var data := parse(buffer[6..]);
      if data.None? {
        return;
      }
      var e := data.value;
      if e.CompleteEvent? && h.hasOnComplete && !completed {
        outcome := Ended(calls + [OnComplete(e)]);
      } else if e.ErrorEvent? {
        outcome := Threw(calls, ErrorMessage(e.message));
      }
    }
  }

  /** One pass of the `while (true)` read loop of `streamEndpoint`: append
      the chunk read to the buffer, keep its unfinished last line and
      dispatch the complete ones. */
  method ReadChunk(chunks: seq<string>, k: nat, parse: string -> Option<Event>, h: Handlers,
                   ghost frames: seq<string>, buffer: string, calls: seq<Call>, completed: bool,
                   serverError: Option<string>)
    returns (ghost frames': seq<string>, buffer': string, calls': seq<Call>, completed': bool,
             serverError': Option<string>)
    requires k < |chunks|
    requires frames == CompleteFrames(Concat(chunks[..k])) && buffer == Trailing(Concat(chunks[..k]))
    requires calls == Calls(frames, parse, h) && completed == HasComplete(calls)
    requires serverError == LastError(frames, parse)
    ensures frames' == CompleteFrames(Concat(chunks[..k + 1])) && buffer' == Trailing(Concat(chunks[..k + 1]))
    ensures calls' == Calls(frames', parse, h) && completed' == HasComplete(calls')
    ensures serverError' == LastError(frames', parse)
  {
    assert chunks[..k + 1][..k] == chunks[..k];
    ghost var text := Concat(chunks[..k]);
    assert Concat(chunks[..k + 1]) == text + chunks[k];
    ReadStep(text, chunks[k]);
    var lines := Split(buffer + chunks[k], FrameSeparator);
    var complete := lines[..|lines| - 1];
    buffer' := lines[|lines| - 1];
    calls', completed', serverError' := DispatchFrames(complete, parse, h, frames, calls, completed, serverError);
    frames' := frames + complete;
  }

  // ---------------------------------------------------------------------
  // updateProgressBar

  /** `Math.round(completed / total * 100)`, 0 when `total` is 0, on the
      exact quotient: halves round up. */
  function ProgressPercent(completed: nat, total: nat): (p: nat)
    ensures total == 0 ==> p == 0
  {
    if total > 0 then (200 * completed + total) / (2 * total) else 0
  }

  /** The percentage is the exact one rounded half up; it stays within
      [0, 100] while `completed <= total` and reaches 100 at the end. */
  lemma ProgressPercentBounds(completed: nat, total: nat)
    ensures var p := ProgressPercent(completed, total);
      (total > 0 ==> 2 * p * total <= 200 * completed + total < 2 * p * total + 2 * total)
      && (completed <= total ==> p <= 100)
      && (total > 0 && completed == total ==> p == 100)
  {
    if total > 0 {
      var p := ProgressPercent(completed, total);
      var n, d := 200 * completed + total, 2 * total;
      assert n == d * p + n % d && 0 <= n % d < d;
      assert 2 * p * total == d * p;
      if completed <= total {
        assert d * p < d * 101;
        MulCancel(p, 101, d);
      }
      if completed == total {
        assert d * 99 < d * p;
        MulCancel(99, p, d);
      }
    }
  }

  lemma MulCancel(a: int, b: int, x: int)
    requires x > 0 && x * a < x * b
    ensures a < b
  {
    assert x * (b - a) > 0;
  }

  /** The bar never moves backwards as results arrive. */
  lemma ProgressMonotone(c1: nat, c2: nat, total: nat)
    requires c1 <= c2
    ensures ProgressPercent(c1, total) <= ProgressPercent(c2, total)
  {
    if total > 0 {
      var p1, p2 := ProgressPercent(c1, total), ProgressPercent(c2, total);
      assert (2 * total) * p1 < (2 * total) * (p2 + 1);
      MulCancel(p1, p2 + 1, 2 * total);
    }
  }

  // ---------------------------------------------------------------------
  // displaySeoResults: site buckets

  /** `parser.hostname || 'unknown'`; `hostOf` is the anchor element's URL
      parser. */
  function HostKey(r: AuditRecord, hostOf: string -> string): string {
    if hostOf(r.url) == "" then "unknown" else hostOf(r.url)
  }

  /** The records whose host is `h`, in result order. */
  function InBucket(results: seq<AuditRecord>, h: string, hostOf: string -> string): seq<AuditRecord> {
    if results == [] then []
    else
      var last := results[|results| - 1];
      InBucket(results[..|results| - 1], h, hostOf) + (if HostKey(last, hostOf) == h then [last] else [])
  }

  /** `buckets` is the grouping of `rs` by host: one non-empty bucket per
      host that occurs, holding that host's records in order. */
  ghost predicate BucketsOf(buckets: map<string, seq<AuditRecord>>, rs: seq<AuditRecord>, hostOf: string -> string) {
    (forall j :: 0 <= j < |rs| ==> HostKey(rs[j], hostOf) in buckets)
    && (forall h :: h in buckets ==> buckets[h] == InBucket(rs, h, hostOf) && buckets[h] != [])
    && (forall h :: h !in buckets ==> InBucket(rs, h, hostOf) == [])
  }

  /** A host has a bucket only if some record has that host. */
  lemma BucketHostOccurs(buckets: map<string, seq<AuditRecord>>, rs: seq<AuditRecord>, hostOf: string -> string, h: string)
    requires BucketsOf(buckets, rs, hostOf) && h in buckets
    ensures exists j :: 0 <= j < |rs| && HostKey(rs[j], hostOf) == h
  {
    InBucketMembers(rs, h, hostOf);
    var r := buckets[h][0];
    assert r in InBucket(rs, h, hostOf);
    var j :| 0 <= j < |rs| && rs[j] == r;
  }

  lemma {:induction false} InBucketMembers(rs: seq<AuditRecord>, h: string, hostOf: string -> string)
    ensures forall r :: r in InBucket(rs, h, hostOf) ==> r in rs && HostKey(r, hostOf) == h
  {
    if rs != [] {
      InBucketMembers(rs[..|rs| - 1], h, hostOf);
    }
  }

  lemma InBucketSnoc(rs: seq<AuditRecord>, r: AuditRecord, h: string, hostOf: string -> string)
    ensures InBucket(rs + [r], h, hostOf) == InBucket(rs, h, hostOf) + (if HostKey(r, hostOf) == h then [r] else [])
  {
    assert (rs + [r])[..|rs|] == rs;
  }

  /** `if (!siteBuckets[host]) siteBuckets[host] = []; siteBuckets[host].push(r)`
      keeps the grouping. */
  lemma BucketsStep(buckets: map<string, seq<AuditRecord>>, rs: seq<AuditRecord>, r: AuditRecord, hostOf: string -> string)
    requires BucketsOf(buckets, rs, hostOf)
    ensures var host := HostKey(r, hostOf);
      BucketsOf(buckets[host := (if host in buckets then buckets[host] else []) + [r]], rs + [r], hostOf)
  {
    var host := HostKey(r, hostOf);
    var b := buckets[host := (if host in buckets then buckets[host] else []) + [r]];
    forall j | 0 <= j < |rs + [r]|
      ensures HostKey((rs + [r])[j], hostOf) in b
    {
      if j < |rs| {
        assert (rs + [r])[j] == rs[j];
      }
    }
    forall h | h in b
      ensures b[h] == InBucket(rs + [r], h, hostOf) && b[h] != []
    {
      InBucketSnoc(rs, r, h, hostOf);
    }
    forall h | h !in b
      ensures InBucket(rs + [r], h, hostOf) == []
    {
      InBucketSnoc(rs, r, h, hostOf);
    }
  }

  /** The `siteBuckets` loop: every result lands in the bucket of its own
      host, and each bucket holds exactly the results of its host, in
      order. */
  method BucketBySite(results: seq<AuditRecord>, hostOf: string -> string)
    returns (buckets: map<string, seq<AuditRecord>>)
    ensures forall i :: 0 <= i < |results| ==> HostKey(results[i], hostOf) in buckets
    ensures forall h :: h in buckets ==> buckets[h] == InBucket(results, h, hostOf) && buckets[h] != []
    ensures forall h :: h in buckets ==> exists i :: 0 <= i < |results| && HostKey(results[i], hostOf) == h
  {
    buckets := map[];
    var i := 0;
    while i < |results|
      invariant 0 <= i <= |results|
      invariant BucketsOf(buckets, results[..i], hostOf)
    {
      var r := results[i];
      var host := HostKey(r, hostOf);
      BucketsStep(buckets, results[..i], r, hostOf);
      assert results[..i + 1] == results[..i] + [r];
      var bucket := if host in buckets then buckets[host] else [];
      buckets := buckets[host := bucket + [r]];
      i := i + 1;
    }
    assert results[..i] == results;
    BucketsOfFacts(buckets, results, hostOf);
  }

  /** What the grouping says about the final map. */
  lemma BucketsOfFacts(buckets: map<string, seq<AuditRecord>>, results: seq<AuditRecord>, hostOf: string -> string)
    requires BucketsOf(buckets, results, hostOf)
    ensures forall i :: 0 <= i < |results| ==> HostKey(results[i], hostOf) in buckets
    ensures forall h :: h in buckets ==> buckets[h] == InBucket(results, h, hostOf) && buckets[h] != []
    ensures forall h :: h in buckets ==> exists i :: 0 <= i < |results| && HostKey(results[i], hostOf) == h
  {
    forall h | h in buckets
      ensures exists i :: 0 <= i < |results| && HostKey(results[i], hostOf) == h
    {
      BucketHostOccurs(buckets, results, hostOf, h);
    }
  }

  // ---------------------------------------------------------------------
  // displaySeoResults: average score

  /** The sum of the scores of the results. */
  function ScoreSum(results: seq<AuditRecord>): (total: nat)
    ensures total <= 100 * |results|
  {
    if results == [] then 0
    else ScoreSum(results[..|results| - 1]) + SeoScore(results[|results| - 1])
  }

  /** The `totalScore += calculateSeoScore(r)` loop. */
  method TotalScore(results: seq<AuditRecord>) returns (total: int)
    ensures total == ScoreSum(results)
  {
    total := 0;
    var i := 0;
    while i < |results|
      invariant 0 <= i <= |results|
      invariant total == ScoreSum(results[..i])
    {
      assert results[..i + 1][..i] == results[..i];
      var score := CalculateSeoScore(results[i]);
      total := total + score;
      i := i + 1;
    }
    assert results[..i] == results;
  }

  /** Rounding the mean of `n` scores of at most 100 stays within [0, 100]. */
  lemma RoundedMeanBound(sum: nat, n: nat)
    requires n > 0 && sum <= 100 * n
    ensures 0 <= (2 * sum + n) / (2 * n) <= 100
    ensures var avg := (2 * sum + n) / (2 * n);
      2 * avg * n <= 2 * sum + n < 2 * avg * n + 2 * n
  {
    var avg := (2 * sum + n) / (2 * n);
    assert avg * (2 * n) <= 2 * sum + n <= 201 * n;
    assert avg * (2 * n) < 101 * (2 * n);
    MulCancel(avg, 101, 2 * n);
  }

  /** `Math.round(totalScore / results.length)`, 0 for no results: the
      nearest integer to the mean score, halves up. */
  function AverageScore(results: seq<AuditRecord>): (avg: int)
    ensures 0 <= avg <= 100
    ensures |results| > 0 ==>
      2 * avg * |results| <= 2 * ScoreSum(results) + |results| < 2 * avg * |results| + 2 * |results|
  {
    var n := |results|;
    if n > 0 then
      RoundedMeanBound(ScoreSum(results), n);
      (2 * ScoreSum(results) + n) / (2 * n)
    else 0
  }

  // ---------------------------------------------------------------------
  // displaySeoResults: warning counts

  /** Every warning of every result, in order. */
  function AllWarnings(results: seq<AuditRecord>): seq<string> {
    if results == [] then []
    else AllWarnings(results[..|results| - 1]) + results[|results| - 1].warnings
  }

  /** `counts` holds, for each warning text seen in `xs`, its number of
      occurrences, and nothing else. */
  ghost predicate CountsOf(counts: map<string, nat>, xs: seq<string>) {
    (forall w :: w in counts <==> w in multiset(xs))
    && forall w :: w in counts ==> counts[w] == multiset(xs)[w]
  }

  lemma CountsStep(counts: map<string, nat>, xs: seq<string>, w: string)
    requires CountsOf(counts, xs)
    ensures CountsOf(counts[w := (if w in counts then counts[w] else 0) + 1], xs + [w])
  {
    assert multiset(xs + [w]) == multiset(xs) + multiset{w};
  }

  /** The inner `forEach`: `warningCounts[w] = (warningCounts[w] || 0) + 1`. */
  method CountInto(counts: map<string, nat>, ws: seq<string>, ghost prior: seq<string>)
    returns (counts': map<string, nat>)
    requires CountsOf(counts, prior)
    ensures CountsOf(counts', prior + ws)
  {
    counts' := counts;
    ghost var counted := prior;
    var j := 0;
    while j < |ws|
      invariant 0 <= j <= |ws|
      invariant counted == prior + ws[..j]
      invariant CountsOf(counts', counted)
    {
      var w := ws[j];
      CountsStep(counts', counted, w);
      TakeSnoc(ws, j);
      ConcatAssoc(prior, ws[..j], [w]);
      counts' := counts'[w := (if w in counts' then counts'[w] else 0) + 1];
      counted := counted + [w];
      j := j + 1;
    }
    assert ws[..j] == ws;
  }

  /** The `warningCounts` loop over all results. */
  method CountWarnings(results: seq<AuditRecord>) returns (counts: map<string, nat>)
    ensures CountsOf(counts, AllWarnings(results))
  {
    counts := map[];
    var i := 0;
    while i < |results|
      invariant 0 <= i <= |results|
      invariant CountsOf(counts, AllWarnings(results[..i]))
    {
      assert results[..i + 1][..i] == results[..i];
      assert AllWarnings(results[..i + 1]) == AllWarnings(results[..i]) + results[i].warnings;
      counts := CountInto(counts, results[i].warnings, AllWarnings(results[..i]));
      i := i + 1;
    }
    assert results[..i] == results;
  }

  /** The distinct elements of `xs` in order of first occurrence: the
      order `Object.keys` lists the keys of `warningCounts`. */
  function FirstOccurrences(xs: seq<string>): (ks: seq<string>)
    ensures forall w :: w in ks <==> w in xs
    ensures forall i, j :: 0 <= i < j < |ks| ==> ks[i] != ks[j]
    ensures forall i, j :: 0 <= i < j < |ks| ==> FirstIndex(xs, ks[i]) < FirstIndex(xs, ks[j])
  {
    if xs == [] then []
    else
      var init, last := xs[..|xs| - 1], xs[|xs| - 1];
      var ks := FirstOccurrences(init);
      assert xs == init + [last];
      assert forall w :: w in xs <==> w in init || w == last;
      forall w | w in init
        ensures FirstIndex(xs, w) == FirstIndex(init, w)
      {
        FirstIndexSnoc(init, last, w);
      }
      if last in ks then ks
      else
        assert FirstIndex(xs, last) == |xs| - 1;
        ks + [last]
  }

  /** `warningCounts[w]`, with 0 for a text never counted. */
  function CountOf(counts: map<string, nat>, w: string): nat {
    if w in counts then counts[w] else 0
  }

  /** Sort key for `warningCounts[b] - warningCounts[a]`: more occurrences first. */
  function ByCountDesc(counts: map<string, nat>): string -> Key {
    w => Key(-(CountOf(counts, w) as int), 0)
  }

  /** `a` and `b` both occur in `all`, and `a` occurs first. */
  predicate FirstBefore(all: seq<string>, a: string, b: string) {
    a in all && b in all && FirstIndex(all, a) < FirstIndex(all, b)
  }

  /** Where a text first occurs in `all` (past the end for one that does not). */
  function FirstSeen(all: seq<string>): string -> int {
    w => if w in all then FirstIndex(all, w) else |all|
  }

  /** The keys of `counts`, most frequent first, ties in first-occurrence
      order, each text once. */
  function WarningsByCount(all: seq<string>, counts: map<string, nat>): (sorted: seq<string>)
    ensures forall w :: w in sorted <==> w in all
    ensures SortedBy(sorted, ByCountDesc(counts))
    ensures forall i, j :: 0 <= i < j < |sorted| && CountOf(counts, sorted[i]) == CountOf(counts, sorted[j]) ==>
      FirstBefore(all, sorted[i], sorted[j])
    ensures forall i, j :: 0 <= i < j < |sorted| ==> sorted[i] != sorted[j]
  {
    var keys := FirstOccurrences(all);
    var sorted := StableSort(keys, ByCountDesc(counts));
    assert forall w :: w in sorted <==> w in all by {
      forall w ensures w in sorted <==> w in all {
        assert w in sorted <==> w in multiset(sorted);
        assert w in keys <==> w in multiset(keys);
      }
    }
    ByCountTies(all, counts, keys, sorted);
    sorted
  }

  /** The stable sort by count leaves equal counts in first-occurrence order,
      so no text is listed twice. */
  lemma ByCountTies(all: seq<string>, counts: map<string, nat>, keys: seq<string>, sorted: seq<string>)
    requires keys == FirstOccurrences(all)
    requires forall k :: WithKey(sorted, ByCountDesc(counts), k) == WithKey(keys, ByCountDesc(counts), k)
    requires forall w :: w in sorted ==> w in all
    ensures forall i, j :: 0 <= i < j < |sorted| && CountOf(counts, sorted[i]) == CountOf(counts, sorted[j]) ==>
      FirstBefore(all, sorted[i], sorted[j])
    ensures forall i, j :: 0 <= i < j < |sorted| ==> sorted[i] != sorted[j]
  {
    var rank, key := FirstSeen(all), ByCountDesc(counts);
    forall i, j | 0 <= i < j < |keys|
      ensures rank(keys[i]) < rank(keys[j])
    {
      assert keys[i] in all && keys[j] in all;
    }
    StableTies(keys, sorted, key, rank);
    forall i, j | 0 <= i < j < |sorted| && CountOf(counts, sorted[i]) == CountOf(counts, sorted[j])
      ensures FirstBefore(all, sorted[i], sorted[j])
    {
      assert key(sorted[i]) == key(sorted[j]);
      assert sorted[i] in all && sorted[j] in all;
      assert rank(sorted[i]) < rank(sorted[j]);
    }
  }

  lemma Counted(counts: map<string, nat>, all: seq<string>, w: string)
    requires CountsOf(counts, all) && w in all
    ensures w in counts && counts[w] == multiset(all)[w] > 0
  {
    assert w in multiset(all);
  }

  /** An entry beyond the cut counts no more than any entry before it. */
  lemma BeyondCut(sorted: seq<string>, counts: map<string, nat>, i: nat, k: nat)
    requires SortedBy(sorted, ByCountDesc(counts)) && i < k < |sorted|
    requires sorted[i] in counts && sorted[k] in counts
    ensures counts[sorted[i]] >= counts[sorted[k]]
  {
    assert KeyLe(ByCountDesc(counts)(sorted[i]), ByCountDesc(counts)(sorted[k]));
  }

  /** `.slice(0, limit)`, each text paired with its count. */
  function CutTop(sorted: seq<string>, counts: map<string, nat>, limit: nat): (top: seq<(string, nat)>)
    requires forall i :: 0 <= i < |sorted| ==> sorted[i] in counts
    ensures |top| == if |sorted| <= limit then |sorted| else limit
    ensures forall i :: 0 <= i < |top| ==> top[i] == (sorted[i], counts[sorted[i]])
  {
    var cut := if |sorted| <= limit then sorted else sorted[..limit];
    seq(|cut|, i requires 0 <= i < |cut| => (cut[i], counts[cut[i]]))
  }

  /** What the cut keeps and what it leaves out. */
  lemma TopFacts(all: seq<string>, counts: map<string, nat>, sorted: seq<string>, limit: nat, top: seq<(string, nat)>)
    requires CountsOf(counts, all)
    requires (forall w :: w in sorted <==> w in all) && SortedBy(sorted, ByCountDesc(counts))
    requires forall i :: 0 <= i < |sorted| ==> sorted[i] in counts
    requires top == CutTop(sorted, counts, limit)
    ensures forall i :: 0 <= i < |top| ==> top[i].0 in all && top[i].1 == multiset(all)[top[i].0] > 0
    ensures forall i, j :: 0 <= i < j < |top| ==> top[i].1 >= top[j].1
    ensures forall w :: w in all && (forall i :: 0 <= i < |top| ==> top[i].0 != w) ==>
      |top| == limit && forall i :: 0 <= i < |top| ==> top[i].1 >= multiset(all)[w]
  {
    TopCounted(all, counts, sorted, limit, top);
    TopDescending(counts, sorted, limit, top);
    forall w | w in all && (forall i :: 0 <= i < |top| ==> top[i].0 != w)
      ensures |top| == limit && forall i :: 0 <= i < |top| ==> top[i].1 >= multiset(all)[w]
    {
      LeftOut(all, counts, sorted, limit, top, w);
    }
  }

  lemma TopCounted(all: seq<string>, counts: map<string, nat>, sorted: seq<string>, limit: nat, top: seq<(string, nat)>)
    requires CountsOf(counts, all)
    requires (forall w :: w in sorted <==> w in all)
    requires forall i :: 0 <= i < |sorted| ==> sorted[i] in counts
    requires top == CutTop(sorted, counts, limit)
    ensures forall i :: 0 <= i < |top| ==> top[i].0 in all && top[i].1 == multiset(all)[top[i].0] > 0
  {
    forall i | 0 <= i < |top|
      ensures top[i].0 in all && top[i].1 == multiset(all)[top[i].0] > 0
    {
      Counted(counts, all, sorted[i]);
    }
  }

  lemma TopDescending(counts: map<string, nat>, sorted: seq<string>, limit: nat, top: seq<(string, nat)>)
    requires SortedBy(sorted, ByCountDesc(counts))
    requires forall i :: 0 <= i < |sorted| ==> sorted[i] in counts
    requires top == CutTop(sorted, counts, limit)
    ensures forall i, j :: 0 <= i < j < |top| ==> top[i].1 >= top[j].1
  {
    forall i, j | 0 <= i < j < |top|
      ensures top[i].1 >= top[j].1
    {
      BeyondCut(sorted, counts, i, j);
    }
  }

  /** A text the cut leaves out: the list is full, and every listed text
      occurs at least as often. */
  lemma LeftOut(all: seq<string>, counts: map<string, nat>, sorted: seq<string>, limit: nat, top: seq<(string, nat)>,
                w: string)
    requires CountsOf(counts, all)
    requires (forall w :: w in sorted <==> w in all) && SortedBy(sorted, ByCountDesc(counts))
    requires forall i :: 0 <= i < |sorted| ==> sorted[i] in counts
    requires top == CutTop(sorted, counts, limit)
    requires w in all && forall i :: 0 <= i < |top| ==> top[i].0 != w
    ensures |top| == limit && forall i :: 0 <= i < |top| ==> top[i].1 >= multiset(all)[w]
  {
    var k :| 0 <= k < |sorted| && sorted[k] == w;
    assert forall i :: 0 <= i < |top| ==> sorted[i] != w;
    assert k >= |top|;
    Counted(counts, all, w);
    forall i | 0 <= i < |top|
      ensures top[i].1 >= multiset(all)[w]
    {
      BeyondCut(sorted, counts, i, k);
    }
  }

  /** The cut lists each text once, and equal counts in first-occurrence order. */
  lemma TopTies(all: seq<string>, counts: map<string, nat>, sorted: seq<string>, limit: nat, top: seq<(string, nat)>)
    requires forall w :: w in sorted ==> w in all
    requires forall i :: 0 <= i < |sorted| ==> sorted[i] in counts
    requires forall i, j :: 0 <= i < j < |sorted| && CountOf(counts, sorted[i]) == CountOf(counts, sorted[j]) ==>
      FirstBefore(all, sorted[i], sorted[j])
    requires forall i, j :: 0 <= i < j < |sorted| ==> sorted[i] != sorted[j]
    requires top == CutTop(sorted, counts, limit)
    ensures forall i :: 0 <= i < |top| ==> top[i].0 in all
    ensures forall i, j :: 0 <= i < j < |top| ==> top[i].0 != top[j].0
    ensures forall i, j :: 0 <= i < j < |top| && top[i].1 == top[j].1 ==> FirstBefore(all, top[i].0, top[j].0)
  {
    forall i, j | 0 <= i < j < |top|
      ensures top[i].0 != top[j].0
      ensures top[i].1 == top[j].1 ==> FirstBefore(all, top[i].0, top[j].0)
    {
      assert top[i] == (sorted[i], counts[sorted[i]]) && top[j] == (sorted[j], counts[sorted[j]]);
      assert CountOf(counts, sorted[i]) == counts[sorted[i]] && CountOf(counts, sorted[j]) == counts[sorted[j]];
    }
  }

  /** Every text of the ordered list has a count. */
  lemma SortedCounted(counts: map<string, nat>, all: seq<string>, sorted: seq<string>)
    requires CountsOf(counts, all) && forall w :: w in sorted <==> w in all
    ensures forall i :: 0 <= i < |sorted| ==> sorted[i] in counts
  {
    forall i | 0 <= i < |sorted| ensures sorted[i] in counts {
      Counted(counts, all, sorted[i]);
    }
  }

  /** The most frequent texts of the warning list `all` (every warning of
      every result, in result order), most frequent first, cut to `limit`,
      each with its count. A text left out occurs no more often than any
      listed one; TopWarningsOnce gives the order of ties.
      `topWarnings` uses a limit of 8. */
  function TopWarnings(all: seq<string>, counts: map<string, nat>, limit: nat): (top: seq<(string, nat)>)
    requires CountsOf(counts, all)
    ensures |top| <= limit
    ensures forall i :: 0 <= i < |top| ==> top[i].0 in all && top[i].1 == multiset(all)[top[i].0] > 0
    ensures forall i, j :: 0 <= i < j < |top| ==> top[i].1 >= top[j].1
    ensures forall w :: w in all && (forall i :: 0 <= i < |top| ==> top[i].0 != w) ==>
      |top| == limit && forall i :: 0 <= i < |top| ==> top[i].1 >= multiset(all)[w]
  {
    var sorted := WarningsByCount(all, counts);
    SortedCounted(counts, all, sorted);
    var top := CutTop(sorted, counts, limit);
    TopFacts(all, counts, sorted, limit, top);
    top
  }

  /** Each text is listed once, and texts with equal counts in the order
      they first occur. */
  lemma TopWarningsOnce(all: seq<string>, counts: map<string, nat>, limit: nat)
    requires CountsOf(counts, all)
    ensures var top := TopWarnings(all, counts, limit);
      (forall i, j :: 0 <= i < j < |top| ==> top[i].0 != top[j].0)
      && forall i, j :: 0 <= i < j < |top| && top[i].1 == top[j].1 ==> FirstBefore(all, top[i].0, top[j].0)
  {
    var sorted := WarningsByCount(all, counts);
    SortedCounted(counts, all, sorted);
    TopTies(all, counts, sorted, limit, CutTop(sorted, counts, limit));
  }

  // ---------------------------------------------------------------------
  // displaySeoResults: score distribution

  datatype Distribution = Distribution(excellent: nat, good: nat, average: nat, poor: nat, critical: nat)

  /** Count one score into its bucket, at the thresholds 90, 70, 50, 30. */
  function Tally(d: Distribution, score: int): Distribution {
    if score >= 90 then d.(excellent := d.excellent + 1)
    else if score >= 70 then d.(good := d.good + 1)
    else if score >= 50 then d.(average := d.average + 1)
    else if score >= 30 then d.(poor := d.poor + 1)
    else d.(critical := d.critical + 1)
  }

  function DistributionOf(results: seq<AuditRecord>): Distribution {
    if results == [] then Distribution(0, 0, 0, 0, 0)
    else Tally(DistributionOf(results[..|results| - 1]), SeoScore(results[|results| - 1]))
  }

  /** The number of results whose score class is `c`. */
  function CountClass(results: seq<AuditRecord>, c: string): nat {
    if results == [] then 0
    else CountClass(results[..|results| - 1], c) + (if ScoreClass(SeoScore(results[|results| - 1])) == c then 1 else 0)
  }

  /** Each result falls in exactly one bucket: the five counts add up to
      the number of results, and each is the number of results
      `getScoreClass` puts in that class. */
  lemma {:induction false} DistributionPartitions(results: seq<AuditRecord>)
    ensures var d := DistributionOf(results);
      d.excellent + d.good + d.average + d.poor + d.critical == |results|
      && d.excellent == CountClass(results, "score-excellent")
      && d.good == CountClass(results, "score-good")
      && d.average == CountClass(results, "score-average")
      && d.poor == CountClass(results, "score-poor")
      && d.critical == CountClass(results, "score-critical")
  {
    if results != [] {
      var init := results[..|results| - 1];
      DistributionPartitions(init);
      TallyAddsOne(DistributionOf(init), SeoScore(results[|results| - 1]));
    }
  }

  /** Tallying a score adds exactly one to the five counts together. */
  lemma TallyAddsOne(d: Distribution, score: int)
    ensures var t := Tally(d, score);
      t.excellent + t.good + t.average + t.poor + t.critical
      == d.excellent + d.good + d.average + d.poor + d.critical + 1
  {
  }

  /** The `scoreDistribution` loop. */
  method ScoreDistribution(results: seq<AuditRecord>) returns (d: Distribution)
    ensures d == DistributionOf(results)
  {
    d := Distribution(0, 0, 0, 0, 0);
    var i := 0;
    while i < |results|
      invariant 0 <= i <= |results|
      invariant d == DistributionOf(results[..i])
    {
      assert results[..i + 1][..i] == results[..i];
      var score := CalculateSeoScore(results[i]);
      if score >= 90 { d := d.(excellent := d.excellent + 1); }
      else if score >= 70 { d := d.(good := d.good + 1); }
      else if score >= 50 { d := d.(average := d.average + 1); }
      else if score >= 30 { d := d.(poor := d.poor + 1); }
      else { d := d.(critical := d.critical + 1); }
      i := i + 1;
    }
    assert results[..i] == results;
  }

  // ---------------------------------------------------------------------
  // displaySeoResults: recommendations

  datatype Severity = High | Medium | Low

  datatype Recommendation = Recommendation(severity: Severity, title: string, description: string, impact: string)

  /** `severityOrder = { high: 1, medium: 2, low: 3 }`. */
  function SeverityRank(s: Severity): int {
    match s
    case High => 1
    case Medium => 2
    case Low => 3
  }

  function SeverityKey(r: Recommendation): Key {
    Key(SeverityRank(r.severity), 0)
  }

  /** `recommendations.sort(...)`: high first, then medium, then low, and
      within a severity in the order they were pushed. */
  function SortRecommendations(recs: seq<Recommendation>): (s: seq<Recommendation>)
    ensures multiset(s) == multiset(recs)
    ensures forall i, j :: 0 <= i < j < |s| ==> SeverityRank(s[i].severity) <= SeverityRank(s[j].severity)
    ensures forall i, j :: 0 <= i < j < |s| && s[i].severity == Low ==> s[j].severity == Low
    ensures forall i, j :: 0 <= i < j < |s| && s[j].severity == High ==> s[i].severity == High
    ensures forall k :: WithKey(s, SeverityKey, k) == WithKey(recs, SeverityKey, k)
  {
    StableSort(recs, SeverityKey)
  }
}
