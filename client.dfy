/** The API client: its constructor's argument checks, and the line
    framing of a server-sent-event stream (strip each line, skip blanks,
    keep `data: ` lines, stop at `[DONE]`, skip payloads that are not
    JSON). */
module MistralClient {
  import opened Wrappers
  import opened Json

  /** A handle standing for the HTTP client the host passes in. */
  datatype HttpClient = HttpClient(name: string)

  class Client {
    const apiKey: string
    const httpClient: HttpClient

    constructor (apiKey: string, httpClient: HttpClient)
      requires apiKey != ""
      ensures this.apiKey == apiKey && this.httpClient == httpClient
    {
      this.apiKey := apiKey;
      this.httpClient := httpClient;
    }
  }

  const MissingKey := "API key required for Mistral client"
  const MissingHttp := "HTTP client required for Mistral client"

  /** `MistralClient(api_key, http_client)`: `ValueError` for an empty key,
      checked first, then for a missing HTTP client. */
  method Create(apiKey: string, httpClient: Option<HttpClient>) returns (r: Result<Client, string>)
    ensures apiKey == "" ==> r == Failure(MissingKey)
    ensures apiKey != "" && httpClient.None? ==> r == Failure(MissingHttp)
    ensures apiKey != "" && httpClient.Some? ==>
      r.Success? && fresh(r.value) && r.value.apiKey == apiKey && r.value.httpClient == httpClient.value
  {
    if apiKey == "" {
      return Failure(MissingKey);
    }
    if httpClient.None? {
      return Failure(MissingHttp);
    }
    var c := new Client(apiKey, httpClient.value);
    return Success(c);
  }

  // ---------------------------------------------------------------------------
  // `str.strip()`

  /** The characters `str.isspace()` accepts. */
  predicate IsSpace(c: char) {
    || c == ' ' || '\t' <= c <= '\r' || '\U{001C}' <= c <= '\U{001F}'
    || c == '\U{0085}' || c == '\U{00A0}' || c == '\U{1680}' || '\U{2000}' <= c <= '\U{200A}'
    || c == '\U{2028}' || c == '\U{2029}' || c == '\U{202F}' || c == '\U{205F}' || c == '\U{3000}'
  }

  predicate AllSpace(s: string) {
    forall i :: 0 <= i < |s| ==> IsSpace(s[i])
  }

  /** The number of leading whitespace characters. */
  function Lead(s: string): (n: nat)
    ensures n <= |s|
  {
    if s == [] || !IsSpace(s[0]) then 0 else 1 + Lead(s[1..])
  }

  /** The end of `s` without its trailing whitespace. */
  function Trail(s: string): (n: nat)
    ensures n <= |s|
  {
    if s == [] || !IsSpace(s[|s| - 1]) then |s| else Trail(s[..|s| - 1])
  }

  /** `line.strip()` */
  function Strip(s: string): string {
    var l := s[Lead(s)..];
    l[..Trail(l)]
  }

  lemma {:induction false} LeadSpec(s: string)
    ensures AllSpace(s[..Lead(s)]) && (Lead(s) == |s| || !IsSpace(s[Lead(s)]))
  {
    if s != [] && IsSpace(s[0]) {
      LeadSpec(s[1..]);
      var n := Lead(s[1..]);
      var p := s[..n + 1];
      forall k | 0 <= k < |p|
        ensures IsSpace(p[k])
      {
        if k > 0 {
          assert p[k] == s[1..][..n][k - 1];
        }
      }
      assert n < |s[1..]| ==> s[n + 1] == s[1..][n];
    }
  }

  lemma {:induction false} TrailSpec(s: string)
    ensures AllSpace(s[Trail(s)..]) && (Trail(s) == 0 || !IsSpace(s[Trail(s) - 1]))
  {
    if s != [] && IsSpace(s[|s| - 1]) {
      var init := s[..|s| - 1];
      TrailSpec(init);
      var j := Trail(init);
      forall k | 0 <= k < |s| - j
        ensures IsSpace(s[j..][k])
      {
        if j + k < |s| - 1 {
          assert s[j..][k] == init[j..][k];
        }
      }
      assert j > 0 ==> s[j - 1] == init[j - 1];
    }
  }

  /** Stripping keeps a slice of the line: everything cut off is
      whitespace, and the result neither starts nor ends with any. */
  lemma StripSpec(s: string)
    ensures var i, l := Lead(s), s[Lead(s)..];
      && Strip(s) == s[i..i + Trail(l)]
      && AllSpace(s[..i]) && AllSpace(s[i + Trail(l)..])
      && (Strip(s) == [] || (!IsSpace(Strip(s)[0]) && !IsSpace(Strip(s)[|Strip(s)| - 1])))
  {
    StripSlice(s);
    StripCutsSpace(s);
    StripEdges(s);
  }

  lemma StripSlice(s: string)
    ensures Strip(s) == s[Lead(s)..Lead(s) + Trail(s[Lead(s)..])]
  {
    SliceOfSlice(s, Lead(s), Trail(s[Lead(s)..]));
  }

  lemma StripCutsSpace(s: string)
    ensures AllSpace(s[..Lead(s)]) && AllSpace(s[Lead(s) + Trail(s[Lead(s)..])..])
  {
    var i := Lead(s);
    var l := s[i..];
    LeadSpec(s);
    TrailSpec(l);
    SliceOfSlice(s, i, Trail(l));
  }

  lemma StripEdges(s: string)
    ensures Strip(s) == [] || (!IsSpace(Strip(s)[0]) && !IsSpace(Strip(s)[|Strip(s)| - 1]))
  {
    var i := Lead(s);
    var l := s[i..];
    var j := Trail(l);
    if j > 0 {
      LeadSpec(s);
      TrailSpec(l);
      var r := Strip(s);
      assert r == l[..j];
      assert r[0] == l[0] == s[i];
      assert r[|r| - 1] == l[j - 1];
    }
  }

  lemma SliceOfSlice(s: string, i: nat, j: nat)
    requires i + j <= |s|
    ensures s[i..][..j] == s[i..i + j] && s[i..][j..] == s[i + j..]
  {
  }

  // ---------------------------------------------------------------------------
  // Line framing

  const DataPrefix := "data: "
  const DoneMarker := "[DONE]"

  /** What one line does to the stream. */
  datatype LineAction = SkipLine | StopStream | EmitChunk(chunk: Json)

  /** The payload of a `data: ` line is the text after the six-character
      prefix; `[DONE]` ends the stream; a payload that parses is a chunk;
      blank lines, other lines and unparseable payloads are skipped. */
  function Classify(line: string, loads: string -> Option<Json>): LineAction {
    var l := Strip(line);
    if l == "" then SkipLine
    else if DataPrefix <= l then
      var data := l[6..];
      if data == DoneMarker then StopStream
      else match loads(data)
        case Some(v) => EmitChunk(v)
        case None => SkipLine
    else SkipLine
  }

  /** What a line does, by its stripped text: it stops the stream iff it is
      `data: [DONE]`; it yields a chunk only when it is a `data: ` line whose
      payload parses; blank lines and other lines are skipped. */
  lemma ClassifySpec(line: string, loads: string -> Option<Json>)
    ensures var a := Classify(line, loads);
      && (a.StopStream? <==> DataPrefix <= Strip(line) && Strip(line)[6..] == DoneMarker)
      && (a.EmitChunk? ==> DataPrefix <= Strip(line) && loads(Strip(line)[6..]) == Some(a.chunk) && Strip(line)[6..] != DoneMarker)
      && (Strip(line) == "" || !(DataPrefix <= Strip(line)) ==> a == SkipLine)
  {
  }

  /** The chunks a stream of lines yields. */
  function SseChunks(lines: seq<string>, loads: string -> Option<Json>): (r: seq<Json>)
    ensures |r| <= |lines|
  {
    if lines == [] then []
    else match Classify(lines[0], loads)
      case StopStream => []
      case SkipLine => SseChunks(lines[1..], loads)
      case EmitChunk(v) => [v] + SseChunks(lines[1..], loads)
  }

  /** The inner loop of `chat_stream._stream`, over the response's lines. */
  method Stream(lines: seq<string>, loads: string -> Option<Json>) returns (chunks: seq<Json>)
    ensures chunks == SseChunks(lines, loads)
  {
    chunks := [];
    var i := 0;
    while i < |lines|
      invariant 0 <= i <= |lines|
      invariant chunks + SseChunks(lines[i..], loads) == SseChunks(lines, loads)
    {
      assert lines[i..][1..] == lines[i + 1..];
      var line := Strip(lines[i]);
      i := i + 1;
      if line == "" {
        continue;
      }
      if DataPrefix <= line {
        var data := line[6..];
        if data == DoneMarker {
          assert chunks == SseChunks(lines, loads);
          return;
        }
        match loads(data)
        case Some(chunk) =>
          chunks := chunks + [chunk];
        case None =>
          continue;
      }
    }
  }

  /** No line up to `k` ends the stream. */
  predicate NoStopBefore(lines: seq<string>, k: int, loads: string -> Option<Json>) {
    forall i :: 0 <= i < k && i < |lines| ==> !Classify(lines[i], loads).StopStream?
  }

  /** Lines before any `[DONE]` contribute their chunks in order. */
  lemma {:induction false} SseAppend(a: seq<string>, b: seq<string>, loads: string -> Option<Json>)
    requires NoStopBefore(a, |a|, loads)
    ensures SseChunks(a + b, loads) == SseChunks(a, loads) + SseChunks(b, loads)
  {
    if a != [] {
      NoStopTail(a, loads);
      SseAppend(a[1..], b, loads);
      ConsSplit(a, b);
      SseCons(a[0], a[1..], loads);
      SseCons(a[0], a[1..] + b, loads);
      AppendAssoc(LineChunk(a[0], loads), SseChunks(a[1..], loads), SseChunks(b, loads));
    } else {
      assert a + b == b;
    }
  }

  lemma NoStopTail(a: seq<string>, loads: string -> Option<Json>)
    requires a != [] && NoStopBefore(a, |a|, loads)
    ensures !Classify(a[0], loads).StopStream? && NoStopBefore(a[1..], |a| - 1, loads)
  {
    forall i | 0 <= i < |a| - 1
      ensures !Classify(a[1..][i], loads).StopStream?
    {
      assert a[1..][i] == a[i + 1];
    }
  }

  lemma ConsSplit<T>(a: seq<T>, b: seq<T>)
    requires a != []
    ensures a == [a[0]] + a[1..] && a + b == [a[0]] + (a[1..] + b)
  {
  }

  /** A line that does not stop the stream contributes its own chunk, if
      any, ahead of the rest. */
  lemma SseCons(x: string, rest: seq<string>, loads: string -> Option<Json>)
    requires !Classify(x, loads).StopStream?
    ensures SseChunks([x] + rest, loads) == LineChunk(x, loads) + SseChunks(rest, loads)
  {
    assert ([x] + rest)[0] == x && ([x] + rest)[1..] == rest;
  }

  /** The chunk a single line yields, if any. */
  function LineChunk(x: string, loads: string -> Option<Json>): seq<Json> {
    match Classify(x, loads)
    case EmitChunk(v) => [v]
    case _ => []
  }

  /** A line that is blank, not a `data: ` line, or whose payload does not
      parse can be removed without changing the chunks. */
  lemma SkippedLineIsInvisible(a: seq<string>, line: string, b: seq<string>, loads: string -> Option<Json>)
    requires NoStopBefore(a, |a|, loads) && Classify(line, loads) == SkipLine
    ensures SseChunks(a + [line] + b, loads) == SseChunks(a + b, loads)
  {
    assert a + [line] + b == a + ([line] + b);
    SseAppend(a, [line] + b, loads);
    SseAppend(a, b, loads);
    assert ([line] + b)[1..] == b;
  }

  /** Nothing after the first `[DONE]` yields a chunk. */
  lemma StopEndsStream(lines: seq<string>, k: nat, loads: string -> Option<Json>)
    requires k < |lines| && NoStopBefore(lines, k, loads) && Classify(lines[k], loads).StopStream?
    ensures SseChunks(lines, loads) == SseChunks(lines[..k], loads)
  {
    NoStopPrefix(lines, k, loads);
    var pre, rest := lines[..k], lines[k..];
    AppendStop(pre, rest, loads);
    SplitAt(lines, k);
  }

  lemma SplitAt(lines: seq<string>, k: nat)
    requires k <= |lines|
    ensures lines[..k] + lines[k..] == lines
  {
  }

  lemma AppendStop(pre: seq<string>, rest: seq<string>, loads: string -> Option<Json>)
    requires NoStopBefore(pre, |pre|, loads)
    requires rest != [] && Classify(rest[0], loads).StopStream?
    ensures SseChunks(pre + rest, loads) == SseChunks(pre, loads)
  {
    SseAppend(pre, rest, loads);
    StopFirst(rest, loads);
  }

  lemma NoStopPrefix(lines: seq<string>, k: nat, loads: string -> Option<Json>)
    requires k <= |lines| && NoStopBefore(lines, k, loads)
    ensures NoStopBefore(lines[..k], k, loads)
  {
    forall i | 0 <= i < k ensures !Classify(lines[..k][i], loads).StopStream? {
      assert lines[..k][i] == lines[i];
    }
  }

  lemma StopFirst(rest: seq<string>, loads: string -> Option<Json>)
    requires rest != [] && Classify(rest[0], loads).StopStream?
    ensures SseChunks(rest, loads) == []
  {
  }

  /** Every chunk comes from a well-formed `data: ` line, in line order. */
  lemma {:induction false} ChunksFromLines(lines: seq<string>, loads: string -> Option<Json>)
    ensures forall c :: c in SseChunks(lines, loads) ==> exists i :: 0 <= i < |lines| && Classify(lines[i], loads) == EmitChunk(c)
  {
    if lines != [] {
      ChunksFromLines(lines[1..], loads);
      forall c | c in SseChunks(lines, loads)
        ensures exists i :: 0 <= i < |lines| && Classify(lines[i], loads) == EmitChunk(c)
      {
        if Classify(lines[0], loads) != EmitChunk(c) {
          var i :| 0 <= i < |lines[1..]| && Classify(lines[1..][i], loads) == EmitChunk(c);
          assert lines[i + 1] == lines[1..][i];
        }
      }
    }
  }

  /** Framing examples: surrounding whitespace is stripped, a bare
      `data: ` line is stripped to `data:` and skipped, and `[DONE]` stops
      the stream. */
  lemma DoneExample(loads: string -> Option<Json>)
    ensures Classify(" data: [DONE]\r", loads) == StopStream
  {
    var s := " data: [DONE]\r";
    assert s[1..] == "data: [DONE]\r";
    assert Lead(s) == 1 by {
      assert Lead(s[1..]) == 0;
    }
    var l := s[1..];
    assert l[..|l| - 1] == "data: [DONE]";
    assert Trail(l) == 12;
    assert Strip(s) == "data: [DONE]";
    assert "data: [DONE]"[6..] == DoneMarker;
  }

  lemma BareDataExample(loads: string -> Option<Json>)
    ensures Classify("data: ", loads) == SkipLine
  {
    var s := "data: ";
    assert Lead(s) == 0;
    assert s[0..] == s;
    assert s[..|s| - 1] == "data:";
    assert Trail(s) == 5;
    assert Strip(s) == "data:";
    assert !(DataPrefix <= "data:");
  }

  lemma OtherLineExample(loads: string -> Option<Json>)
    ensures Classify("event: ping", loads) == SkipLine
  {
    var s := "event: ping";
    assert Lead(s) == 0;
    assert s[0..] == s;
    assert Trail(s) == |s|;
    assert Strip(s) == s;
    assert s[0] != DataPrefix[0];
  }
}
