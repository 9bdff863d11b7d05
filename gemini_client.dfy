/** The streaming client of the generative-text API: the request it sends,
    how it cuts a text chunk out of each line of the streamed response body,
    and the loop that accumulates the chunks and emits every snapshot of the
    accumulated text. The network is not modelled: the response body is given
    as the sequence of lines the client reads, followed, possibly, by the
    failure that ended the request or the read. */
module GeminiClient {
  import opened Wrappers
  import opened KotlinText

  /** The integer generation parameters of a request; the two floating-point
      ones (temperature and topP) are not modelled. */
  datatype GenerationConfig = GenerationConfig(topK: int, maxOutputTokens: int)

  datatype Part = Part(text: string)
  datatype Content = Content(parts: seq<Part>)
  datatype GeminiRequest = GeminiRequest(contents: seq<Content>, generationConfig: GenerationConfig)

  /** The default configuration: at most the 40 likeliest tokens are
      sampled from, and an answer is at most 1024 tokens long. */
  function DefaultGenerationConfig(): (c: GenerationConfig)
    ensures c.topK == 40 && c.maxOutputTokens == 1024
  {
    GenerationConfig(40, 1024)
  }

  /** The request for a prompt: one content holding one part, the prompt,
      under the default configuration. */
  function BuildRequest(prompt: string): (r: GeminiRequest)
    ensures |r.contents| == 1 && r.contents[0].parts == [Part(prompt)]
    ensures r.generationConfig.topK == 40 && r.generationConfig.maxOutputTokens == 1024
  {
    GeminiRequest([Content([Part(prompt)])], DefaultGenerationConfig())
  }

  /** A line is looked at only if it holds this marker. */
  const TextMarker: string := "\"text\""
  /** The chunk is what follows the first occurrence of this. */
  const ChunkOpening: string := "\"text\": \""
  /** A failure of the request or of the read is rethrown with this prefix. */
  const FailurePrefix: string := "Failed to get response from AI: "

  /** An exception caught around the request, with its message, which may be
      null. */
  datatype Failure = Failure(message: Option<string>)

  /** The lines of the response body in the order they are read; `failure`,
      if present, is the exception that ended the request or the read after
      those lines. */
  datatype ResponseBody = ResponseBody(lines: seq<string>, failure: Option<Failure>)

  /** A nullable string as a Kotlin string template renders it. */
  function MessageText(m: Option<string>): string {
    match m
    case None => "null"
    case Some(text) => text
  }

  /** The message of the exception the flow rethrows. */
  function FailureMessage(f: Failure): (m: string)
    ensures StartsWith(m, FailurePrefix)
    ensures m[|FailurePrefix|..] == MessageText(f.message)
  {
    FailurePrefix + MessageText(f.message)
  }

  /** The chunk as cut out of the line, before unescaping: what follows the
      first `"text": "` up to the next double quote. Each cut falls back to
      the whole string when its delimiter is missing. */
  function RawChunk(line: string): string {
    SubstringBefore(SubstringAfter(line, ChunkOpening), "\"")
  }

  /** The two replacements applied to a raw chunk, in order. */
  function Unescape(raw: string): string {
    Replace(Replace(raw, "\\n", "\n"), "\\\"", "\"")
  }

  /** What a line contributes to the accumulated text: the unescaped chunk of
      a line holding the marker, nothing for any other line. */
  function LineChunk(line: string): string {
    if Contains(line, TextMarker) then Unescape(RawChunk(line)) else ""
  }

  /** The non-empty chunks of the lines, in order. */
  function Chunks(lines: seq<string>): (r: seq<string>)
    ensures forall i :: 0 <= i < |r| ==> r[i] != ""
    decreases |lines|
  {
    if lines == [] then []
    else
      var c := LineChunk(lines[|lines| - 1]);
      Chunks(lines[..|lines| - 1]) + (if c == "" then [] else [c])
  }

  /** The chunks written one after the other. */
  function Concat(chunks: seq<string>): string
    decreases |chunks|
  {
    if chunks == [] then ""
    else Concat(chunks[..|chunks| - 1]) + chunks[|chunks| - 1]
  }

  /** The values emitted while the lines are read: the accumulated text
      after every line that yields a non-empty chunk. */
  function Snapshots(lines: seq<string>): (r: seq<string>)
    ensures |r| == |Chunks(lines)|
    decreases |lines|
  {
    if lines == [] then []
    else
      var c := LineChunk(lines[|lines| - 1]);
      Snapshots(lines[..|lines| - 1]) + (if c == "" then [] else [Concat(Chunks(lines))])
  }

  /** `Chunks` of the first `n` lines, unfolded by index. */
  function ChunksOf(lines: seq<string>, n: nat): seq<string>
    requires n <= |lines|
  {
    if n == 0 then []
    else
      var c := LineChunk(lines[n - 1]);
      ChunksOf(lines, n - 1) + (if c == "" then [] else [c])
  }

  /** `Snapshots` of the first `n` lines, unfolded by index. */
  function SnapshotsOf(lines: seq<string>, n: nat): seq<string>
    requires n <= |lines|
  {
    if n == 0 then []
    else
      var c := LineChunk(lines[n - 1]);
      SnapshotsOf(lines, n - 1) + (if c == "" then [] else [Concat(ChunksOf(lines, n))])
  }

  /** One more line extends the index forms by its chunk and its snapshot. */
  lemma OfFirstStep(lines: seq<string>, i: nat)
    requires i < |lines|
    ensures Concat(ChunksOf(lines, i + 1)) == Concat(ChunksOf(lines, i)) + LineChunk(lines[i])
    ensures SnapshotsOf(lines, i + 1) == SnapshotsOf(lines, i)
      + (if LineChunk(lines[i]) == "" then [] else [Concat(ChunksOf(lines, i + 1))])
  {
    ConcatSnoc(ChunksOf(lines, i), LineChunk(lines[i]));
  }

  /** The index forms agree with `Chunks` and `Snapshots` on every prefix. */
  lemma {:induction false} OfFirstAgree(lines: seq<string>, n: nat)
    requires n <= |lines|
    ensures ChunksOf(lines, n) == Chunks(lines[..n])
    ensures SnapshotsOf(lines, n) == Snapshots(lines[..n])
  {
    if n > 0 {
      OfFirstAgree(lines, n - 1);
      var p := lines[..n];
      assert p[..|p| - 1] == lines[..n - 1];
      assert p[|p| - 1] == lines[n - 1];
    }
  }

  /** The error the flow ends with, if any. */
  function StreamError(body: ResponseBody): Option<string> {
    match body.failure
    case None => None
    case Some(f) => Some(FailureMessage(f))
  }

  /** `generateTextStream`: the accumulator starts empty, every line that
      holds the marker and yields a non-empty chunk appends that chunk and
      emits the whole accumulated text, and a failure is rethrown with the
      failure prefix once the lines read before it have been handled. */
  method GenerateTextStream(body: ResponseBody) returns (emitted: seq<string>, error: Option<string>)
    ensures emitted == Snapshots(body.lines)
    ensures |emitted| == |Chunks(body.lines)|
    ensures forall k :: 0 <= k < |emitted| ==> emitted[k] == Concat(Chunks(body.lines)[..k + 1])
    ensures error == StreamError(body)
  {
    emitted := ReadBody(body.lines);
    SnapshotsArePrefixSums(body.lines);
    error := match body.failure
      case None => None
      case Some(f) => Some(FailurePrefix + MessageText(f.message));
  }

  /** The read loop of `generateTextStream` over the lines of the body. */
  method ReadBody(lines: seq<string>) returns (emitted: seq<string>)
    ensures emitted == Snapshots(lines)
  {
    var accumulatedText := "";
    emitted := [];
    var i := 0;
    while i < |lines|
      invariant 0 <= i <= |lines|
      invariant accumulatedText == Concat(ChunksOf(lines, i))
      invariant emitted == SnapshotsOf(lines, i)
    {
      OfFirstStep(lines, i);
      accumulatedText, emitted := HandleLine(accumulatedText, emitted, lines[i]);
      i := i + 1;
    }
    OfFirstAgree(lines, i);
    assert lines[..i] == lines;
  }

  /** The body of the read loop for one line: a line with the marker whose
      chunk is not empty extends the accumulated text and emits it. */
  method HandleLine(accumulatedText: string, emitted: seq<string>, line: string)
    returns (accumulated': string, emitted': seq<string>)
    ensures accumulated' == accumulatedText + LineChunk(line)
    ensures emitted' == emitted + (if LineChunk(line) == "" then [] else [accumulated'])
  {
    accumulated', emitted' := accumulatedText, emitted;
    if Contains(line, TextMarker) {
      var textChunk := Unescape(RawChunk(line));
      if textChunk != "" {
        accumulated' := accumulatedText + textChunk;
        emitted' := emitted + [accumulated'];
      }
    }
  }

  // ---------------------------------------------------------------------
  // Accumulation

  /** What reading one more line does to the chunks and the emissions. */
  lemma ReadLine(read: seq<string>, line: string)
    ensures var c := LineChunk(line);
      && Chunks(read + [line]) == Chunks(read) + (if c == "" then [] else [c])
      && Concat(Chunks(read + [line])) == Concat(Chunks(read)) + c
      && Snapshots(read + [line]) == Snapshots(read) + (if c == "" then [] else [Concat(Chunks(read)) + c])
  {
    var lines := read + [line];
    assert lines[..|lines| - 1] == read;
    assert lines[|lines| - 1] == line;
    var c := LineChunk(line);
    var cr := Chunks(read);
    var cl := Chunks(lines);
    if c != "" {
      assert cl == cr + [c];
      assert cl[..|cl| - 1] == cr;
      assert Concat(cl) == Concat(cr) + c;
      assert Snapshots(lines) == Snapshots(read) + [Concat(cl)];
    } else {
      assert cl == cr;
      assert Snapshots(lines) == Snapshots(read);
    }
  }

  lemma {:induction false} ConcatAppend(a: seq<string>, b: seq<string>)
    ensures Concat(a + b) == Concat(a) + Concat(b)
    decreases |b|
  {
    if b == [] {
      assert a + b == a;
    } else {
      var n := |b| - 1;
      var ab := a + b;
      assert ab[..|ab| - 1] == a + b[..n];
      assert ab[|ab| - 1] == b[n];
      assert Concat(ab) == Concat(a + b[..n]) + b[n];
      ConcatAppend(a, b[..n]);
      assert Concat(b) == Concat(b[..n]) + b[n];
      var x, y, z := Concat(a), Concat(b[..n]), b[n];
      assert (x + y) + z == x + (y + z);
    }
  }

  /** The chunks of two runs of lines are the chunks of each, in order. */
  lemma {:induction false} ChunksAppend(a: seq<string>, b: seq<string>)
    ensures Chunks(a + b) == Chunks(a) + Chunks(b)
    decreases |b|
  {
    if b == [] {
      assert a + b == a;
    } else {
      var n := |b| - 1;
      assert (a + b)[..|a + b| - 1] == a + b[..n];
      assert (a + b)[|a + b| - 1] == b[n];
      ChunksAppend(a, b[..n]);
    }
  }

  /** Lines without the marker contribute nothing and cause no emission. */
  lemma {:induction false} NonMarkerLinesContributeNothing(a: seq<string>, b: seq<string>)
    requires forall i :: 0 <= i < |b| ==> !Contains(b[i], TextMarker)
    ensures Chunks(a + b) == Chunks(a)
    ensures Snapshots(a + b) == Snapshots(a)
    decreases |b|
  {
    if b == [] {
      assert a + b == a;
    } else {
      var n := |b| - 1;
      assert (a + b)[..|a + b| - 1] == a + b[..n];
      assert (a + b)[|a + b| - 1] == b[n];
      NonMarkerLinesContributeNothing(a, b[..n]);
    }
  }

  /** There is one emission per non-empty chunk, and the k-th emission is the
      concatenation of the first k + 1 chunks. */
  lemma {:induction false} SnapshotsArePrefixSums(lines: seq<string>)
    ensures forall k :: 0 <= k < |Snapshots(lines)| ==> Snapshots(lines)[k] == Concat(Chunks(lines)[..k + 1])
    decreases |lines|
  {
    if lines != [] {
      var init := lines[..|lines| - 1];
      var line := lines[|lines| - 1];
      assert lines == init + [line];
      SnapshotsArePrefixSums(init);
      ReadLine(init, line);
      var ci := Chunks(init);
      var cl := Chunks(lines);
      var si := Snapshots(init);
      var sl := Snapshots(lines);
      forall k | 0 <= k < |sl| ensures sl[k] == Concat(cl[..k + 1]) {
        if k < |si| {
          assert sl[k] == si[k];
          assert cl[..k + 1] == ci[..k + 1];
        } else {
          assert cl[..k + 1] == cl;
        }
      }
    }
  }

  /** Every emission is non-empty: it ends with the non-empty chunk that
      caused it. */
  lemma SnapshotsNonEmpty(lines: seq<string>, k: nat)
    requires k < |Snapshots(lines)|
    ensures |Snapshots(lines)[k]| > 0
  {
    SnapshotsArePrefixSums(lines);
    var cs := Chunks(lines);
    ConcatStep(cs, k);
    assert cs[k] != "";
  }

  /** Each emission is the previous one with a non-empty chunk appended, so
      the emitted snapshots grow strictly and each is a prefix of the next. */
  lemma SnapshotsGrow(lines: seq<string>, k: nat)
    requires k + 1 < |Snapshots(lines)|
    ensures Snapshots(lines)[k + 1] == Snapshots(lines)[k] + Chunks(lines)[k + 1]
    ensures |Snapshots(lines)[k]| < |Snapshots(lines)[k + 1]|
    ensures StartsWith(Snapshots(lines)[k + 1], Snapshots(lines)[k])
  {
    SnapshotsArePrefixSums(lines);
    var cs := Chunks(lines);
    var a := Snapshots(lines)[k];
    var b := Snapshots(lines)[k + 1];
    assert a == Concat(cs[..k + 1]) && b == Concat(cs[..k + 2]);
    ConcatStep(cs, k + 1);
    assert b[..|a|] == a;
  }

  /** Appending a chunk, or nothing for an empty one, appends it to the
      concatenation. */
  lemma ConcatSnoc(cs: seq<string>, c: string)
    ensures Concat(cs + (if c == "" then [] else [c])) == Concat(cs) + c
  {
    if c == "" {
      assert cs + [] == cs;
      assert Concat(cs) + c == Concat(cs);
    } else {
      assert (cs + [c])[..|cs|] == cs;
    }
  }

  /** Concatenating one more chunk appends it. */
  lemma ConcatStep(cs: seq<string>, n: nat)
    requires n < |cs|
    ensures Concat(cs[..n + 1]) == Concat(cs[..n]) + cs[n]
  {
    assert cs[..n + 1][..n] == cs[..n];
  }

  /** The last emission is the whole accumulated text. */
  lemma LastSnapshotIsAccumulatedText(lines: seq<string>)
    requires Snapshots(lines) != []
    ensures Snapshots(lines)[|Snapshots(lines)| - 1] == Concat(Chunks(lines))
  {
    SnapshotsArePrefixSums(lines);
    assert Chunks(lines)[..|Chunks(lines)|] == Chunks(lines);
  }

  // ---------------------------------------------------------------------
  // Chunk extraction

  /** A raw chunk never holds a double quote, since it is cut before the
      first one. */
  lemma RawChunkHasNoQuote(line: string)
    ensures '"' !in RawChunk(line)
  {
    SubstringBeforeExcludes(SubstringAfter(line, ChunkOpening), "\"");
    ContainsChar(RawChunk(line), '"');
  }

  /** Hence the second replacement never changes anything, and no chunk
      holds a double quote. */
  lemma QuoteUnescapeIsDead(line: string)
    ensures Unescape(RawChunk(line)) == Replace(RawChunk(line), "\\n", "\n")
    ensures '"' !in LineChunk(line)
  {
    var raw := RawChunk(line);
    RawChunkHasNoQuote(line);
    ReplaceKeepsAbsent(raw, "\\n", "\n", '"');
    ReplaceAbsent(Replace(raw, "\\n", "\n"), "\\\"", "\"", '"');
  }

  lemma {:induction false} ConcatKeepsAbsent(chunks: seq<string>, c: char)
    requires forall i :: 0 <= i < |chunks| ==> c !in chunks[i]
    ensures c !in Concat(chunks)
    decreases |chunks|
  {
    if chunks != [] {
      ConcatKeepsAbsent(chunks[..|chunks| - 1], c);
    }
  }

  lemma {:induction false} ChunksHaveNoQuote(lines: seq<string>)
    ensures forall i :: 0 <= i < |Chunks(lines)| ==> '"' !in Chunks(lines)[i]
    decreases |lines|
  {
    if lines != [] {
      ChunksHaveNoQuote(lines[..|lines| - 1]);
      QuoteUnescapeIsDead(lines[|lines| - 1]);
    }
  }

  /** No emitted snapshot holds a double quote. */
  lemma SnapshotsHaveNoQuote(lines: seq<string>)
    ensures forall k :: 0 <= k < |Snapshots(lines)| ==> '"' !in Snapshots(lines)[k]
  {
    SnapshotsArePrefixSums(lines);
    ChunksHaveNoQuote(lines);
    var cs := Chunks(lines);
    forall k | 0 <= k < |Snapshots(lines)| ensures '"' !in Snapshots(lines)[k] {
      var before := cs[..k + 1];
      assert forall i :: 0 <= i < |before| ==> before[i] == cs[i];
      ConcatKeepsAbsent(before, '"');
    }
  }

  /** A marker line without the exact opening `"text": "` yields what
      precedes its first double quote: the first cut falls back to the whole
      line. */
  lemma MissingOpeningTakesPrefix(line: string)
    requires Contains(line, TextMarker) && !Contains(line, ChunkOpening)
    ensures RawChunk(line) == SubstringBefore(line, "\"")
    ensures StartsWith(line, RawChunk(line)) && '"' !in RawChunk(line)
    ensures |RawChunk(line)| < |line| && line[|RawChunk(line)|] == '"'
  {
    RawChunkHasNoQuote(line);
    var m := IndexOf(line, TextMarker).value;
    assert line[m..][..|TextMarker|] == TextMarker;
    assert line[m] == '"';
    assert line[m..][..1] == "\"";
    OccurrenceIsContained(line, "\"", m);
    var q := IndexOf(line, "\"").value;
    assert line[q..][..1] == "\"";
  }

  /** Text before the first double quote of such a line, indentation for
      instance, is emitted as it is when it holds no backslash. */
  lemma MissingOpeningKeepsLeadingText(lead: string, rest: string)
    requires '"' !in lead && '\\' !in lead
    requires Contains(lead + rest, TextMarker) && !Contains(lead + rest, ChunkOpening)
    ensures StartsWith(LineChunk(lead + rest), lead)
  {
    var line := lead + rest;
    MissingOpeningTakesPrefix(line);
    var raw := RawChunk(line);
    assert forall i :: 0 <= i < |lead| ==> line[i] == lead[i];
    assert |lead| <= |raw|;
    assert raw[..|lead|] == line[..|lead|] == lead;
    var tail := raw[|lead|..];
    assert raw == lead + tail;
    ReplaceSkipsPrefix(lead, tail, "\\n", "\n");
    var once := Replace(tail, "\\n", "\n");
    ReplaceSkipsPrefix(lead, once, "\\\"", "\"");
    assert LineChunk(line) == lead + Replace(once, "\\\"", "\"");
  }

  /** Such a line yields no chunk, and so causes no emission, exactly when it
      starts with its double quote. */
  lemma MissingOpeningYieldsNothingIffQuoteFirst(line: string)
    requires Contains(line, TextMarker) && !Contains(line, ChunkOpening)
    ensures LineChunk(line) == "" <==> line[0] == '"'
  {
    MissingOpeningTakesPrefix(line);
    var raw := RawChunk(line);
    ReplaceEmpty(raw, "\\n", "\n");
    ReplaceEmpty(Replace(raw, "\\n", "\n"), "\\\"", "\"");
    assert raw != [] ==> line[0] == raw[0] != '"';
  }

  // ---------------------------------------------------------------------
  // Newline unescaping

  function UnescapeNewlines(s: string): string {
    Replace(s, "\\n", "\n")
  }

  lemma UnescapeNewlinesHead(s: string)
    requires s != []
    ensures UnescapeNewlines(s) != []
    ensures UnescapeNewlines(s)[0] == if StartsWith(s, "\\n") then '\n' else s[0]
  {
  }

  /** Every two-character sequence backslash-n becomes one newline: each
      occurrence shortens the text by one character ... */
  lemma {:induction false} UnescapeNewlinesLength(s: string)
    ensures |UnescapeNewlines(s)| == |s| - Occurrences(s, "\\n")
    decreases |s|
  {
    if s != [] {
      if StartsWith(s, "\\n") {
        assert s[..2] == "\\n";
        assert s[1..][0] == 'n';
        assert !StartsWith(s[1..], "\\n");
        assert Occurrences(s, "\\n") == 1 + Occurrences(s[2..], "\\n");
        UnescapeNewlinesLength(s[2..]);
      } else {
        UnescapeNewlinesLength(s[1..]);
      }
    }
  }

  /** ... and none is left afterwards. */
  lemma {:induction false} NoEscapedNewlineRemains(s: string)
    ensures var r := UnescapeNewlines(s);
      forall i :: 0 <= i < |r| - 1 ==> !(r[i] == '\\' && r[i + 1] == 'n')
    decreases |s|
  {
    if s != [] {
      var r := UnescapeNewlines(s);
      if StartsWith(s, "\\n") {
        NoEscapedNewlineRemains(s[2..]);
        assert r == "\n" + UnescapeNewlines(s[2..]);
      } else {
        NoEscapedNewlineRemains(s[1..]);
        assert r == [s[0]] + UnescapeNewlines(s[1..]);
        if |s| > 1 {
          UnescapeNewlinesHead(s[1..]);
          assert s[0] == '\\' ==> s[1] != 'n';
        }
      }
    }
  }
}
