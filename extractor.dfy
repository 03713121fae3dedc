/**
 * The upstream stream reader of server.ts: chunks are appended to a buffer,
 * the buffer is split on "\n" and its last piece kept, and each complete
 * `data: ` line is parsed and its delta content scanned for a video URL.
 *
 * The network reader and the text decoder are replaced by the sequence of
 * decoded chunks; `JSON.parse` and the property path
 * `choices?.[0]?.delta?.content` by a function `parse` handed in.
 */
module Extractor {
  import opened Base
  import opened Cells
  import opened Framing
  import opened UrlScan

  /** `JSON.parse` threw, or gave a value whose `choices?.[0]?.delta?.content` is `content`. */
  datatype Payload = Malformed | Delta(content: Value)

  const DataPrefix := "data: "
  const DoneMarker := "[DONE]"
  const LineBreak := "\n"

  /**
   * The text a line hands to the URL scan (server.ts:12-20), or `None` when
   * it hands none: not a `data: ` line, the `[DONE]` marker, a parse error,
   * a falsy content, or a content that is not a string (whose `.match`
   * throws and is caught like a parse error).
   */
  function LineContent(line: string, parse: string -> Payload): (r: Option<string>)
    ensures r.Some? ==> StartsWith(line, DataPrefix) && line[6..] != DoneMarker && r.value != ""
    ensures r.Some? ==> parse(line[6..]) == Delta(Some(Str(r.value)))
  {
    if !StartsWith(line, DataPrefix) then None
    else
      var data := line[6..];
      if data == DoneMarker then None
      else match parse(data)
        case Malformed => None
        case Delta(c) => if Filled(c) && c.value.Str? then Some(c.value.s) else None
  }

  /** The effect of one complete line on `videoUrl`. */
  function ProcessLine(line: string, parse: string -> Payload, v: Option<string>): Option<string> {
    match LineContent(line, parse)
    case None => v
    case Some(content) => ScanPatterns(content, v)
  }

  /** `videoUrl` after the given complete lines, starting from `null`. */
  function ScanLines(lines: seq<string>, parse: string -> Payload): Option<string> {
    if lines == [] then None
    else ProcessLine(lines[|lines| - 1], parse, ScanLines(lines[..|lines| - 1], parse))
  }

  /** The pattern loop of server.ts:28-49 over one content. */
  method ScanContent(content: string, prior: Option<string>) returns (videoUrl: Option<string>)
    ensures videoUrl == ScanPatterns(content, prior)
  {
    videoUrl := prior;
    var k := 0;
    while k < 3
      invariant 0 <= k <= 3
      invariant ScanFrom(content, k, videoUrl) == ScanPatterns(content, prior)
      decreases 3 - k
    {
      var matches := Matches(k, content);
      if matches != [] {
        videoUrl := ScanMatches(matches, videoUrl);
        if videoUrl.Some? {
          break;
        }
      }
      k := k + 1;
    }
  }

  /**
   * The loop over one pattern's matches (server.ts:36-45): the first match
   * that, with its scheme fixed up, looks like a video becomes `videoUrl`.
   */
  method ScanMatches(matches: seq<string>, prior: Option<string>) returns (videoUrl: Option<string>)
    ensures videoUrl == if FirstAccepted(matches).Some? then FirstAccepted(matches) else prior
  {
    videoUrl := prior;
    var i := 0;
    while i < |matches|
      invariant 0 <= i <= |matches|
      invariant FirstAccepted(matches[i..]) == FirstAccepted(matches)
      invariant videoUrl == prior
      decreases |matches| - i
    {
      var fullUrl := matches[i];
      if !StartsWith(fullUrl, "http") {
        fullUrl := "https://" + fullUrl;
      }
      assert fullUrl == WithScheme(matches[i]);
      assert matches[i..][1..] == matches[i + 1..];
      if LooksLikeVideo(fullUrl) {
        videoUrl := Some(fullUrl);
        return;
      }
      i := i + 1;
    }
  }

  /** The body of `for (const line of lines)` (server.ts:12-54). */
  method HandleLine(line: string, parse: string -> Payload, prior: Option<string>)
    returns (videoUrl: Option<string>)
    ensures videoUrl == ProcessLine(line, parse, prior)
  {
    videoUrl := prior;
    if StartsWith(line, DataPrefix) {
      var data := line[6..];
      if data != DoneMarker {
        match parse(data)
        case Malformed =>
          // the parse error is logged and the line dropped
        case Delta(content) =>
          if Filled(content) && content.value.Str? {
            videoUrl := ScanContent(content.value.s, videoUrl);
          }
          // a content that is not a string makes `.match` throw; that is caught the same way
      }
    }
  }

  /** The loop over the complete lines of one chunk, continuing from the lines `done` before it. */
  method HandleLines(lines: seq<string>, parse: string -> Payload, ghost done: seq<string>, prior: Option<string>)
    returns (videoUrl: Option<string>)
    requires prior == ScanLines(done, parse)
    ensures videoUrl == ScanLines(done + lines, parse)
  {
    videoUrl := prior;
    var j := 0;
    assert done + lines[..0] == done;
    while j < |lines|
      invariant 0 <= j <= |lines|
      invariant videoUrl == ScanLines(done + lines[..j], parse)
      decreases |lines| - j
    {
      var line := lines[j];
      ScanLinesStep(done, lines, j, parse);
      videoUrl := HandleLine(line, parse, videoUrl);
      j := j + 1;
    }
    assert lines[..j] == lines;
  }

  /** One step of the back-recursive fold. */
  lemma ScanLinesSnoc(lines: seq<string>, line: string, parse: string -> Payload)
    ensures ScanLines(lines + [line], parse) == ProcessLine(line, parse, ScanLines(lines, parse))
  {
    assert (lines + [line])[..|lines|] == lines;
  }

  /** The fold over the lines of a chunk, one line further. */
  lemma ScanLinesStep(done: seq<string>, lines: seq<string>, j: nat, parse: string -> Payload)
    requires j < |lines|
    ensures ScanLines(done + lines[..j + 1], parse) == ProcessLine(lines[j], parse, ScanLines(done + lines[..j], parse))
  {
    ScanLinesSnoc(done + lines[..j], lines[j], parse);
    assert done + lines[..j + 1] == (done + lines[..j]) + [lines[j]];
  }

  /** `Concat` over one more chunk. */
  lemma ConcatSnoc(chunks: seq<string>, n: nat)
    requires n < |chunks|
    ensures Concat(chunks[..n + 1]) == Concat(chunks[..n]) + chunks[n]
  {
    assert chunks[..n + 1][..n] == chunks[..n];
  }

  /**
   * The read loop of server.ts:5-56. However the text is cut into chunks,
   * `videoUrl` is the scan of its complete lines, in order, and the buffer
   * is the text after the last "\n", which is never scanned.
   */
  method ExtractVideoUrl(chunks: seq<string>, parse: string -> Payload)
    returns (videoUrl: Option<string>, buffer: string)
    ensures videoUrl == ScanLines(Complete(Concat(chunks), LineBreak), parse)
    ensures buffer == Pending(Concat(chunks), LineBreak)
  {
    buffer, videoUrl := "", None;
    ghost var done: seq<string> := [];
    var n := 0;
    while n < |chunks|
      invariant 0 <= n <= |chunks|
      invariant Cut(Concat(chunks[..n]), done, buffer, LineBreak)
      invariant videoUrl == ScanLines(done, parse)
      decreases |chunks| - n
    {
      ConcatSnoc(chunks, n);
      CutStep(Concat(chunks[..n]), done, buffer, chunks[n], LineBreak);
      buffer := buffer + chunks[n];
      var lines := Split(buffer, LineBreak);
      buffer := lines[|lines| - 1];
      lines := lines[..|lines| - 1];
      videoUrl := HandleLines(lines, parse, done, videoUrl);
      done := done + lines;
      n := n + 1;
    }
    assert chunks[..n] == chunks;
    CutIsSplit(Concat(chunks), done, buffer, LineBreak);
  }

  // ---------------------------------------------------------------- properties

  /**
   * Where the network cuts the stream does not matter: a chunk that arrives
   * in two pieces gives the same `videoUrl` and the same buffer.
   */
  lemma ChunkBoundaryIrrelevant(a: seq<string>, x: string, y: string, b: seq<string>, parse: string -> Payload)
    ensures Concat(a + [x, y] + b) == Concat(a + [x + y] + b)
    ensures ScanLines(Complete(Concat(a + [x, y] + b), LineBreak), parse) ==
      ScanLines(Complete(Concat(a + [x + y] + b), LineBreak), parse)
    ensures Pending(Concat(a + [x, y] + b), LineBreak) == Pending(Concat(a + [x + y] + b), LineBreak)
  {
    ConcatJoinedChunk(a, x, y, b);
  }

  lemma ConcatJoinedChunk(a: seq<string>, x: string, y: string, b: seq<string>)
    ensures Concat(a + [x, y] + b) == Concat(a + [x + y] + b)
  {
    calc {
      Concat(a + [x, y] + b);
      { ConcatAppend(a + [x, y], b); }
      Concat(a + [x, y]) + Concat(b);
      { ConcatAppend(a, [x, y]); ConcatPair(x, y); }
      Concat(a) + (x + y) + Concat(b);
      { ConcatAppend(a, [x + y]); assert Concat([x + y]) == x + y; }
      Concat(a + [x + y]) + Concat(b);
      { ConcatAppend(a + [x + y], b); }
      Concat(a + [x + y] + b);
    }
  }

  lemma ConcatPair(x: string, y: string)
    ensures Concat([x, y]) == x + y
  {
    assert [x, y][..1] == [x];
    assert [x][..0] == [];
    assert Concat([x]) == "" + x == x;
  }

  /** Every value ever held by `videoUrl` starts with "http" and looks like a video URL. */
  lemma {:induction false} ResultIsVideoUrl(lines: seq<string>, parse: string -> Payload)
    ensures ScanLines(lines, parse).Some? ==> VideoLike(ScanLines(lines, parse).value)
    decreases |lines|
  {
    if lines != [] {
      var init := lines[..|lines| - 1];
      ResultIsVideoUrl(init, parse);
      var c := LineContent(lines[|lines| - 1], parse);
      if c.Some? {
        ScanFromResult(c.value, 0, ScanLines(init, parse));
      }
    }
  }

  /**
   * `videoUrl` stays `null` unless some line's content yields an accepted
   * candidate, and what it holds is a candidate of one of the lines.
   */
  lemma {:induction false} ResultComesFromALine(lines: seq<string>, parse: string -> Payload)
    ensures ScanLines(lines, parse).Some? ==>
      exists i :: 0 <= i < |lines| && LineContent(lines[i], parse).Some? &&
        IsCandidate(LineContent(lines[i], parse).value, ScanLines(lines, parse).value)
    decreases |lines|
  {
    if lines != [] {
      var init := lines[..|lines| - 1];
      var last := |lines| - 1;
      var c := LineContent(lines[last], parse);
      ResultComesFromALine(init, parse);
      if c.Some? {
        ScanFromResult(c.value, 0, ScanLines(init, parse));
      }
      if ScanLines(lines, parse).Some? && ScanLines(lines, parse) == ScanLines(init, parse) {
        var i :| 0 <= i < |init| && LineContent(init[i], parse).Some? &&
          IsCandidate(LineContent(init[i], parse).value, ScanLines(init, parse).value);
        assert init[i] == lines[i];
      }
    }
  }

  /**
   * Lines that are not `data: ` lines, the `[DONE]` marker, unparsable
   * payloads and empty contents leave `videoUrl` as it was.
   */
  lemma IgnoredLineChangesNothing(lines: seq<string>, line: string, parse: string -> Payload)
    requires !StartsWith(line, DataPrefix) || line[6..] == DoneMarker ||
      parse(line[6..]) == Malformed || parse(line[6..]) == Delta(None) ||
      parse(line[6..]) == Delta(Some(Str("")))
    ensures ScanLines(lines + [line], parse) == ScanLines(lines, parse)
  {
    ScanLinesSnoc(lines, line, parse);
  }

  /** There is no set-if-absent guard: an accepted pattern-1 URL on a later line replaces the earlier one. */
  lemma LaterLineOverwrites(lines: seq<string>, line: string, parse: string -> Payload)
    requires LineContent(line, parse).Some?
    requires FirstAccepted(Matches(0, LineContent(line, parse).value)).Some?
    ensures ScanLines(lines + [line], parse) == FirstAccepted(Matches(0, LineContent(line, parse).value))
  {
    ScanLinesSnoc(lines, line, parse);
    FirstPatternOverwrites(LineContent(line, parse).value, ScanLines(lines, parse));
  }

  /**
   * Text after the last "\n" does not reach the scan: appending text that
   * completes no line changes neither `videoUrl` nor the scanned lines.
   */
  lemma PartialLineNotScanned(text: string, more: string, parse: string -> Payload)
    requires Free(Pending(text, LineBreak) + more, LineBreak)
    ensures ScanLines(Complete(text + more, LineBreak), parse) == ScanLines(Complete(text, LineBreak), parse)
    ensures Pending(text + more, LineBreak) == Pending(text, LineBreak) + more
  {
    PartialTailNotReleased(text, more, LineBreak);
  }
}
