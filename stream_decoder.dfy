/**
 * The line decoder of `streamCompletion`: each chunk read from the response
 * body is split on "\n" by itself (nothing is carried over between reads),
 * each trimmed `data: ` line is decoded, and `data: [DONE]` ends everything.
 */
module StreamDecoder {
  import opened Wrappers
  import opened PhpString
  import opened JsonValue

  const DataPrefix := "data: "
  const DoneLine := "data: [DONE]"

  /** `$data['choices'][0]['delta']['content']`. */
  const DeltaPath := [Name("choices"), Index(0), Name("delta"), Name("content")]

  /** What one raw line is: skipped, the terminator, or a data line with its payload. */
  datatype LineVerdict = Ignored | Terminator | Data(payload: string)

  /**
   * A line counts only when, trimmed, it starts with `data: `; it is the
   * terminator when it is exactly `data: [DONE]`, and otherwise its payload
   * is what follows the prefix.
   */
  function Classify(raw: string): LineVerdict {
    var line := Trim(raw);
    if PhpString.IsEmpty(line) || !StartsWith(line, DataPrefix) then Ignored
    else if line[6..] == "[DONE]" then Terminator
    else Data(line[6..])
  }

  /**
   * A line counts only when, trimmed, it starts with `data: `; it is the
   * terminator exactly when it trims to `data: [DONE]`, and otherwise its
   * payload is what follows the prefix.
   */
  lemma ClassifySpec(raw: string)
    ensures Classify(raw).Terminator? <==> Trim(raw) == DoneLine
    ensures Classify(raw).Data? <==> StartsWith(Trim(raw), DataPrefix) && Trim(raw) != DoneLine
    ensures Classify(raw).Data? ==> DataPrefix + Classify(raw).payload == Trim(raw)
  {
    var line := Trim(raw);
    if StartsWith(line, DataPrefix) {
      assert line == line[..6] + line[6..];
    }
  }

  /**
   * What a data payload passes to the callback: the delta content when it
   * is set in the decoded payload, and nothing otherwise (a payload the
   * decoder rejects decodes to null, so it passes nothing).
   */
  function Emission(payload: string, decode: string -> Option<Json>): (e: seq<Json>)
    ensures |e| <= 1
    ensures |e| == 1 <==> Isset(PhpDecode(decode, payload), DeltaPath).Some?
    ensures |e| == 1 ==> Isset(PhpDecode(decode, payload), DeltaPath) == Some(e[0])
    ensures decode(payload).None? ==> e == []
  {
    match Isset(PhpDecode(decode, payload), DeltaPath)
    case Some(content) => [content]
    case None => []
  }

  /** The callbacks made so far, and whether the terminator has been seen. */
  datatype Decoded = Decoded(emitted: seq<Json>, done: bool)

  /** Decoding `next` after `first`: nothing more once `first` is done. */
  function Then(first: Decoded, next: Decoded): Decoded {
    if first.done then first else Decoded(first.emitted + next.emitted, next.done)
  }

  /** The effect of one raw line. */
  function DecodeLine(raw: string, decode: string -> Option<Json>): Decoded {
    match Classify(raw)
    case Ignored => Decoded([], false)
    case Terminator => Decoded([], true)
    case Data(payload) => Decoded(Emission(payload, decode), false)
  }

  /** The lines of one chunk, in order, up to the terminator. */
  function DecodeLines(lines: seq<string>, decode: string -> Option<Json>): Decoded {
    if lines == [] then Decoded([], false)
    else Then(DecodeLines(lines[..|lines| - 1], decode), DecodeLine(lines[|lines| - 1], decode))
  }

  /** One chunk read from the body, split on "\n" by itself. */
  function DecodeChunk(chunk: string, decode: string -> Option<Json>): Decoded {
    DecodeLines(Explode(chunk, '\n'), decode)
  }

  /** The chunks in read order, each decoded independently, up to the terminator. */
  function DecodeChunks(chunks: seq<string>, decode: string -> Option<Json>): Decoded {
    if chunks == [] then Decoded([], false)
    else Then(DecodeChunks(chunks[..|chunks| - 1], decode), DecodeChunk(chunks[|chunks| - 1], decode))
  }

  lemma ThenAssociative(a: Decoded, b: Decoded, c: Decoded)
    ensures Then(Then(a, b), c) == Then(a, Then(b, c))
  {
  }

  /** Decoding a line list is decoding its two halves one after the other. */
  lemma {:induction false} LinesCompose(a: seq<string>, b: seq<string>, decode: string -> Option<Json>)
    ensures DecodeLines(a + b, decode) == Then(DecodeLines(a, decode), DecodeLines(b, decode))
    decreases |b|
  {
    if b == [] {
      assert a + b == a;
    } else {
      var b' := b[..|b| - 1];
      assert (a + b)[..|a + b| - 1] == a + b';
      LinesCompose(a, b', decode);
      ThenAssociative(DecodeLines(a, decode), DecodeLines(b', decode), DecodeLine(b[|b| - 1], decode));
    }
  }

  /**
   * Chunks are independent: the result of a read sequence is the result of
   * its first part followed by that of its second part, with no state other
   * than "done" passed between them.
   */
  lemma {:induction false} ChunksCompose(a: seq<string>, b: seq<string>, decode: string -> Option<Json>)
    ensures DecodeChunks(a + b, decode) == Then(DecodeChunks(a, decode), DecodeChunks(b, decode))
    decreases |b|
  {
    if b == [] {
      assert a + b == a;
    } else {
      var b' := b[..|b| - 1];
      assert (a + b)[..|a + b| - 1] == a + b';
      ChunksCompose(a, b', decode);
      ThenAssociative(DecodeChunks(a, decode), DecodeChunks(b', decode), DecodeChunk(b[|b| - 1], decode));
    }
  }

  /** Once the terminator has been read, later chunks change nothing. */
  lemma DoneIsFinal(a: seq<string>, b: seq<string>, decode: string -> Option<Json>)
    requires DecodeChunks(a, decode).done
    ensures DecodeChunks(a + b, decode) == DecodeChunks(a, decode)
  {
    ChunksCompose(a, b, decode);
  }

  /**
   * A line of the `i`-th chunk that trims to `data: [DONE]` ends the stream:
   * the result is that of the earlier chunks followed by the lines of that
   * chunk up to the terminator, and nothing later is decoded.
   */
  lemma TerminatorEndsStream(chunks: seq<string>, i: nat, j: nat, decode: string -> Option<Json>)
    requires i < |chunks| && j < |Explode(chunks[i], '\n')|
    requires Trim(Explode(chunks[i], '\n')[j]) == DoneLine
    ensures var lines := Explode(chunks[i], '\n');
      && DecodeChunks(chunks, decode) == Then(DecodeChunks(chunks[..i], decode), DecodeLines(lines[..j + 1], decode))
      && DecodeChunks(chunks, decode).done
  {
    var lines := Explode(chunks[i], '\n');
    TerminatorLine(lines[j], decode);
    LinesStopAt(lines, j, decode);
    ChunkEndsStream(chunks, i, decode);
  }

  /** A line that trims to `data: [DONE]` passes nothing and ends the stream. */
  lemma TerminatorLine(raw: string, decode: string -> Option<Json>)
    requires Trim(raw) == DoneLine
    ensures DecodeLine(raw, decode) == Decoded([], true)
  {
    ClassifySpec(raw);
  }

  /** A read that reaches the terminator is the last one that counts. */
  lemma ChunkEndsStream(chunks: seq<string>, i: nat, decode: string -> Option<Json>)
    requires i < |chunks| && DecodeChunk(chunks[i], decode).done
    ensures DecodeChunks(chunks, decode) == Then(DecodeChunks(chunks[..i], decode), DecodeChunk(chunks[i], decode))
    ensures DecodeChunks(chunks, decode).done
  {
    ChunksStep(chunks, i, decode);
    var d := DecodeChunks(chunks[..i + 1], decode);
    FinalFrom(chunks, i, d.emitted, decode);
  }

  /** The lines of all chunks, each chunk exploded on its own, in read order. */
  function ChunkLines(chunks: seq<string>): seq<string> {
    if chunks == [] then [] else ChunkLines(chunks[..|chunks| - 1]) + Explode(chunks[|chunks| - 1], '\n')
  }

  /**
   * The callbacks of a whole stream are those of the per-chunk line lists
   * laid end to end, cut at the first terminator.
   */
  lemma {:induction false} ChunksAsLines(chunks: seq<string>, decode: string -> Option<Json>)
    ensures DecodeChunks(chunks, decode) == DecodeLines(ChunkLines(chunks), decode)
  {
    if chunks != [] {
      var front := chunks[..|chunks| - 1];
      ChunksAsLines(front, decode);
      LinesCompose(ChunkLines(front), Explode(chunks[|chunks| - 1], '\n'), decode);
    }
  }

  /**
   * A data line whose payload the decoder rejects passes nothing and does
   * not stop the lines after it.
   */
  lemma MalformedLineSkipped(a: seq<string>, line: string, b: seq<string>, decode: string -> Option<Json>)
    requires Classify(line).Data? && decode(Classify(line).payload).None?
    ensures DecodeLines(a + [line] + b, decode) == DecodeLines(a + b, decode)
  {
    var none := Decoded([], false);
    assert DecodeLine(line, decode) == none;
    assert DecodeLines([line], decode) == none by {
      assert [line][..0] == [];
    }
    LinesCompose(a, [line], decode);
    assert DecodeLines(a + [line], decode) == DecodeLines(a, decode);
    LinesCompose(a + [line], b, decode);
    LinesCompose(a, b, decode);
  }

  /**
   * The loop of `streamCompletion` over the chunks read from the body: the
   * callback values in order, and whether `data: [DONE]` was reached.
   */
  method DecodeStream(chunks: seq<string>, decode: string -> Option<Json>) returns (emitted: seq<Json>, done: bool)
    ensures Decoded(emitted, done) == DecodeChunks(chunks, decode)
  {
    emitted, done := [], false;
    var i := 0;
    while i < |chunks|
      invariant 0 <= i <= |chunks|
      invariant DecodeChunks(chunks[..i], decode) == Decoded(emitted, false)
    {
      var lines := Explode(chunks[i], '\n');
      ghost var before := emitted;
      ghost var chunkOut: seq<Json> := [];
      var j := 0;
      while j < |lines|
        invariant 0 <= j <= |lines|
        invariant emitted == before + chunkOut
        invariant DecodeLines(lines[..j], decode) == Decoded(chunkOut, false)
      {
        LinesStep(lines, j, decode);
        LineEffect(lines[j], decode);
        var line := Trim(lines[j]);
        if PhpString.IsEmpty(line) || !StartsWith(line, DataPrefix) {
          j := j + 1;
          continue;
        }
        var payload := line[6..];
        if payload == "[DONE]" {
          done := true;
          ChunkEndsAt(lines, j, chunkOut, decode);
          FinishAt(chunks, i, before, chunkOut, decode);
          break break;
        }
        var data := PhpDecode(decode, payload);
        var content := Isset(data, DeltaPath);
        if content.Some? {
          emitted := emitted + [content.value];
          chunkOut := chunkOut + [content.value];
        }
        j := j + 1;
      }
      assert lines[..j] == lines;
      ChunksStep(chunks, i, decode);
      i := i + 1;
    }
    if !done {
      assert chunks[..i] == chunks;
    }
  }

  /** The effect of one raw line, in the terms the loop of `DecodeStream` computes it. */
  lemma LineEffect(raw: string, decode: string -> Option<Json>)
    ensures var line := Trim(raw);
      if PhpString.IsEmpty(line) || !StartsWith(line, DataPrefix) then DecodeLine(raw, decode) == Decoded([], false)
      else if line[6..] == "[DONE]" then DecodeLine(raw, decode) == Decoded([], true)
      else match Isset(PhpDecode(decode, line[6..]), DeltaPath)
        case Some(content) => DecodeLine(raw, decode) == Decoded([content], false)
        case None => DecodeLine(raw, decode) == Decoded([], false)
  {
  }

  /** Decoding one more line. */
  lemma LinesStep(lines: seq<string>, j: nat, decode: string -> Option<Json>)
    requires j < |lines|
    ensures DecodeLines(lines[..j + 1], decode) == Then(DecodeLines(lines[..j], decode), DecodeLine(lines[j], decode))
  {
    assert lines[..j + 1][..j] == lines[..j];
  }

  /** Decoding one more chunk. */
  lemma ChunksStep(chunks: seq<string>, i: nat, decode: string -> Option<Json>)
    requires i < |chunks|
    ensures DecodeChunks(chunks[..i + 1], decode) == Then(DecodeChunks(chunks[..i], decode), DecodeChunk(chunks[i], decode))
  {
    assert chunks[..i + 1][..i] == chunks[..i];
  }

  /** A line list whose `j`-th line is the terminator decodes as its first `j + 1` lines. */
  lemma LinesStopAt(lines: seq<string>, j: nat, decode: string -> Option<Json>)
    requires j < |lines| && DecodeLine(lines[j], decode).done
    ensures DecodeLines(lines, decode) == DecodeLines(lines[..j + 1], decode)
    ensures DecodeLines(lines, decode).done
  {
    LinesStep(lines, j, decode);
    LinesDoneAt(lines, j, decode);
  }

  lemma LinesDoneAt(lines: seq<string>, j: nat, decode: string -> Option<Json>)
    requires j < |lines| && DecodeLines(lines[..j + 1], decode).done
    ensures DecodeLines(lines, decode) == DecodeLines(lines[..j + 1], decode)
  {
    LinesCompose(lines[..j + 1], lines[j + 1..], decode);
    assert lines[..j + 1] + lines[j + 1..] == lines;
  }

  /** The step `DecodeStream` takes when the `i`-th chunk holds the terminator. */
  lemma FinishAt(chunks: seq<string>, i: nat, before: seq<Json>, rest: seq<Json>,
                 decode: string -> Option<Json>)
    requires i < |chunks|
    requires DecodeChunks(chunks[..i], decode) == Decoded(before, false)
    requires DecodeChunk(chunks[i], decode) == Decoded(rest, true)
    ensures DecodeChunks(chunks, decode) == Decoded(before + rest, true)
  {
    ChunksStep(chunks, i, decode);
    FinalFrom(chunks, i, before + rest, decode);
  }

  lemma FinalFrom(chunks: seq<string>, i: nat, emitted: seq<Json>, decode: string -> Option<Json>)
    requires i < |chunks|
    requires DecodeChunks(chunks[..i + 1], decode) == Decoded(emitted, true)
    ensures DecodeChunks(chunks, decode) == Decoded(emitted, true)
  {
    DoneIsFinal(chunks[..i + 1], chunks[i + 1..], decode);
    assert chunks[..i + 1] + chunks[i + 1..] == chunks;
  }

  /** A chunk's line list whose `j`-th line is the terminator. */
  lemma ChunkEndsAt(lines: seq<string>, j: nat, rest: seq<Json>, decode: string -> Option<Json>)
    requires j < |lines| && DecodeLine(lines[j], decode).done
    requires DecodeLines(lines[..j], decode) == Decoded(rest, false)
    ensures DecodeLines(lines, decode) == Decoded(rest, true)
  {
    LinesStopAt(lines, j, decode);
    LinesStep(lines, j, decode);
  }

  /** A chunk without a line break is one line. */
  lemma SingleLineChunk(line: string, decode: string -> Option<Json>)
    requires '\n' !in line
    ensures DecodeChunk(line, decode) == DecodeLine(line, decode)
  {
    ExplodeWithoutSeparator(line, '\n');
    OneLine(line, decode);
  }

  lemma OneLine(line: string, decode: string -> Option<Json>)
    ensures DecodeLines([line], decode) == DecodeLine(line, decode)
  {
    assert [line][..0] == [];
  }

  /** A chunk is its first line followed by the rest of the chunk. */
  lemma FirstLine(line: string, rest: string, decode: string -> Option<Json>)
    requires '\n' !in line
    ensures DecodeChunk(line + "\n" + rest, decode) == Then(DecodeLine(line, decode), DecodeChunk(rest, decode))
  {
    assert line + "\n" + rest == line + ['\n'] + rest;
    ExplodeFirstPiece(line, rest, '\n');
    LinesCompose([line], Explode(rest, '\n'), decode);
    OneLine(line, decode);
  }

  /**
   * A data line that the transport delivers in two reads passes nothing:
   * the first read holds only its head, which the decoder rejects, and the
   * second starts with its tail, which is not a `data:` line; the stream
   * goes on as if the line had never been sent.
   */
  lemma SplitLineLost(head: string, tail: string, rest: string, decode: string -> Option<Json>)
    requires '\n' !in head && '\n' !in tail
    requires Classify(head).Data? && decode(Classify(head).payload).None?
    requires Classify(tail).Ignored?
    ensures DecodeChunks([head, tail + "\n" + rest], decode) == DecodeChunks([rest], decode)
  {
    SingleLineChunk(head, decode);
    FirstLine(tail, rest, decode);
    assert [head, tail + "\n" + rest][..1] == [head];
    assert [head][..0] == [] && [rest][..0] == [];
  }

  /** Delivered in one read, the same kind of line passes its content before the rest of the chunk. */
  lemma WholeLineDelivered(line: string, rest: string, decode: string -> Option<Json>)
    requires '\n' !in line && Classify(line).Data?
    ensures DecodeChunks([line + "\n" + rest], decode)
         == Then(Decoded(Emission(Classify(line).payload, decode), false), DecodeChunk(rest, decode))
  {
    FirstLine(line, rest, decode);
    assert [line + "\n" + rest][..0] == [];
  }
}
