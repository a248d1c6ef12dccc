/**
 * The Ollama client (`internal/llm/ollama.go`): the model chosen for a tier, and the fold
 * over the streamed response lines that hands one chunk per line to the consumer. The
 * HTTP exchange is the caller's: its outcome and the stream's lines, each with its
 * decoding and the time since the stream started, arrive as parameters.
 */
module Ollama {
  import opened Wrappers
  import Text
  import LlmTypes

  const FallbackModel: string := "llama3.2:latest"

  /**
   * `modelForTier`: the fast or balanced model when that tier is asked for and the model
   * is configured; otherwise the balanced model, then the fast one, then the fallback.
   */
  function ModelForTier(modelFast: string, modelBalanced: string, tier: string): (model: string)
    ensures model != ""
    ensures model in {modelFast, modelBalanced, FallbackModel}
    ensures tier == "fast" && modelFast != "" ==> model == modelFast
    ensures tier != "fast" && modelBalanced != "" ==> model == modelBalanced
    ensures modelBalanced == "" && modelFast != "" ==> model == modelFast
    ensures modelFast == "" && modelBalanced != "" ==> model == modelBalanced
    ensures modelFast == "" && modelBalanced == "" ==> model == FallbackModel
  {
    if tier == "fast" && modelFast != "" then modelFast
    else if tier == "balanced" && modelBalanced != "" then modelBalanced
    else if modelBalanced != "" then modelBalanced
    else if modelFast != "" then modelFast
    else FallbackModel
  }

  /** One decoded `ollamaStreamResponse`. */
  datatype StreamResponse = StreamResponse(response: string, done: bool, evalCount: int, promptEvalCount: int)

  /** A line of the stream: its text, its JSON decoding, and the milliseconds since the stream started. */
  datatype StreamLine = StreamLine(text: string, decoded: Result<StreamResponse>, elapsedMs: int)

  /** A reported token count replaces the running one only when positive. */
  function Latest(running: int, reported: int): (count: int)
    ensures reported > 0 ==> count == reported
    ensures reported <= 0 ==> count == running
  {
    if reported > 0 then reported else running
  }

  /** The lines that are not blank, in order. */
  function NonBlank(lines: seq<StreamLine>): (kept: seq<StreamLine>)
    ensures |kept| <= |lines|
    ensures forall i :: 0 <= i < |kept| ==> !Text.AllSpace(kept[i].text)
  {
    if lines == [] then []
    else if Text.AllSpace(lines[0].text) then NonBlank(lines[1..])
    else [lines[0]] + NonBlank(lines[1..])
  }

  /** The chunk a decoded line produces, given the running counts already updated by it. */
  function ChunkOf(req: LlmTypes.Request, line: StreamLine, promptTokens: int, completionTokens: int): LlmTypes.Chunk
    requires line.decoded.Ok?
  {
    LlmTypes.Chunk(req.sessionId, line.decoded.value.response, !line.decoded.value.done,
                   promptTokens, completionTokens, line.elapsedMs, req.traceId)
  }

  /**
   * The loop of `Generate` from the given running counts: the chunks handed to the
   * consumer, and the error that ended the loop. Blank lines are skipped; a malformed
   * line ends it with its decoding error; a chunk the consumer rejects ends it with the
   * consumer's error.
   */
  function Fold(req: LlmTypes.Request, lines: seq<StreamLine>, consumer: LlmTypes.Chunk -> Option<string>,
                promptTokens: int, completionTokens: int): (r: (seq<LlmTypes.Chunk>, Option<string>))
    decreases |lines|
  {
    if lines == [] then ([], None)
    else if Text.AllSpace(lines[0].text) then Fold(req, lines[1..], consumer, promptTokens, completionTokens)
    else if lines[0].decoded.Err? then ([], Some(lines[0].decoded.message))
    else
      var p := Latest(promptTokens, lines[0].decoded.value.promptEvalCount);
      var c := Latest(completionTokens, lines[0].decoded.value.evalCount);
      var chunk := ChunkOf(req, lines[0], p, c);
      match consumer(chunk)
      case Some(e) => ([chunk], Some(e))
      case None =>
        var rest := Fold(req, lines[1..], consumer, p, c);
        ([chunk] + rest.0, rest.1)
  }

  /**
   * `chunk` is what `line` produces after a chunk whose counts were `prevPrompt` and
   * `prevCompletion`: the line's text as content, the negation of its `done` as `partial`,
   * the request's session and trace, and each count the line's where positive and the
   * previous one otherwise.
   */
  predicate Emitted(req: LlmTypes.Request, line: StreamLine, prevPrompt: int, prevCompletion: int, chunk: LlmTypes.Chunk) {
    && line.decoded.Ok?
    && chunk.content == line.decoded.value.response
    && chunk.partial == !line.decoded.value.done
    && chunk.sessionId == req.sessionId && chunk.traceId == req.traceId
    && chunk.latencyMs == line.elapsedMs
    && chunk.promptTokens == Latest(prevPrompt, line.decoded.value.promptEvalCount)
    && chunk.completionTokens == Latest(prevCompletion, line.decoded.value.evalCount)
  }

  /** The counts in force before chunk `i`: the previous chunk's, or the starting ones. */
  function PromptBefore(chunks: seq<LlmTypes.Chunk>, i: nat, p0: int): int
    requires i <= |chunks|
  {
    if i == 0 then p0 else chunks[i - 1].promptTokens
  }

  function CompletionBefore(chunks: seq<LlmTypes.Chunk>, i: nat, c0: int): int
    requires i <= |chunks|
  {
    if i == 0 then c0 else chunks[i - 1].completionTokens
  }

  /** Chunk `i` is what non-blank line `i` produces, for every chunk. */
  predicate Follows(req: LlmTypes.Request, chunks: seq<LlmTypes.Chunk>, kept: seq<StreamLine>, p0: int, c0: int) {
    |chunks| <= |kept| &&
    forall i :: 0 <= i < |chunks| ==>
      Emitted(req, kept[i], PromptBefore(chunks, i, p0), CompletionBefore(chunks, i, c0), chunks[i])
  }

  /** The chunks follow the non-blank lines one for one and in order. */
  lemma {:induction false} FoldFollowsLines(req: LlmTypes.Request, lines: seq<StreamLine>,
                                            consumer: LlmTypes.Chunk -> Option<string>, p0: int, c0: int)
    ensures Follows(req, Fold(req, lines, consumer, p0, c0).0, NonBlank(lines), p0, c0)
    decreases |lines|
  {
    if lines == [] {
    } else if Text.AllSpace(lines[0].text) {
      FoldFollowsLines(req, lines[1..], consumer, p0, c0);
    } else if lines[0].decoded.Ok? {
      var p := Latest(p0, lines[0].decoded.value.promptEvalCount);
      var c := Latest(c0, lines[0].decoded.value.evalCount);
      var chunk := ChunkOf(req, lines[0], p, c);
      if consumer(chunk).None? {
        FoldFollowsLines(req, lines[1..], consumer, p, c);
        assert NonBlank(lines) == [lines[0]] + NonBlank(lines[1..]);
        FollowsCons(req, chunk, lines[0], Fold(req, lines[1..], consumer, p, c).0, NonBlank(lines[1..]), p0, c0);
      }
    }
  }

  lemma FollowsCons(req: LlmTypes.Request, chunk: LlmTypes.Chunk, line: StreamLine, rest: seq<LlmTypes.Chunk>,
                    kept: seq<StreamLine>, p0: int, c0: int)
    requires Emitted(req, line, p0, c0, chunk)
    requires Follows(req, rest, kept, chunk.promptTokens, chunk.completionTokens)
    ensures Follows(req, [chunk] + rest, [line] + kept, p0, c0)
  {
    var chunks := [chunk] + rest;
    forall i | 1 <= i < |chunks|
      ensures Emitted(req, ([line] + kept)[i], PromptBefore(chunks, i, p0), CompletionBefore(chunks, i, c0), chunks[i])
    {
      assert chunks[i] == rest[i - 1] && ([line] + kept)[i] == kept[i - 1];
      assert PromptBefore(chunks, i, p0) == PromptBefore(rest, i - 1, chunk.promptTokens);
      assert CompletionBefore(chunks, i, c0) == CompletionBefore(rest, i - 1, chunk.completionTokens);
    }
  }

  /**
   * How the loop ends. The consumer accepted every chunk but possibly the last. Without an
   * error every non-blank line produced a chunk and the consumer accepted them all; with
   * one, the loop stopped either at a malformed line, whose decoding error is the result,
   * or right after the chunk the consumer refused.
   */
  lemma {:induction false} FoldStops(req: LlmTypes.Request, lines: seq<StreamLine>,
                                     consumer: LlmTypes.Chunk -> Option<string>, p0: int, c0: int)
    ensures var chunks := Fold(req, lines, consumer, p0, c0).0;
      forall i :: 0 <= i < |chunks| - 1 ==> consumer(chunks[i]).None?
    ensures var chunks := Fold(req, lines, consumer, p0, c0).0;
      Fold(req, lines, consumer, p0, c0).1.None? ==>
        |chunks| == |NonBlank(lines)| && (chunks != [] ==> consumer(chunks[|chunks| - 1]).None?)
    ensures var chunks := Fold(req, lines, consumer, p0, c0).0;
      var err := Fold(req, lines, consumer, p0, c0).1;
      var kept := NonBlank(lines);
      err.Some? ==>
        (|chunks| < |kept| && kept[|chunks|].decoded.Err? && err == Some(kept[|chunks|].decoded.message)) ||
        (chunks != [] && err == consumer(chunks[|chunks| - 1]))
    decreases |lines|
  {
    if lines == [] {
    } else if Text.AllSpace(lines[0].text) {
      FoldStops(req, lines[1..], consumer, p0, c0);
    } else if lines[0].decoded.Ok? {
      var p := Latest(p0, lines[0].decoded.value.promptEvalCount);
      var c := Latest(c0, lines[0].decoded.value.evalCount);
      var chunk := ChunkOf(req, lines[0], p, c);
      if consumer(chunk).None? {
        FoldStops(req, lines[1..], consumer, p, c);
        var kept := NonBlank(lines);
        var rest := Fold(req, lines[1..], consumer, p, c).0;
        var chunks := Fold(req, lines, consumer, p0, c0).0;
        assert kept == [lines[0]] + NonBlank(lines[1..]);
        assert chunks == [chunk] + rest;
        assert forall i :: 1 <= i < |chunks| ==> chunks[i] == rest[i - 1];
        assert forall i :: 1 <= i < |kept| ==> kept[i] == NonBlank(lines[1..])[i - 1];
      }
    }
  }

  /** A count once positive stays positive: a later zero or missing count never resets it. */
  lemma CountsNeverReset(req: LlmTypes.Request, lines: seq<StreamLine>, consumer: LlmTypes.Chunk -> Option<string>, i: nat)
    requires 0 < i < |Fold(req, lines, consumer, 0, 0).0|
    ensures var chunks := Fold(req, lines, consumer, 0, 0).0;
      (chunks[i - 1].promptTokens > 0 ==> chunks[i].promptTokens > 0) &&
      (chunks[i - 1].completionTokens > 0 ==> chunks[i].completionTokens > 0)
  {
    FoldFollowsLines(req, lines, consumer, 0, 0);
    var chunks := Fold(req, lines, consumer, 0, 0).0;
    assert Emitted(req, NonBlank(lines)[i], PromptBefore(chunks, i, 0), CompletionBefore(chunks, i, 0), chunks[i]);
  }

  /** One step of the fold at position `i`, stated on the suffix the loop has not read yet. */
  lemma FoldAt(req: LlmTypes.Request, lines: seq<StreamLine>, consumer: LlmTypes.Chunk -> Option<string>,
               i: nat, p: int, c: int)
    requires i < |lines|
    ensures Text.AllSpace(lines[i].text) ==>
      Fold(req, lines[i..], consumer, p, c) == Fold(req, lines[i + 1..], consumer, p, c)
    ensures !Text.AllSpace(lines[i].text) && lines[i].decoded.Err? ==>
      Fold(req, lines[i..], consumer, p, c) == ([], Some(lines[i].decoded.message))
    ensures !Text.AllSpace(lines[i].text) && lines[i].decoded.Ok? ==>
      var p' := Latest(p, lines[i].decoded.value.promptEvalCount);
      var c' := Latest(c, lines[i].decoded.value.evalCount);
      var chunk := ChunkOf(req, lines[i], p', c');
      Fold(req, lines[i..], consumer, p, c) ==
        if consumer(chunk).Some? then ([chunk], consumer(chunk))
        else ([chunk] + Fold(req, lines[i + 1..], consumer, p', c').0, Fold(req, lines[i + 1..], consumer, p', c').1)
  {
    assert lines[i..][0] == lines[i] && lines[i..][1..] == lines[i + 1..];
  }

  /**
   * The loop as written: read line by line, skip blanks, stop at a malformed line,
   * update the running counts, hand over the chunk and stop when the consumer fails.
   */
  method Stream(req: LlmTypes.Request, lines: seq<StreamLine>, consumer: LlmTypes.Chunk -> Option<string>)
    returns (delivered: seq<LlmTypes.Chunk>, err: Option<string>)
    ensures (delivered, err) == Fold(req, lines, consumer, 0, 0)
  {
    ghost var total := Fold(req, lines, consumer, 0, 0);
    delivered, err := [], None;
    var promptTokens, completionTokens := 0, 0;
    var i := 0;
    assert lines[0..] == lines;
    while i < |lines|
      invariant 0 <= i <= |lines|
      invariant total.0 == delivered + Fold(req, lines[i..], consumer, promptTokens, completionTokens).0
      invariant total.1 == Fold(req, lines[i..], consumer, promptTokens, completionTokens).1
    {
      FoldAt(req, lines, consumer, i, promptTokens, completionTokens);
      var line := lines[i];
      if Text.AllSpace(line.text) {
        i := i + 1;
        continue;
      }
      if line.decoded.Err? {
        assert delivered + [] == delivered;
        return delivered, Some(line.decoded.message);
      }
      var chunk := line.decoded.value;
      if chunk.evalCount > 0 {
        completionTokens := chunk.evalCount;
      }
      if chunk.promptEvalCount > 0 {
        promptTokens := chunk.promptEvalCount;
      }
      var out := ChunkOf(req, line, promptTokens, completionTokens);
      ghost var rest := Fold(req, lines[i + 1..], consumer, promptTokens, completionTokens).0;
      assert delivered + ([out] + rest) == (delivered + [out]) + rest;
      delivered := delivered + [out];
      var rejected := consumer(out);
      if rejected.Some? {
        assert delivered + [] == delivered;
        return delivered, rejected;
      }
      i := i + 1;
    }
    assert lines[|lines|..] == [];
    assert delivered + [] == delivered;
  }

  /** The body `Generate` posts to `/api/generate`. */
  datatype GenerateRequest = GenerateRequest(model: string, prompt: string, system: string, stream: bool,
                                             temperature: real, numPredict: int)

  /** The HTTP exchange: no response at all, or a status with the response's lines and the scanner's final error. */
  datatype HttpOutcome =
    | RequestFailed(error: string)
    | Response(statusCode: int, status: string, lines: seq<StreamLine>, scanError: Option<string>)

  /**
   * `Generate`: post the request for the tier's model with streaming on; a failed request
   * or a status of 300 or more is an error before any chunk; otherwise the stream is
   * folded, and after a clean end the scanner's error (if any) is the result.
   */
  method Generate(modelFast: string, modelBalanced: string, req: LlmTypes.Request, http: HttpOutcome,
                  consumer: LlmTypes.Chunk -> Option<string>)
    returns (posted: GenerateRequest, delivered: seq<LlmTypes.Chunk>, err: Option<string>)
    ensures posted == GenerateRequest(ModelForTier(modelFast, modelBalanced, req.tier), req.prompt, req.system, true,
                                      req.temperature, req.maxTokens)
    ensures http.RequestFailed? ==> delivered == [] && err == Some(http.error)
    ensures http.Response? && http.statusCode >= 300 ==>
      delivered == [] && err == Some("ollama returned status " + http.status)
    ensures http.Response? && http.statusCode < 300 ==>
      delivered == Fold(req, http.lines, consumer, 0, 0).0 &&
      err == (if Fold(req, http.lines, consumer, 0, 0).1.Some? then Fold(req, http.lines, consumer, 0, 0).1 else http.scanError)
  {
    posted := GenerateRequest(ModelForTier(modelFast, modelBalanced, req.tier), req.prompt, req.system, true,
                              req.temperature, req.maxTokens);
    match http {
      case RequestFailed(error) =>
        return posted, [], Some(error);
      case Response(statusCode, status, lines, scanError) =>
        if statusCode >= 300 {
          return posted, [], Some("ollama returned status " + status);
        }
        delivered, err := Stream(req, lines, consumer);
        if err.None? {
          err := scanError;
        }
    }
  }
}
