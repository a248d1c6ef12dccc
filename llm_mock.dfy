/**
 * The mock language model (`internal/llm/mock.go`): after a fixed 20 ms it answers every
 * prompt with one final chunk describing the prompt. Whether the context was already
 * done when the wait ended is a parameter (`cancelled`, with its error message).
 */
module LlmMock {
  import opened Wrappers
  import Text
  import LlmTypes

  /**
   * The mock's answer text: `[mock completion for ` and `]` around the prompt's text
   * without its surrounding blanks, that is, around the stretch of the prompt that starts
   * and ends with a non-blank and outside of which the prompt holds only blanks.
   */
  function Completion(prompt: string): (content: string)
    ensures |content| >= 22 && content[..21] == "[mock completion for " && content[|content| - 1] == ']'
    ensures var answer, start := content[21..|content| - 1], Text.LeadingSpace(prompt);
      && (answer == [] <==> Text.AllSpace(prompt))
      && (answer != [] ==> !Text.IsSpace(answer[0]) && !Text.IsSpace(answer[|answer| - 1]))
      && start + |answer| <= |prompt| && answer == prompt[start..start + |answer|]
      && (forall i :: 0 <= i < |prompt| && !(start <= i < start + |answer|) ==> Text.IsSpace(prompt[i]))
  {
    "[mock completion for " + Text.TrimSpace(prompt) + "]"
  }

  /**
   * `mockGenerator.Generate`: a done context returns its error without calling the
   * consumer; otherwise exactly one non-partial chunk for the request's session, with a
   * 20 ms latency, is handed to the consumer, whose result is returned.
   */
  function Generate(req: LlmTypes.Request, cancelled: Option<string>, consumer: LlmTypes.Chunk -> Option<string>)
    : (r: (seq<LlmTypes.Chunk>, Option<string>))
    ensures cancelled.Some? ==> r.0 == [] && r.1 == cancelled
    ensures cancelled.None? ==> |r.0| == 1 && r.1 == consumer(r.0[0])
    ensures cancelled.None? ==>
      r.0[0].sessionId == req.sessionId && r.0[0].content == Completion(req.prompt) &&
      !r.0[0].partial && r.0[0].latencyMs == 20
    ensures cancelled.None? ==>
      r.0[0].traceId == "" && r.0[0].promptTokens == 0 && r.0[0].completionTokens == 0
  {
    if cancelled.Some? then ([], cancelled)
    else
      var chunk := LlmTypes.Chunk(req.sessionId, Completion(req.prompt), false, 0, 0, 20, "");
      ([chunk], consumer(chunk))
  }

  /** Surrounding blanks in the prompt do not change the answer. */
  lemma CompletionIgnoresPadding(prompt: string)
    ensures Completion(Text.TrimSpace(prompt)) == Completion(prompt)
  {
    Text.TrimSpaceIdempotent(prompt);
  }
}
