/**
 * Bus message records and subjects (`internal/protocol/messages.go`). Timestamps, which
 * the services take from the wall clock, are not carried; confidences and temperatures
 * are exact rationals.
 */
module Protocol {
  import opened Bytes

  const SubjectAudioFramePrefix: string := "audio.frame"
  const SubjectTranscriptPartial: string := "stt.text.partial"
  const SubjectTranscriptFinal: string := "stt.text.final"
  const SubjectLLMRequest: string := "nlu.request"
  const SubjectLLMResponsePartial: string := "nlu.response.partial"
  const SubjectLLMResponseFinal: string := "nlu.response.final"
  const SubjectTTSRequest: string := "tts.request"

  datatype AudioFrame = AudioFrame(
    sessionId: string, sequence: int, sampleRate: int, channels: int, pcm: seq<byte>, final: bool)

  datatype Transcript = Transcript(sessionId: string, text: string, partial: bool, confidence: real)

  datatype LLMRequest = LLMRequest(
    sessionId: string, prompt: string, system: string, tier: string,
    maxTokens: int, temperature: real, traceId: string)

  datatype LLMResponse = LLMResponse(
    sessionId: string, content: string, partial: bool, traceId: string,
    promptTokens: int, completionTokens: int, latencyMs: int)

  datatype TTSRequest = TTSRequest(sessionId: string, text: string, voice: string, target: string, traceId: string)
}
