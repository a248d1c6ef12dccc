/**
 * The router (`internal/router/service.go`): a final transcript becomes an LLM request
 * and opens a session entry; the final LLM response for that session closes the entry
 * and becomes a speech-synthesis request. The router's settings (default voice, default
 * tier and playback target) are plain fields, because their configuration record is not
 * part of this model. Each handler is one atomic step on an already-decoded message.
 */
module Router {
  import opened Wrappers
  import Protocol

  /** `sessionState`. */
  datatype SessionState = SessionState(lastPrompt: string, voice: string, tier: string)

  class Service {
    const defaultVoice: string
    const defaultTier: string
    const target: string
    var sessions: map<string, SessionState>

    /** `NewService`: no sessions. */
    constructor (defaultVoice: string, defaultTier: string, target: string)
      ensures this.defaultVoice == defaultVoice && this.defaultTier == defaultTier && this.target == target
      ensures sessions == map[]
    {
      this.defaultVoice := defaultVoice;
      this.defaultTier := defaultTier;
      this.target := target;
      sessions := map[];
    }

    /**
     * `handleTranscript`: empty text is ignored; otherwise the session is (re)set to the
     * prompt with the default voice and tier, and an LLM request for the session, with the
     * prompt and the default tier, is published.
     */
    method HandleTranscript(transcript: Protocol.Transcript) returns (request: Option<Protocol.LLMRequest>)
      modifies this
      ensures transcript.text == "" ==> request.None? && sessions == old(sessions)
      ensures transcript.text != "" ==>
        sessions == old(sessions)[transcript.sessionId := SessionState(transcript.text, defaultVoice, defaultTier)]
      ensures transcript.text != "" ==>
        request == Some(Protocol.LLMRequest(transcript.sessionId, transcript.text, "", defaultTier, 0, 0.0, ""))
    {
      var prompt := transcript.text;
      if prompt == "" {
        return None;
      }
      sessions := sessions[transcript.sessionId := SessionState(prompt, defaultVoice, defaultTier)];
      return Some(Protocol.LLMRequest(transcript.sessionId, prompt, "", defaultTier, 0, 0.0, ""));
    }

    /**
     * `handleLLMResponse`: empty content is ignored and the session kept; otherwise the
     * session entry is removed and a speech request made with the session's voice (the
     * default when there is none or it is empty), the configured target and the
     * response's trace ID.
     */
    method HandleLLMResponse(response: Protocol.LLMResponse) returns (request: Option<Protocol.TTSRequest>)
      modifies this
      ensures response.content == "" ==> request.None? && sessions == old(sessions)
      ensures response.content != "" ==> sessions == old(sessions) - {response.sessionId}
      ensures response.content != "" ==>
        request == Some(Protocol.TTSRequest(response.sessionId, response.content,
          VoiceFor(old(sessions), response.sessionId, defaultVoice), target, response.traceId))
    {
      if response.content == "" {
        return None;
      }
      var state := if response.sessionId in sessions then Some(sessions[response.sessionId]) else None;
      if state.Some? {
        sessions := sessions - {response.sessionId};
      }
      var voice := defaultVoice;
      if state.Some? && state.value.voice != "" {
        voice := state.value.voice;
      }
      return Some(Protocol.TTSRequest(response.sessionId, response.content, voice, target, response.traceId));
    }
  }

  /** The voice for a session: its own when set and non-empty, otherwise the default. */
  function VoiceFor(sessions: map<string, SessionState>, sessionId: string, defaultVoice: string): (voice: string)
    ensures sessionId in sessions && sessions[sessionId].voice != "" ==> voice == sessions[sessionId].voice
    ensures sessionId !in sessions || sessions[sessionId].voice == "" ==> voice == defaultVoice
  {
    if sessionId in sessions && sessions[sessionId].voice != "" then sessions[sessionId].voice else defaultVoice
  }

  /**
   * One exchange: a transcript opens the session and asks the model, its answer closes the
   * session and is spoken with the default voice (the only voice a session ever gets) at
   * the configured target. An empty answer in between changes nothing.
   */
  method Exchange(defaultVoice: string, defaultTier: string, target: string, id: string, text: string,
                  answer: string, trace: string)
    returns (llm: Option<Protocol.LLMRequest>, ignored: Option<Protocol.TTSRequest>, tts: Option<Protocol.TTSRequest>,
             remaining: map<string, SessionState>)
    requires text != "" && answer != ""
    ensures llm.Some? && llm.value.prompt == text && llm.value.tier == defaultTier
    ensures ignored.None?
    ensures tts == Some(Protocol.TTSRequest(id, answer, defaultVoice, target, trace))
    ensures remaining == map[]
  {
    var router := new Service(defaultVoice, defaultTier, target);
    llm := router.HandleTranscript(Protocol.Transcript(id, text, false, 0.0));
    ignored := router.HandleLLMResponse(Protocol.LLMResponse(id, "", false, trace, 0, 0, 0));
    tts := router.HandleLLMResponse(Protocol.LLMResponse(id, answer, false, trace, 0, 0, 0));
    remaining := router.sessions;
  }
}
