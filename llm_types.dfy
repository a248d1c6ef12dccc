/**
 * Language-model request and chunk records (`internal/llm/types.go`) and the defaults a
 * request starts from. Latencies are whole milliseconds; temperatures exact rationals.
 */
module LlmTypes {
  import Config

  datatype Request = Request(
    sessionId: string, prompt: string, system: string, tier: string,
    maxTokens: int, temperature: real, traceId: string)

  datatype Chunk = Chunk(
    sessionId: string, content: string, partial: bool,
    promptTokens: int, completionTokens: int, latencyMs: int, traceId: string)

  /**
   * `OptionsFromConfig`: the configured token limit and temperature, the requested tier
   * when one is given and the configured default otherwise, and nothing else set. It
   * never fails, so there is no error result.
   */
  function OptionsFromConfig(cfg: Config.LlmConfig, reqTier: string): (r: Request)
    ensures r.tier == (if reqTier != "" then reqTier else cfg.defaultTier)
    ensures r.maxTokens == cfg.maxTokens && r.temperature == cfg.temperature
    ensures r.sessionId == "" && r.prompt == "" && r.system == "" && r.traceId == ""
  {
    var req := Request("", "", "", cfg.defaultTier, cfg.maxTokens, cfg.temperature, "");
    if reqTier != "" then req.(tier := reqTier) else req
  }

  /** The tier is never empty when either the request or the configuration names one. */
  lemma TierPresent(cfg: Config.LlmConfig, reqTier: string)
    requires reqTier != "" || cfg.defaultTier != ""
    ensures OptionsFromConfig(cfg, reqTier).tier != ""
  {
  }
}
