/**
 * The language-model service (`internal/llm/service.go`): a decoded `nlu.request` is merged
 * with the configured defaults into the generator's request, and every non-empty chunk
 * the generator hands back is published as an `nlu.response.partial` or
 * `nlu.response.final` message. Subscribing, publishing and the generator's own work are
 * the caller's: their outcomes arrive as parameters.
 */
module LlmService {
  import opened Wrappers
  import Config
  import Protocol
  import LlmTypes
  import LlmMock
  import Ollama

  /** `coalesceInt`: the value when positive, the fallback otherwise. */
  function CoalesceInt(value: int, fallback: int): (r: int)
    ensures value > 0 ==> r == value
    ensures value <= 0 ==> r == fallback
  {
    if value > 0 then value else fallback
  }

  /**
   * The request `handleRequest` gives the generator: the tier defaults of
   * `OptionsFromConfig`, then the message's session, prompt, system text and trace ID; its
   * token limit when positive and the configured one otherwise; its temperature when not
   * zero and the configured one otherwise.
   */
  function MergeOptions(cfg: Config.LlmConfig, req: Protocol.LLMRequest): (r: LlmTypes.Request)
    ensures r.sessionId == req.sessionId && r.prompt == req.prompt && r.system == req.system
    ensures r.traceId == req.traceId
    ensures r.tier == (if req.tier != "" then req.tier else cfg.defaultTier)
    ensures r.maxTokens == (if req.maxTokens > 0 then req.maxTokens else cfg.maxTokens)
    ensures r.temperature == (if req.temperature != 0.0 then req.temperature else cfg.temperature)
  {
    var options := LlmTypes.OptionsFromConfig(cfg, req.tier);
    var options := options.(sessionId := req.sessionId, prompt := req.prompt, system := req.system);
    var options := options.(maxTokens := CoalesceInt(req.maxTokens, cfg.maxTokens));
    var options := if req.temperature != 0.0 then options.(temperature := req.temperature) else options;
    options.(traceId := req.traceId)
  }

  /**
   * A request that leaves every tunable at its zero value gets the configuration's tier,
   * token limit and temperature; one that sets them all keeps its own.
   */
  lemma MergeDefaults(cfg: Config.LlmConfig, req: Protocol.LLMRequest)
    ensures req.tier == "" && req.maxTokens <= 0 && req.temperature == 0.0 ==>
      var r := MergeOptions(cfg, req);
      r.tier == cfg.defaultTier && r.maxTokens == cfg.maxTokens && r.temperature == cfg.temperature
    ensures req.tier != "" && req.maxTokens > 0 && req.temperature != 0.0 ==>
      MergeOptions(cfg, req) == LlmTypes.Request(req.sessionId, req.prompt, req.system, req.tier,
                                                 req.maxTokens, req.temperature, req.traceId)
  {
  }

  /**
   * The merged token limit is never negative once the configuration validates, and is
   * positive whenever the request or the configuration gives a positive one.
   */
  lemma MergedTokenLimit(cfg: Config.LlmConfig, req: Protocol.LLMRequest)
    requires Config.LlmValid(cfg) && cfg.enabled
    ensures MergeOptions(cfg, req).maxTokens >= 0
    ensures req.maxTokens > 0 || cfg.maxTokens > 0 ==> MergeOptions(cfg, req).maxTokens > 0
  {
  }

  /** A published message and its subject. */
  datatype Publication = Publication(subject: string, message: Protocol.LLMResponse)

  /**
   * `publishChunk`: an empty chunk publishes nothing; any other becomes a response with the
   * chunk's fields, on the partial subject while the chunk is partial and on the final one
   * otherwise.
   */
  function PublishChunk(chunk: LlmTypes.Chunk): (r: Option<Publication>)
    ensures r.None? <==> chunk.content == ""
    ensures r.Some? ==>
      r.value.subject == (if chunk.partial then Protocol.SubjectLLMResponsePartial else Protocol.SubjectLLMResponseFinal)
    ensures r.Some? ==> r.value.message == Protocol.LLMResponse(chunk.sessionId, chunk.content, chunk.partial,
      chunk.traceId, chunk.promptTokens, chunk.completionTokens, chunk.latencyMs)
  {
    if chunk.content == "" then None
    else
      var msg := Protocol.LLMResponse(chunk.sessionId, chunk.content, chunk.partial, chunk.traceId,
                                      chunk.promptTokens, chunk.completionTokens, chunk.latencyMs);
      Some(Publication(if chunk.partial then Protocol.SubjectLLMResponsePartial else Protocol.SubjectLLMResponseFinal, msg))
  }

  /** A response on the final subject is exactly one that is not partial. */
  lemma SubjectMatchesPartial(chunk: LlmTypes.Chunk)
    requires PublishChunk(chunk).Some?
    ensures PublishChunk(chunk).value.subject == Protocol.SubjectLLMResponseFinal <==> !PublishChunk(chunk).value.message.partial
  {
  }

  /**
   * The consumer `handleRequest` hands to the generator: publish the chunk, and report the
   * bus's error (`publishError` gives it per subject and message) back to the generator.
   */
  function Consume(publishError: (string, Protocol.LLMResponse) -> Option<string>, chunk: LlmTypes.Chunk): (err: Option<string>)
    ensures chunk.content == "" ==> err.None?
    ensures chunk.content != "" ==>
      err == publishError(PublishChunk(chunk).value.subject, PublishChunk(chunk).value.message)
  {
    match PublishChunk(chunk)
    case None => None
    case Some(p) => publishError(p.subject, p.message)
  }

  /** The publications made for the chunks handed over, in order. */
  function Publications(chunks: seq<LlmTypes.Chunk>): (ps: seq<Publication>)
    ensures |ps| <= |chunks|
  {
    if chunks == [] then []
    else
      match PublishChunk(chunks[0])
      case None => Publications(chunks[1..])
      case Some(p) => [p] + Publications(chunks[1..])
  }

  /** A stream whose chunks all carry text publishes one message per chunk. */
  lemma {:induction false} PublicationsOfNonEmpty(chunks: seq<LlmTypes.Chunk>)
    requires forall i :: 0 <= i < |chunks| ==> chunks[i].content != ""
    ensures |Publications(chunks)| == |chunks|
    ensures forall i :: 0 <= i < |chunks| ==> Publications(chunks)[i] == PublishChunk(chunks[i]).value
  {
    if chunks != [] {
      PublicationsOfNonEmpty(chunks[1..]);
    }
  }

  /** The generator backends `handleRequest` can be wired to, with what their environment does. */
  datatype Generator =
    | Mock(cancelled: Option<string>)
    | OllamaBackend(modelFast: string, modelBalanced: string, http: Ollama.HttpOutcome)

  /** What one request led to: the generator's request (if any), the publications attempted (whether or not the bus accepted them), and the error logged. */
  datatype Handled = Handled(request: Option<LlmTypes.Request>, attempted: seq<Publication>, err: Option<string>)

  /**
   * The service (`Service`): its configuration and whether it subscribed. Each request is
   * handled on its own, so the handler changes nothing here.
   */
  class Service {
    const cfg: Config.LlmConfig
    var ready: bool

    constructor (cfg: Config.LlmConfig)
      ensures this.cfg == cfg && !ready
    {
      this.cfg := cfg;
      ready := false;
    }

    /** `Start`: a disabled service does nothing; otherwise it subscribes and becomes ready unless that fails. */
    method Start(subscribeError: Option<string>) returns (err: Option<string>)
      modifies this
      ensures !cfg.enabled ==> err.None? && ready == old(ready)
      ensures cfg.enabled && subscribeError.Some? ==>
        err == Some("subscribe LLM requests: " + subscribeError.value) && ready == old(ready)
      ensures cfg.enabled && subscribeError.None? ==> err.None? && ready
    {
      if !cfg.enabled {
        return None;
      }
      if subscribeError.Some? {
        return Some("subscribe LLM requests: " + subscribeError.value);
      }
      ready := true;
      err := None;
    }

    /** `Healthy`: a disabled service is always healthy, an enabled one once it subscribed. */
    function Healthy(): (healthy: bool)
      reads this
      ensures healthy <==> !cfg.enabled || ready
    {
      !cfg.enabled || ready
    }

    /**
     * `handleRequest`: a message that does not decode is dropped with nothing published;
     * otherwise the merged request goes to the generator, whose chunks are published
     * through `Consume` until the generator stops, and its error (if any) is logged.
     */
    method HandleRequest(decoded: Result<Protocol.LLMRequest>, generator: Generator,
                         publishError: (string, Protocol.LLMResponse) -> Option<string>)
      returns (handled: Handled)
      ensures decoded.Err? ==> handled == Handled(None, [], Some(decoded.message))
      ensures decoded.Ok? ==> handled.request == Some(MergeOptions(cfg, decoded.value))
      ensures decoded.Ok? && generator.Mock? ==>
        var (chunks, err) := LlmMock.Generate(MergeOptions(cfg, decoded.value), generator.cancelled,
                                              c => Consume(publishError, c));
        handled.attempted == Publications(chunks) && handled.err == err
      ensures decoded.Ok? && generator.OllamaBackend? && generator.http.Response? && generator.http.statusCode < 300 ==>
        var (chunks, err) := Ollama.Fold(MergeOptions(cfg, decoded.value), generator.http.lines,
                                         c => Consume(publishError, c), 0, 0);
        handled.attempted == Publications(chunks) &&
        handled.err == (if err.Some? then err else generator.http.scanError)
      ensures decoded.Ok? && generator.OllamaBackend? && generator.http.RequestFailed? ==>
        handled.attempted == [] && handled.err == Some(generator.http.error)
      ensures decoded.Ok? && generator.OllamaBackend? && generator.http.Response? && generator.http.statusCode >= 300 ==>
        handled.attempted == [] && handled.err == Some("ollama returned status " + generator.http.status)
    {
      if decoded.Err? {
        return Handled(None, [], Some(decoded.message));
      }
      var options := MergeOptions(cfg, decoded.value);
      var consumer := c => Consume(publishError, c);
      var chunks: seq<LlmTypes.Chunk>;
      var err: Option<string>;
      match generator {
        case Mock(cancelled) =>
          var r := LlmMock.Generate(options, cancelled, consumer);
          chunks, err := r.0, r.1;
        case OllamaBackend(modelFast, modelBalanced, http) =>
          var _, delivered, e := Ollama.Generate(modelFast, modelBalanced, options, http, consumer);
          chunks, err := delivered, e;
      }
      handled := Handled(Some(options), Publications(chunks), err);
    }
  }

  /**
   * With the mock generator and a bus that accepts everything, a decoded request leads to
   * exactly one message: a final response for the request's session, carrying the mock's
   * answer to its prompt. The mock's chunk has no trace ID, so the response has none
   * either.
   */
  method MockRoundTrip(cfg: Config.LlmConfig, req: Protocol.LLMRequest) returns (handled: Handled)
    ensures handled.err.None? && |handled.attempted| == 1
    ensures handled.attempted[0].subject == Protocol.SubjectLLMResponseFinal
    ensures handled.attempted[0].message.sessionId == req.sessionId
    ensures handled.attempted[0].message.content == LlmMock.Completion(req.prompt)
    ensures !handled.attempted[0].message.partial && handled.attempted[0].message.traceId == ""
  {
    var service := new Service(cfg);
    handled := service.HandleRequest(Ok(req), Mock(None), (_, _) => None);
    var chunks := LlmMock.Generate(MergeOptions(cfg, req), None, c => Consume((_, _) => None, c)).0;
    assert Publications(chunks[1..]) == [];
  }
}
