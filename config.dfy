/**
 * Runtime configuration (`internal/config/config.go`): the built-in defaults, the
 * `LOQA_*` environment overrides and the validation that `Load` applies last.
 * The environment is a map from variable name to value; a missing key is an unset variable.
 */
module Config {
  import opened Wrappers
  import Text
  import Decimal

  datatype TelemetryConfig = TelemetryConfig(logLevel: string, otlpEndpoint: string, otlpInsecure: bool, prometheusBind: string)

  datatype HttpConfig = HttpConfig(bind: string, port: int)

  datatype BusConfig = BusConfig(
    servers: seq<string>, username: string, password: string, token: string,
    tlsInsecure: bool, connectTimeout: int)

  datatype NodeCapability = NodeCapability(name: string, tier: string, attributes: map<string, string>)

  datatype NodeConfig = NodeConfig(
    id: string, role: string, heartbeatInterval: int, heartbeatTimeout: int,
    capabilities: seq<NodeCapability>)

  datatype EventStoreConfig = EventStoreConfig(
    path: string, retentionMode: string, retentionDays: int, maxSessions: int, vacuumOnStart: bool)

  datatype SttConfig = SttConfig(
    enabled: bool, mode: string, command: string, modelPath: string, language: string,
    sampleRate: int, channels: int, frameDurationMs: int, partialEveryMs: int, publishInterim: bool)

  /** `temperature` is a float64 in the source; here an exact rational. */
  datatype LlmConfig = LlmConfig(
    enabled: bool, mode: string, endpoint: string, command: string, modelFast: string,
    modelBalanced: string, defaultTier: string, maxTokens: int, temperature: real)

  datatype TtsConfig = TtsConfig(
    enabled: bool, mode: string, command: string, voice: string,
    sampleRate: int, channels: int, chunkDurationMs: int)

  datatype Config = Config(
    runtimeName: string, environment: string, http: HttpConfig, telemetry: TelemetryConfig,
    bus: BusConfig, node: NodeConfig, eventStore: EventStoreConfig,
    stt: SttConfig, llm: LlmConfig, tts: TtsConfig)

  /** `Default()`: the configuration used when no file is given. */
  function Default(): Config {
    Config(
      "loqa-runtime", "development",
      HttpConfig("0.0.0.0", 8080),
      TelemetryConfig("info", "", true, ":9091"),
      BusConfig(["nats://localhost:4222"], "", "", "", false, 2000),
      NodeConfig("loqa-node-1", "runtime", 2000, 6000, [NodeCapability("runtime.core", "balanced", map[])]),
      EventStoreConfig("./data/loqa-events.db", "session", 30, 10000, false),
      SttConfig(false, "mock", "", "", "", 16000, 1, 20, 800, false),
      LlmConfig(false, "mock", "http://localhost:11434", "", "llama3.2:latest", "llama3.2:latest", "balanced", 256, 0.7),
      TtsConfig(false, "mock", "", "", 22050, 1, 400))
  }

  // ----- Validation -----

  /** The checks on the always-present sections, stated as one conjunction. */
  ghost predicate CoreSectionsValid(cfg: Config) {
    && cfg.runtimeName != ""
    && 1 <= cfg.http.port <= 65535
    && |cfg.bus.servers| > 0
    && cfg.node.id != ""
    && 0 < cfg.node.heartbeatInterval < cfg.node.heartbeatTimeout
    && |cfg.node.capabilities| > 0
    && cfg.eventStore.path != ""
    && cfg.eventStore.retentionMode in {"ephemeral", "session", "persistent"}
    && cfg.eventStore.retentionDays >= 0
    && cfg.telemetry.prometheusBind != ""
  }

  /** A subsystem's own fields are constrained only while it is enabled. */
  ghost predicate SttValid(stt: SttConfig) {
    stt.enabled ==> stt.sampleRate > 0 && stt.channels > 0 && (stt.mode == "exec" ==> stt.command != "")
  }

  ghost predicate LlmValid(llm: LlmConfig) {
    llm.enabled ==>
      && llm.mode in {"mock", "ollama", "exec"}
      && (llm.mode == "ollama" ==> llm.endpoint != "")
      && (llm.mode == "exec" ==> llm.command != "")
      && llm.maxTokens >= 0
  }

  ghost predicate TtsValid(tts: TtsConfig) {
    tts.enabled ==>
      && tts.mode in {"mock", "exec"}
      && (tts.mode == "exec" ==> tts.command != "")
      && tts.sampleRate > 0
      && tts.channels > 0
  }

  /**
   * `validate`: the first failing check's message, or `None` when the configuration is
   * acceptable, which is exactly when every section's conditions hold.
   */
  function Validate(cfg: Config): (err: Option<string>)
    ensures err.None? <==> CoreSectionsValid(cfg) && SttValid(cfg.stt) && LlmValid(cfg.llm) && TtsValid(cfg.tts)
  {
    var core := ValidateCore(cfg);
    if core.Some? then core
    else
      var stt := ValidateStt(cfg.stt);
      if stt.Some? then stt
      else
        var llm := ValidateLlm(cfg.llm);
        if llm.Some? then llm else ValidateTts(cfg.tts)
  }

  /** The checks on the always-present sections, in the order `validate` makes them. */
  function ValidateCore(cfg: Config): (err: Option<string>)
    ensures err.None? <==> CoreSectionsValid(cfg)
  {
    if cfg.runtimeName == "" then Some("runtime_name must not be empty")
    else if cfg.http.port <= 0 || cfg.http.port > 65535 then Some("http.port must be between 1 and 65535")
    else if |cfg.bus.servers| == 0 then Some("bus.servers must not be empty")
    else if cfg.node.id == "" then Some("node.id must not be empty")
    else if cfg.node.heartbeatInterval <= 0 then Some("node.heartbeat_interval_ms must be positive")
    else if cfg.node.heartbeatTimeout <= cfg.node.heartbeatInterval then
      Some("node.heartbeat_timeout_ms must be greater than heartbeat interval")
    else if |cfg.node.capabilities| == 0 then Some("node.capabilities must not be empty")
    else if cfg.eventStore.path == "" then Some("event_store.path must not be empty")
    else if cfg.eventStore.retentionMode !in {"ephemeral", "session", "persistent"} then
      Some("event_store.retention_mode must be one of ephemeral|session|persistent")
    else if cfg.eventStore.retentionDays < 0 then Some("event_store.retention_days must be >= 0")
    else if cfg.telemetry.prometheusBind == "" then Some("telemetry.prometheus_bind must not be empty")
    else None
  }

  function ValidateStt(stt: SttConfig): (err: Option<string>)
    ensures err.None? <==> SttValid(stt)
  {
    if stt.enabled && stt.sampleRate <= 0 then Some("stt.sample_rate must be positive")
    else if stt.enabled && stt.channels <= 0 then Some("stt.channels must be positive")
    else if stt.enabled && stt.mode == "exec" && stt.command == "" then
      Some("stt.command must be set when mode=exec")
    else None
  }

  function ValidateLlm(llm: LlmConfig): (err: Option<string>)
    ensures err.None? <==> LlmValid(llm)
  {
    if llm.enabled && llm.mode !in {"mock", "ollama", "exec"} then
      Some("llm.mode must be one of mock|ollama|exec")
    else if llm.enabled && llm.mode == "ollama" && llm.endpoint == "" then
      Some("llm.endpoint must be set when mode=ollama")
    else if llm.enabled && llm.mode == "exec" && llm.command == "" then
      Some("llm.command must be set when mode=exec")
    else if llm.enabled && llm.maxTokens < 0 then Some("llm.max_tokens must be >= 0")
    else None
  }

  function ValidateTts(tts: TtsConfig): (err: Option<string>)
    ensures err.None? <==> TtsValid(tts)
  {
    if tts.enabled && tts.mode !in {"mock", "exec"} then Some("tts.mode must be one of mock|exec")
    else if tts.enabled && tts.mode == "exec" && tts.command == "" then
      Some("tts.command must be set when mode=exec")
    else if tts.enabled && tts.sampleRate <= 0 then Some("tts.sample_rate must be positive")
    else if tts.enabled && tts.channels <= 0 then Some("tts.channels must be positive")
    else None
  }

  /** The defaults pass validation, so `Load("")` with a clean environment succeeds. */
  lemma DefaultIsValid()
    ensures Validate(Default()) == None
    ensures Load(map[]) == Ok(Default())
  {
    ApplyEmptyEnvironment(Default());
  }

  /** A port outside 1..65535 is rejected, whatever else the configuration holds. */
  lemma PortOutOfRangeRejected(cfg: Config)
    requires cfg.http.port <= 0 || cfg.http.port > 65535
    ensures Validate(cfg).Some?
  {
  }

  /** A disabled subsystem's fields never affect the verdict. */
  lemma DisabledSubsystemsIgnored(cfg: Config, stt: SttConfig, llm: LlmConfig, tts: TtsConfig)
    requires !cfg.stt.enabled && !stt.enabled
    requires !cfg.llm.enabled && !llm.enabled
    requires !cfg.tts.enabled && !tts.enabled
    ensures Validate(cfg.(stt := stt, llm := llm, tts := tts)).None? == Validate(cfg).None?
  {
  }

  // ----- Environment overrides -----

  /** `overrideString`: replace only when the variable is set and not blank. */
  function OverrideString(current: string, env: map<string, string>, key: string): (r: string)
    ensures key !in env || Text.AllSpace(env[key]) ==> r == current
    ensures key in env && !Text.AllSpace(env[key]) ==> r == env[key]
  {
    if key in env && Text.TrimSpace(env[key]) != "" then env[key] else current
  }

  /** `overrideInt`: replace only when the variable is set and `strconv.Atoi` accepts it. */
  function OverrideInt(current: int, env: map<string, string>, key: string): (r: int)
    ensures key !in env || Decimal.Atoi(env[key]).None? ==> r == current
    ensures key in env && Decimal.Atoi(env[key]).Some? ==> r == Decimal.Atoi(env[key]).value
  {
    if key in env then
      match Decimal.Atoi(env[key])
      case Some(parsed) => parsed
      case None => current
    else current
  }

  /** `overrideBool`: replace only when the variable is set and `strconv.ParseBool` accepts it. */
  function OverrideBool(current: bool, env: map<string, string>, key: string): (r: bool)
    ensures key !in env || Decimal.ParseBool(env[key]).None? ==> r == current
    ensures key in env && Decimal.ParseBool(env[key]).Some? ==> r == Decimal.ParseBool(env[key]).value
  {
    if key in env then
      match Decimal.ParseBool(env[key])
      case Some(parsed) => parsed
      case None => current
    else current
  }

  /** `overrideFloat`: replace only when the variable is set and parses as a decimal number. */
  function OverrideFloat(current: real, env: map<string, string>, key: string): (r: real)
    ensures key !in env || Decimal.ParseDecimal(env[key]).None? ==> r == current
    ensures key in env && Decimal.ParseDecimal(env[key]).Some? ==> r == Decimal.ParseDecimal(env[key]).value
  {
    if key in env then
      match Decimal.ParseDecimal(env[key])
      case Some(parsed) => parsed
      case None => current
    else current
  }

  /**
   * An integer temperature whose magnitude rounds to infinity as a float64 (`1` followed by
   * 309 zeros, say) leaves the value unchanged, as Go's `ErrRange` does; a smaller one replaces it.
   */
  lemma OverrideFloatRange(current: real, n: int, key: string)
    ensures OverrideFloat(current, map[key := Decimal.IntToString(n)], key) ==
      if -Decimal.Float64Overflow < n < Decimal.Float64Overflow then n as real else current
  {
    Decimal.ParseDecimalIntToString(n);
  }

  /** The trimmed, non-empty members of `parts`, in order. */
  function NonBlankTrimmed(parts: seq<string>): (r: seq<string>)
    ensures |r| <= |parts|
    ensures forall i :: 0 <= i < |r| ==> r[i] != [] && Text.TrimSpace(r[i]) == r[i]
  {
    if parts == [] then []
    else
      var init := NonBlankTrimmed(parts[..|parts| - 1]);
      var last := Text.TrimSpace(parts[|parts| - 1]);
      Text.TrimSpaceIdempotent(parts[|parts| - 1]);
      if last != [] then init + [last] else init
  }

  /** The list a comma-separated variable denotes. */
  function ServerList(value: string): seq<string> {
    NonBlankTrimmed(Text.Split(value, ','))
  }

  /**
   * `overrideStringSlice`: split the value on commas, trim each part, keep the non-empty
   * ones, and replace the target only if at least one remains.
   */
  method OverrideStringSlice(current: seq<string>, env: map<string, string>, key: string) returns (r: seq<string>)
    ensures key !in env || ServerList(env[key]) == [] ==> r == current
    ensures key in env && ServerList(env[key]) != [] ==> r == ServerList(env[key])
  {
    r := current;
    if key in env {
      var parts := Text.Split(env[key], ',');
      var trimmed: seq<string> := [];
      var i := 0;
      while i < |parts|
        invariant 0 <= i <= |parts|
        invariant trimmed == NonBlankTrimmed(parts[..i])
      {
        var s := Text.TrimSpace(parts[i]);
        if s != "" {
          trimmed := trimmed + [s];
        }
        assert parts[..i + 1][..i] == parts[..i];
        i := i + 1;
      }
      assert parts[..|parts|] == parts;
      if |trimmed| > 0 {
        r := trimmed;
      }
    }
  }

  /**
   * Two server addresses separated by `", "` give exactly those two servers (as in
   * `LOQA_BUS_SERVERS="nats://one:4222, nats://two:4222"`).
   */
  lemma TwoServers(a: string, b: string)
    requires a != [] && !Text.IsSpace(a[0]) && !Text.IsSpace(a[|a| - 1])
    requires b != [] && !Text.IsSpace(b[0]) && !Text.IsSpace(b[|b| - 1])
    requires forall i :: 0 <= i < |a| ==> a[i] != ','
    requires forall i :: 0 <= i < |b| ==> b[i] != ','
    ensures ServerList(a + ", " + b) == [a, b]
  {
    var padded := " " + b;
    assert a + ", " + b == a + [','] + padded;
    SplitAround(a, padded, ',');
    TrimUnpadded(a);
    TrimOneLeadingSpace(b);
    assert [a, padded][..1] == [a];
    assert [a][..0] == [];
    assert NonBlankTrimmed([a]) == [a];
    assert NonBlankTrimmed([a, padded]) == [a, b];
  }

  /** Text with non-space ends is its own trim. */
  lemma TrimUnpadded(s: string)
    requires s != [] && !Text.IsSpace(s[0]) && !Text.IsSpace(s[|s| - 1])
    ensures Text.TrimSpace(s) == s
  {
    assert Text.LeadingSpace(s) == 0;
    assert Text.TrailingSpace(s) == 0;
  }

  lemma TrimOneLeadingSpace(s: string)
    requires s != [] && !Text.IsSpace(s[0]) && !Text.IsSpace(s[|s| - 1])
    ensures Text.TrimSpace(" " + s) == s
  {
    assert (" " + s)[1..] == s;
    assert Text.LeadingSpace(" " + s) == 1;
    assert Text.TrailingSpace(s) == 0;
  }

  /** Splitting `a , b` where neither part holds the separator gives exactly `[a, b]`. */
  lemma {:induction false} SplitAround(a: string, b: string, sep: char)
    requires forall i :: 0 <= i < |a| ==> a[i] != sep
    requires forall i :: 0 <= i < |b| ==> b[i] != sep
    ensures Text.Split(a + [sep] + b, sep) == [a, b]
  {
    if a == [] {
      assert ([] + [sep] + b)[1..] == b;
      SplitNoSeparator(b, sep);
    } else {
      assert (a + [sep] + b)[1..] == a[1..] + [sep] + b;
      SplitAround(a[1..], b, sep);
      assert [a[0]] + a[1..] == a;
    }
  }

  lemma {:induction false} SplitNoSeparator(s: string, sep: char)
    requires forall i :: 0 <= i < |s| ==> s[i] != sep
    ensures Text.Split(s, sep) == [s]
  {
    if s != [] {
      SplitNoSeparator(s[1..], sep);
      assert [s[0]] + s[1..] == s;
    }
  }

  /** `applyEnvOverrides`: every `LOQA_*` variable applied to its field with its field's parser. */
  function ApplyEnvOverrides(cfg: Config, env: map<string, string>): Config {
    var servers := if "LOQA_BUS_SERVERS" in env && ServerList(env["LOQA_BUS_SERVERS"]) != []
      then ServerList(env["LOQA_BUS_SERVERS"]) else cfg.bus.servers;
    cfg.(
      runtimeName := OverrideString(cfg.runtimeName, env, "LOQA_RUNTIME_NAME"),
      environment := OverrideString(cfg.environment, env, "LOQA_RUNTIME_ENVIRONMENT"),
      http := HttpConfig(
        OverrideString(cfg.http.bind, env, "LOQA_HTTP_BIND"),
        OverrideInt(cfg.http.port, env, "LOQA_HTTP_PORT")),
      telemetry := TelemetryConfig(
        OverrideString(cfg.telemetry.logLevel, env, "LOQA_TELEMETRY_LOG_LEVEL"),
        OverrideString(cfg.telemetry.otlpEndpoint, env, "LOQA_TELEMETRY_OTLP_ENDPOINT"),
        OverrideBool(cfg.telemetry.otlpInsecure, env, "LOQA_TELEMETRY_OTLP_INSECURE"),
        OverrideString(cfg.telemetry.prometheusBind, env, "LOQA_TELEMETRY_PROMETHEUS_BIND")),
      bus := BusConfig(
        servers,
        OverrideString(cfg.bus.username, env, "LOQA_BUS_USERNAME"),
        OverrideString(cfg.bus.password, env, "LOQA_BUS_PASSWORD"),
        OverrideString(cfg.bus.token, env, "LOQA_BUS_TOKEN"),
        OverrideBool(cfg.bus.tlsInsecure, env, "LOQA_BUS_TLS_INSECURE"),
        OverrideInt(cfg.bus.connectTimeout, env, "LOQA_BUS_CONNECT_TIMEOUT_MS")),
      node := cfg.node.(
        id := OverrideString(cfg.node.id, env, "LOQA_NODE_ID"),
        role := OverrideString(cfg.node.role, env, "LOQA_NODE_ROLE"),
        heartbeatInterval := OverrideInt(cfg.node.heartbeatInterval, env, "LOQA_NODE_HEARTBEAT_INTERVAL_MS"),
        heartbeatTimeout := OverrideInt(cfg.node.heartbeatTimeout, env, "LOQA_NODE_HEARTBEAT_TIMEOUT_MS")),
      eventStore := EventStoreConfig(
        OverrideString(cfg.eventStore.path, env, "LOQA_EVENT_STORE_PATH"),
        OverrideString(cfg.eventStore.retentionMode, env, "LOQA_EVENT_STORE_RETENTION_MODE"),
        OverrideInt(cfg.eventStore.retentionDays, env, "LOQA_EVENT_STORE_RETENTION_DAYS"),
        OverrideInt(cfg.eventStore.maxSessions, env, "LOQA_EVENT_STORE_MAX_SESSIONS"),
        OverrideBool(cfg.eventStore.vacuumOnStart, env, "LOQA_EVENT_STORE_VACUUM_ON_START")),
      stt := SttConfig(
        OverrideBool(cfg.stt.enabled, env, "LOQA_STT_ENABLED"),
        OverrideString(cfg.stt.mode, env, "LOQA_STT_MODE"),
        OverrideString(cfg.stt.command, env, "LOQA_STT_COMMAND"),
        OverrideString(cfg.stt.modelPath, env, "LOQA_STT_MODEL_PATH"),
        OverrideString(cfg.stt.language, env, "LOQA_STT_LANGUAGE"),
        OverrideInt(cfg.stt.sampleRate, env, "LOQA_STT_SAMPLE_RATE"),
        OverrideInt(cfg.stt.channels, env, "LOQA_STT_CHANNELS"),
        OverrideInt(cfg.stt.frameDurationMs, env, "LOQA_STT_FRAME_DURATION_MS"),
        OverrideInt(cfg.stt.partialEveryMs, env, "LOQA_STT_PARTIAL_EVERY_MS"),
        OverrideBool(cfg.stt.publishInterim, env, "LOQA_STT_PUBLISH_INTERIM")),
      llm := LlmConfig(
        OverrideBool(cfg.llm.enabled, env, "LOQA_LLM_ENABLED"),
        OverrideString(cfg.llm.mode, env, "LOQA_LLM_MODE"),
        OverrideString(cfg.llm.endpoint, env, "LOQA_LLM_ENDPOINT"),
        OverrideString(cfg.llm.command, env, "LOQA_LLM_COMMAND"),
        OverrideString(cfg.llm.modelFast, env, "LOQA_LLM_MODEL_FAST"),
        OverrideString(cfg.llm.modelBalanced, env, "LOQA_LLM_MODEL_BALANCED"),
        OverrideString(cfg.llm.defaultTier, env, "LOQA_LLM_DEFAULT_TIER"),
        OverrideInt(cfg.llm.maxTokens, env, "LOQA_LLM_MAX_TOKENS"),
        OverrideFloat(cfg.llm.temperature, env, "LOQA_LLM_TEMPERATURE")),
      tts := TtsConfig(
        OverrideBool(cfg.tts.enabled, env, "LOQA_TTS_ENABLED"),
        OverrideString(cfg.tts.mode, env, "LOQA_TTS_MODE"),
        OverrideString(cfg.tts.command, env, "LOQA_TTS_COMMAND"),
        OverrideString(cfg.tts.voice, env, "LOQA_TTS_VOICE"),
        OverrideInt(cfg.tts.sampleRate, env, "LOQA_TTS_SAMPLE_RATE"),
        OverrideInt(cfg.tts.channels, env, "LOQA_TTS_CHANNELS"),
        OverrideInt(cfg.tts.chunkDurationMs, env, "LOQA_TTS_CHUNK_DURATION_MS")))
  }

  /** With no variables set, the overrides change nothing. */
  lemma ApplyEmptyEnvironment(cfg: Config)
    ensures ApplyEnvOverrides(cfg, map[]) == cfg
  {
  }

  /** `Load("")`: defaults, then the environment, then validation. */
  function Load(env: map<string, string>): (r: Result<Config>)
    ensures r.Ok? <==> Validate(ApplyEnvOverrides(Default(), env)).None?
    ensures r.Ok? ==> r.value == ApplyEnvOverrides(Default(), env)
  {
    var cfg := ApplyEnvOverrides(Default(), env);
    match Validate(cfg)
    case Some(message) => Err(message)
    case None => Ok(cfg)
  }
}
