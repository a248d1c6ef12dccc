# loqa-core voice pipeline, modelled in Dafny

Loqa is a local-first voice assistant runtime. One process (`loqad`) loads a configuration, joins
a NATS message bus and runs a chain of services that talk only through bus subjects:

- **speech-to-text** buffers `audio.frame` PCM per session and hands it to a recognizer (a mock,
  or an external program such as the faster-whisper wrapper). Partial transcripts are rate-limited;
  partial transcripts go to `stt.text.partial` and the final one to `stt.text.final`;
- the **router** turns a final transcript into an `nlu.request` and the answer into a `tts.request`;
- the **LLM service** merges each request with the configured defaults and streams chunks from a
  generator (a mock, or an Ollama server) onto `nlu.response.partial` / `nlu.response.final`;
- the **capability registry** announces this node, tracks peers by announcement and heartbeat, and
  marks silent peers unhealthy;
- the **skills service** discovers `skill.yaml` manifests, validates them, runs WebAssembly skills
  through host functions `host_log` / `host_publish`, checks every publish against the manifest's
  permissions and appends audit events.

The model also covers two Python adapters: the faster-whisper command wrapper and the silent TTS
stub. It covers one example skill, the smart-home bridge.

Each source file is one Dafny module; helper modules (`Wrappers`, `Bytes`, `Text`, `Quoting`,
`Decimal`, `Base64`, `Protocol`) hold the library behaviour the source relies on (`strings.TrimSpace`,
`strconv.Atoi`, `strconv.ParseBool`, the `%q` verb, `base64.b64encode`, the bus message types). Objects whose
fields the Go code updates in place are classes with `modifies` clauses. Pure logic is functions
and lemmas. Loops in the source are methods with loop invariants:

- `overrideStringSlice`;
- the PCM sample loop;
- the filter scans and `Query`;
- the Ollama stream loop;
- the `loadSkills` walk.

Bus I/O, clocks, processes, HTTP and JSON/YAML decoding are parameters. Each such parameter is an
already-decoded value, an outcome datatype or a total callback.

## Model

| member | source | states |
|---|---|---|
| Config.Validate | internal/config/config.go:286-367 | no error exactly when the core sections, and each enabled subsystem's fields, satisfy every rule `validate` checks |
| Config.ValidateCore | internal/config/config.go:287-321 | no error iff runtime name, port range 1-65535, bus servers, node id, 0 < heartbeat interval < timeout, capabilities, event-store path, retention mode in {ephemeral, session, persistent}, retention days >= 0 and Prometheus bind all hold |
| Config.ValidateStt | internal/config/config.go:323-332 | no error iff a disabled STT section, or positive sample rate and channels and a command when mode is exec |
| Config.ValidateLlm | internal/config/config.go:334-348 | no error iff a disabled LLM section, or mode in {mock, ollama, exec}, endpoint for ollama, command for exec, max tokens >= 0 |
| Config.ValidateTts | internal/config/config.go:350-364 | no error iff a disabled TTS section, or mode in {mock, exec}, command for exec, positive sample rate and channels |
| Config.DefaultIsValid | internal/config/config.go:105-187 | the built-in defaults pass validation, and loading with an empty environment yields exactly the defaults |
| Config.PortOutOfRangeRejected | internal/config/config.go:290-292 | every port outside 1-65535 is rejected |
| Config.DisabledSubsystemsIgnored | internal/config/config.go:323-364 | the settings of disabled STT, LLM and TTS sections never change the verdict |
| Config.OverrideString | internal/config/config.go:241-245 | an unset or all-blank variable keeps the current value; any other value replaces it untrimmed |
| Config.OverrideInt | internal/config/config.go:247-253 | the variable replaces the value exactly when `Atoi` accepts it |
| Config.OverrideBool | internal/config/config.go:255-261 | the variable replaces the value exactly when `ParseBool` accepts it |
| Config.OverrideFloat | internal/config/config.go:278-284 | the variable replaces the value exactly when it parses as a decimal number within float64's range |
| Config.OverrideFloatRange | internal/config/config.go:278-284 | an integer text replaces the value iff its magnitude is below the float64 overflow point; beyond it (`ErrRange`) the value is kept |
| Config.NonBlankTrimmed | internal/config/config.go:266-271 | the kept parts are non-empty and already trimmed, and never more than the input parts |
| Config.OverrideStringSlice | internal/config/config.go:263-276 | the loop computes the trimmed non-blank comma-separated parts; the target is replaced only when at least one remains |
| Config.TwoServers | internal/config/config.go:263-276 | `"a, b"` yields the list `[a, b]` for any two unpadded comma-free names |
| Config.SplitAround | internal/config/config.go:265 | splitting `a,b` on the comma gives exactly `[a, b]` |
| Config.ApplyEmptyEnvironment | internal/config/config.go:189-239 | with no variables set the overrides change nothing |
| Config.Load | internal/config/config.go:166-187 | the result is the overridden defaults when they validate, and an error exactly otherwise |
| Text.TrimSpace | internal/config/config.go:242 | the result is the stretch of the input that starts and ends with a non-space, with only white space outside it; empty iff the input is all white space |
| Text.TrimSpaceIdempotent | internal/config/config.go:268 | trimming twice is trimming once |
| Text.JoinSplit | internal/config/config.go:265 | joining the parts of a split with the separator gives back the input |
| Text.Split | internal/config/config.go:265 | at least one part, and no part contains the separator |
| Text.Strip | stt/whisper_wrapper.py:54 | Python's `strip()`: the stretch of the input bounded by non-spaces with only Python white space (Go's six characters plus U+001C to U+001F) outside it; empty iff the input is all such white space |
| Text.StripWithoutSeparators | stt/whisper_wrapper.py:54 | without U+001C to U+001F in the input, Python's strip and Go's `TrimSpace` give the same text |
| Text.ConcatAppend | stt/whisper_wrapper.py:54 | concatenating two lists of segments concatenates their texts |
| Decimal.Atoi | internal/config/config.go:249 | accepted iff the text is an optional sign and a non-empty digit run whose signed value lies in the 64-bit range; the value is that signed value |
| Decimal.AtoiRejectsMalformed | internal/config/config.go:249 | any non-digit after the optional sign makes the text invalid |
| Decimal.AtoiRange | internal/config/config.go:249 | a magnitude above `MaxInt64` is refused, and with a `-` it is accepted exactly up to 2^63 |
| Decimal.AtoiIntToString | internal/stt/mock_recognizer.go:20 | `Atoi` reads back every 64-bit integer that `%d` writes |
| Decimal.NatToString | internal/stt/mock_recognizer.go:20 | `%d` of a natural number is a non-empty digit run with no leading zero whose value is the number |
| Decimal.ParseBool | internal/config/config.go:257 | true for exactly the six true spellings, false for exactly the six false spellings |
| Decimal.ParseDecimalExamples | internal/config/config.go:280 | "0.5" parses to one half |
| Decimal.ParseDecimalAccepts | internal/config/config.go:280 | accepted iff the text is an optional sign and plain decimal notation (digits, at most one point, at least one digit) whose magnitude is below 2^1024 - 2^970, where float64 rounding reaches infinity and Go reports `ErrRange`; an integer reads as its signed value or, at or beyond that point, is refused |
| Decimal.ParseUnsignedAccepts | internal/config/config.go:280 | unsigned text is accepted iff it is plain decimal notation; a digit run reads as its integer value |
| Decimal.ParseDecimalIntToString | internal/config/config.go:280 | every integer's `%d` text parses back to that integer when its magnitude is below the float64 overflow point, and is refused otherwise (`1` followed by 309 zeros, say) |
| Decimal.ParseDecimalFraction | internal/config/config.go:280 | `w.d` parses to w plus the fraction digits over ten to their count, unless that reaches the float64 overflow point |
| Decimal.ParseDecimalNegative | internal/config/config.go:280 | a leading `-` accepts the same texts and negates the value |
| Decimal.ParseDecimalRejectsLetters | internal/config/config.go:280 | text starting with anything but a sign, digit or point is rejected |
| Quoting.QuoteChar | internal/skills/manifest/manifest.go:88 | a character is kept as one character exactly when it is neither a quote, a backslash, an ASCII control character nor DEL |
| Quoting.Quote | internal/skills/manifest/manifest.go:88 | `%q` output starts and ends with a double quote and is at least two characters longer than the input |
| Quoting.UnquoteQuote | internal/skills/manifest/manifest.go:88 | reading back `%q` output gives the original string, so distinct modes give distinct messages |
| Quoting.QuotePlain | internal/skills/manifest/manifest.go:88 | a string without quotes, backslashes or control characters is quoted by adding the quotes alone |
| Quoting.QuoteEscapesQuote | internal/skills/runtime/runtime.go:76 | `a"b` is written with its quote escaped |
| Manifest.Validate | internal/skills/manifest/manifest.go:69-97 | no error exactly when name, version, runtime mode wasm, module, entrypoint, a bus subject and a permission are all present; name is checked first; another mode gets `runtime.mode %q not supported` |
| Manifest.EmptyRejected | internal/skills/manifest/manifest_test.go:50-55 | an empty manifest fails with "metadata.name is required" |
| Manifest.TimerManifestValid | internal/skills/manifest/manifest_test.go:9-32 | the timer example manifest validates |
| Manifest.PythonModeRejected | internal/skills/manifest/manifest_test.go:57-67 | a python-mode manifest fails with the unsupported-mode message |
| Manifest.DescriptiveFieldsIrrelevant | internal/skills/manifest/manifest.go:69-97 | description, author, tags, host version, storage and timer flags and surfaces never change the verdict |
| Registry.WithCapabilityFilter | internal/capability/registry.go:319-328 | the scan finds a match exactly when the node offers a capability of that name |
| Registry.WithTierFilter | internal/capability/registry.go:330-339 | the scan finds a match exactly when the node offers a capability in that tier |
| Registry.ConvertCapabilities | internal/capability/registry.go:304-317 | the loop builds exactly `AnnouncedCapabilities`: one capability per configured entry, same order, name, tier and attributes copied |
| Registry.AnnouncedCapabilities | internal/capability/registry.go:304-317 | one advertised capability per configured one, in order, with its name, tier and attributes |
| Registry.Merge | internal/capability/registry.go:201-218 | the stored node takes the new timestamp and health, and the new role and capabilities only when non-empty, otherwise the previous ones |
| Registry.HeartbeatKeepsAnnouncement | internal/capability/registry.go:189-218 | a heartbeat refreshes time and health but keeps the announced role and capabilities |
| Registry.Aged | internal/capability/registry.go:220-231 | a node stays healthy iff it was healthy and was seen within the timeout; nothing else changes |
| Registry.AgedIdempotent | internal/capability/registry.go:220-231 | evaluating health twice at the same instant is evaluating it once |
| Registry.CapabilitySumRemove | internal/capability/registry.go:281-292 | the capability total splits into one node's count plus the rest |
| Registry.Registry.constructor | internal/capability/registry.go:59-88 | the table holds only the local node, merged from its configuration and healthy at now, when the first announcement succeeds, and is empty when it fails |
| Registry.Registry.UpdateNode | internal/capability/registry.go:201-218 | the node's entry becomes the merge of its previous entry with the update; all others untouched |
| Registry.Registry.HandleAnnounce | internal/capability/registry.go:177-187 | the announced node's entry becomes the merge of its previous entry with the message (role, capabilities, healthy, seen at the message's timestamp or now); other nodes untouched |
| Registry.Registry.HandleHeartbeat | internal/capability/registry.go:189-199 | the node is present and healthy at the new time, with role and capabilities kept (empty for an unknown node) |
| Registry.Registry.Announce | internal/capability/registry.go:146-162 | on a successful publish the local node's entry becomes the merge of its previous entry with its configured role and converted capabilities, healthy at now; on failure nothing changes |
| Registry.Registry.EvaluateHealth | internal/capability/registry.go:220-231 | every node is aged against the heartbeat timeout; the set of nodes is unchanged |
| Registry.Registry.Healthy | internal/capability/registry.go:233-242 | true iff the local node is known and healthy |
| Registry.Registry.Query | internal/capability/registry.go:244-256 | exactly the stored nodes the filter selects, each once |
| Registry.Registry.SnapshotCounts | internal/capability/registry.go:281-292 | the number of nodes and the total number of capabilities across them |
| Registry.Registry.LocalCapabilities | internal/capability/registry.go:294-302 | the local node's capabilities, or none when it is unknown |
| Registry.AnnounceAgeAndQuery | internal/capability/registry.go:146-256 | after an announce the node is healthy, still healthy at the timeout, unhealthy after it, and a capability query still returns it |
| SttRecognizer.MockTranscribe | internal/stt/mock_recognizer.go:14-22 | the text is `[final …` or `[partial …` closed by `]`, confidence 0 |
| SttRecognizer.MockLengthReadable | internal/stt/mock_recognizer.go:20 | the number inside the mock text reads back as the PCM length |
| SttRecognizer.MockModeOnly | internal/stt/mock_recognizer.go:14-22 | only the PCM length and the final flag matter, and the flag always matters |
| SttService.TranscriptPublication | internal/stt/service.go:179-202 | nothing for empty text; otherwise the final or partial subject with the session, text, partial flag and confidence |
| SttService.PartialGating | internal/stt/service.go:102-125 | no partial while a job is in flight; the first one is always due when idle; none after it without a positive interval |
| SttService.Appended | internal/stt/service.go:75-100 | a known session gets the frame appended to its buffer; an unknown one starts with the frame alone |
| SttService.Service.constructor | internal/stt/service.go:37-47 | no sessions |
| SttService.Service.ShouldSchedulePartial | internal/stt/service.go:102-125 | due iff the session exists and a partial is due; if due the last-partial time becomes now |
| SttService.Service.ScheduleTranscription | internal/stt/service.go:127-157 | an unknown session does nothing; a busy one only remembers a pending final; an idle one starts a job on its whole buffer and is marked in flight |
| SttService.Service.HandleFrame | internal/stt/service.go:75-100 | appends the frame, then starts a partial job when interim results are on and due, or a final job on the final frame unless one is in flight |
| SttService.Service.CompleteTranscription | internal/stt/service.go:158-175 | publishes the result, drops a finished final session, and starts the pending final job after a partial |
| SttService.FinalDuringPartial | internal/stt/service.go:75-177 | a final frame arriving during a partial job is not lost: it runs after the partial on the whole buffer and the session is then removed |
| ExecRecognizer.Sample | internal/stt/exec_recognizer.go:97-101 | a little-endian byte pair read as a signed 16-bit sample, negative iff the high bit is set |
| ExecRecognizer.SampleBytesInverse | internal/stt/exec_recognizer.go:97-101 | writing a sample and reading it back gives the sample |
| ExecRecognizer.SampleInverse | internal/stt/exec_recognizer.go:97-101 | reading a byte pair and writing it back gives the pair |
| ExecRecognizer.Samples | internal/stt/exec_recognizer.go:97-101 | one sample per byte pair, in order |
| ExecRecognizer.EncodeSamplesOfPcm | internal/stt/exec_recognizer.go:97-101 | decoding even-length PCM into samples loses nothing |
| ExecRecognizer.SamplesOfEncoding | internal/stt/exec_recognizer.go:97-101 | encoding 16-bit samples and decoding them gives them back |
| ExecRecognizer.DecodeSamples | internal/stt/exec_recognizer.go:92-112 | odd-length PCM is rejected with "pcm payload not aligned"; otherwise the loop yields exactly the samples |
| ExecRecognizer.NewExecRecognizer | internal/stt/exec_recognizer.go:30-40 | succeeds iff the command splits into at least one word; an empty command is "stt command is empty" |
| ExecRecognizer.BuildInvocation | internal/stt/exec_recognizer.go:58-73 | an empty command fails; otherwise the program is the first word with the expected arguments |
| ExecRecognizer.ArgumentShape | internal/stt/exec_recognizer.go:58-73 | the arguments are the remaining words, `--audio <file>`, optional model and language pairs, and `--partial` last exactly for interim exec requests |
| ExecRecognizer.Transcribe | internal/stt/exec_recognizer.go:42-112 | misaligned PCM fails before anything runs; otherwise the WAV holds the decoded samples, an empty command fails, the program is the first word with the expected arguments, and the result is the decoded transcript, the wrapped run failure or the wrapped decode error |
| SkillsRuntime.Ensure | internal/skills/runtime/runtime.go:233-241 | both callbacks become present: given ones kept, missing ones refuse with "publish disallowed" / "publish unsupported" |
| SkillsRuntime.DecodeU32 | internal/skills/runtime/runtime.go:131-132 | the low 32 bits of a stack slot |
| SkillsRuntime.Read | internal/skills/runtime/runtime.go:141 | a read succeeds iff it lies inside memory and returns those bytes |
| SkillsRuntime.PublishDecision | internal/skills/runtime/runtime.go:157-209 | the code is one of OK, not-allowed, runtime error, and only OK publishes or audits |
| SkillsRuntime.NotAllowedExactly | internal/skills/runtime/runtime.go:171-183 | not-allowed iff memory and subject are readable and the policy refuses the subject, whatever the payload |
| SkillsRuntime.PublishOkExactly | internal/skills/runtime/runtime.go:157-209 | OK iff subject readable, policy allows, payload readable or empty, publish succeeds; then the message is published and audited with subject and byte count |
| SkillsRuntime.DefaultBindingsRefuse | internal/skills/runtime/runtime.go:233-236 | with no bindings every readable publish is refused as not allowed |
| SkillsRuntime.HostPublish | internal/skills/runtime/runtime.go:157-209 | fewer than four slots change nothing; otherwise slot 0 receives the decision's code and the rest of the stack is kept |
| SkillsRuntime.HostLog | internal/skills/runtime/runtime.go:127-151 | an audit "skill.log" with the message exactly when auditing is on, two slots exist, the length is positive and the bytes are readable |
| SkillsRuntime.HostLogIgnoresHighBits | internal/skills/runtime/runtime.go:131-132 | only the low 32 bits of the memory offset and length matter |
| SkillsRuntime.Load | internal/skills/runtime/runtime.go:71-107 | a non-wasm mode is rejected with `unsupported runtime mode %q`; otherwise loading succeeds iff instantiation does, keeping the manifest |
| SkillsService.NormalizeConcurrency | internal/skills/service/service.go:65-67 | the limit is the configured value when positive, else 1 |
| SkillsService.AfterLastSlash | internal/skills/service/service.go:160-164 | the position after the last slash, with no slash beyond it |
| SkillsService.Base | internal/skills/service/service.go:123 | the base name contains no slash |
| SkillsService.ResolveModule | internal/skills/service/service.go:160-164 | an absolute module path is kept; a relative one is placed under the manifest's directory |
| SkillsService.CollectSet | internal/skills/service/service.go:166-173 | the set holds exactly the listed subjects or permissions |
| SkillsService.AllowPublish | internal/skills/service/service.go:250-258 | allowed iff the skill holds `bus:publish` and the subject is in its publish list; a missing permission gets its own message |
| SkillsService.AllowPublishMatchesManifest | internal/skills/service/service.go:142-188 | for a registered binding the publish policy is exactly the manifest's permission and subject list |
| SkillsService.InvocationEnv | internal/skills/service/service.go:232-241 | exactly the five skill variables, plus the reply subject when there is one, with their values |
| SkillsService.AuditPayload | internal/skills/service/service.go:308-314 | the event's data plus `invocation_id` and `skill`, which never overwrite keys the event already set |
| SkillsService.AfterLastSlashJoined | internal/skills/service/service.go:160-164 | the last slash of `dir/file` is the joining one |
| SkillsService.ManifestInDirectory | internal/skills/service/service.go:160-164 | for `dir/file` with any non-empty `dir`, the directory is `dir`, the base is `file`, and a relative module resolves under `dir` |
| SkillsService.NewBinding | internal/skills/service/service.go:175-184 | the binding carries the manifest's name and the session `skill:<name>` |
| SkillsService.BindingForIsNewBinding | internal/skills/service/service.go:160-185 | the binding description `addSkill` meets is met by exactly one binding, `NewBinding` |
| SkillsService.WalkStopsAtFirstError | internal/skills/service/service.go:116-134 | the walk fails with the message of the first walk error and succeeds iff there is none |
| SkillsService.WalkKeeps | internal/skills/service/service.go:116-129 | the walk never drops or replaces a skill already registered |
| SkillsService.WalkRegisters | internal/skills/service/service.go:116-188 | every manifest file before the first walk error that loads and validates ends up registered under its name |
| SkillsService.WalkAddsOnlyManifests | internal/skills/service/service.go:116-188 | every newly registered name comes from a manifest file before the first walk error and holds that file's binding |
| SkillsService.Service.constructor | internal/skills/service/service.go:55-89 | no skills, no events, no sessions; concurrency normalised; the store and privacy setting kept |
| SkillsService.Service.AddSkill | internal/skills/service/service.go:142-188 | succeeds iff the manifest loaded, validates and its name is new; then exactly that name is added with `NewBinding`; each failure carries its own message and changes nothing |
| SkillsService.Service.Visit | internal/skills/service/service.go:116-129 | a walk error stops the walk with its message; a file named `skill.yaml` (any case) is added as `addSkill` would; nothing else changes the table |
| SkillsService.Service.LoadSkills | internal/skills/service/service.go:110-140 | no directory is an error; otherwise the table and error are those of `Walk` over the entries: stopped at the first walk error, with each loadable manifest registered |
| SkillsService.Service.AppendAudit | internal/skills/service/service.go:300-330 | with a store, the skill's session is written with its actor and privacy scope, and one event is appended under it with the enriched payload and that privacy scope; without one nothing changes |
| SkillsService.Service.Invoke | internal/skills/service/service.go:227-298 | a load failure returns `load skill: ` plus the load error and records nothing; otherwise, with a store, the old events are kept and exactly two are appended under the skill's session (start with the subject, then error with its text or complete with the duration, each with actor, privacy and enriched payload), the session row is written, and the run's error is returned |
| SkillsService.InvokeAuditPayloads | internal/skills/service/service.go:283-296 | the start event's payload is the subject, invocation ID and skill; the end event's is the error text or the duration, plus the same two keys |
| Router.Service.constructor | internal/router/service.go:35-45 | no sessions, the configured voice, tier and target |
| Router.Service.HandleTranscript | internal/router/service.go:81-109 | empty text is ignored; otherwise the session is recorded and an LLM request with the text and default tier is published |
| Router.Service.HandleLLMResponse | internal/router/service.go:119-155 | empty content is ignored; otherwise the session is forgotten and a TTS request with its voice (or the default), the target and the trace is published |
| Router.VoiceFor | internal/router/service.go:136-139 | the session's voice when it has one, else the default voice |
| Router.Exchange | internal/router/service.go:81-155 | a transcript and its answer produce one LLM request and one TTS request, and leave no session behind |
| LlmTypes.OptionsFromConfig | internal/llm/types.go:38-44 | the request tier is the asked tier or the configured default, with configured token limit and temperature |
| LlmTypes.TierPresent | internal/llm/types.go:38-44 | the tier is never empty when either source has one |
| LlmMock.Completion | internal/llm/mock.go:19 | the answer is the prompt's stretch between its surrounding blanks, inside `[mock completion for ` and `]`; empty inside exactly for a blank prompt |
| LlmMock.Generate | internal/llm/mock.go:13-26 | a cancelled context yields no chunk and its error; otherwise one final chunk of the session with the completion, 20 ms latency, no trace ID and zero token counts, and the consumer's verdict |
| LlmMock.CompletionIgnoresPadding | internal/llm/mock.go:19 | surrounding white space in the prompt does not change the answer |
| Ollama.ModelForTier | internal/llm/ollama.go:23-41 | a non-empty model: fast for the fast tier, balanced otherwise, each falling back to the other, and `llama3.2:latest` when neither is set |
| Ollama.Latest | internal/llm/ollama.go:117-122 | a positive reported count replaces the running one; otherwise the running one is kept |
| Ollama.NonBlank | internal/llm/ollama.go:108-111 | only lines that are not all white space remain |
| Ollama.FoldFollowsLines | internal/llm/ollama.go:98-136 | every chunk is the next non-blank line's response, with done flag, session, trace, latency and the running token counts |
| Ollama.FoldStops | internal/llm/ollama.go:98-136 | the consumer accepted every chunk but the last; without error every non-blank line became a chunk; an error is a malformed line or the consumer's refusal |
| Ollama.CountsNeverReset | internal/llm/ollama.go:117-122 | once a token count is positive later chunks keep it positive |
| Ollama.Stream | internal/llm/ollama.go:98-136 | the loop delivers exactly the chunks and the error the stream fold defines |
| Ollama.Generate | internal/llm/ollama.go:63-137 | posts the chosen model with prompt, system, streaming, temperature and token limit; a failed request or a status >= 300 delivers nothing; otherwise the stream's chunks, and its error or the scanner's |
| LlmService.CoalesceInt | internal/llm/service.go:134-139 | a positive value wins, otherwise the fallback |
| LlmService.MergeOptions | internal/llm/service.go:79-91 | session, prompt, system and trace come from the message; tier, token limit and temperature from the message when set, else from the configuration |
| LlmService.MergeDefaults | internal/llm/service.go:79-91 | an unset message takes all defaults; a fully set one is passed through unchanged |
| LlmService.MergedTokenLimit | internal/llm/service.go:79-91 | under a valid enabled configuration the token limit is never negative, and positive when either side sets one |
| LlmService.PublishChunk | internal/llm/service.go:105-132 | nothing for empty content; otherwise the partial or final subject with every chunk field copied |
| LlmService.SubjectMatchesPartial | internal/llm/service.go:119-122 | a response goes to the final subject iff it is not partial |
| LlmService.Consume | internal/llm/service.go:94-96 | an empty chunk is accepted; otherwise the bus publish's verdict is returned |
| LlmService.PublicationsOfNonEmpty | internal/llm/service.go:105-132 | non-empty chunks are published one for one, in order |
| LlmService.Service.constructor | internal/llm/service.go:29-39 | not yet ready |
| LlmService.Service.Start | internal/llm/service.go:41-52 | a disabled service does nothing; a failed subscription is reported with its prefix; otherwise the service becomes ready |
| LlmService.Service.Healthy | internal/llm/service.go:62-64 | healthy iff disabled or ready |
| LlmService.Service.HandleRequest | internal/llm/service.go:66-103 | an undecodable message attempts no publication; otherwise the merged request goes to the generator and each non-empty chunk it yields is handed to the bus in order, with the generator's error |
| LlmService.MockRoundTrip | internal/llm/service.go:66-132 | with the mock and a healthy bus a request gives exactly one final response for its session carrying the mock's answer |
| SmartHome.BoolText | skills/examples/smart-home/src/main.go:71-76 | "yes" iff true, "no" iff false |
| SmartHome.StatusObject | skills/examples/smart-home/src/main.go:78-91 | device, action, room, state "forwarded", and the payload only when non-empty |
| SmartHome.Prologue | skills/examples/smart-home/src/main.go:18-30 | the init line first, one more line for a missing URL and one for a missing token; the default endpoint when no URL is set |
| SmartHome.Handle | skills/examples/smart-home/src/main.go:32-68 | the last call publishes the status iff the intent is actionable, and nothing before it publishes |
| SmartHome.Run | skills/examples/smart-home/src/main.go:18-69 | at least two calls, starting with the init log line |
| SmartHome.PublishesOnlyActionable | skills/examples/smart-home/src/main.go:32-68 | at most one publish, last, on `skill.home.status`, exactly for an actionable intent, with its status |
| SmartHome.EndpointLogged | skills/examples/smart-home/src/main.go:21-25 | an actionable intent logs the endpoint it would call |
| SmartHome.TokenNeverLeaks | skills/examples/smart-home/src/main.go:27-30 | the output depends on the token only through whether it is present |
| SmartHome.EmptyEnvironment | skills/examples/smart-home/src/main.go:18-36 | with nothing set the skill logs init, default endpoint, missing token and missing intent, and stops |
| WhisperWrapper.ModelCache.constructor | stt/whisper_wrapper.py:31 | an empty cache |
| WhisperWrapper.ModelCache.LoadModel | stt/whisper_wrapper.py:34-40 | a hit returns the cached model and builds nothing; a miss builds one model and caches it under (path, compute type); a failing build caches nothing |
| WhisperWrapper.SamePathOtherComputeType | stt/whisper_wrapper.py:34-40 | one path with two compute types yields two models; repeating a key reuses its model |
| WhisperWrapper.Normalize | stt/whisper_wrapper.py:54-64 | the concatenation of the segments stripped of Python white space: empty iff it is all white space, otherwise bounded by non-spaces; a confidence exactly when metadata carries a log-probability |
| WhisperWrapper.NormalizeKeepsOrder | stt/whisper_wrapper.py:54 | segments are joined in order with nothing between them |
| WhisperWrapper.NormalizeStripsSeparator | stt/whisper_wrapper.py:54 | `["\x1fhi"]` becomes "hi", as Python strips the unit separator |
| WhisperWrapper.NormalizeExample | stt/whisper_wrapper.py:54-56 | `["Hel", "lo wor", "ld "]` becomes "Hello world" without confidence |
| KokoroStub.Duration | tts/kokoro_stub.py:17 | between 0.2 s and 1.0 s, length / 50 in between |
| KokoroStub.DurationMonotone | tts/kokoro_stub.py:17 | longer text never gives shorter audio |
| KokoroStub.TruncateTowardZero | tts/kokoro_stub.py:18 | Python's `int()` on a number rounds toward zero |
| KokoroStub.Synthesize | tts/kokoro_stub.py:8-26 | non-JSON input fails with status 1; a response is always final |
| KokoroStub.ResponseDecodesToSilence | tts/kokoro_stub.py:15-24 | the response decodes to exactly frame count × channels × 2 zero bytes |
| KokoroStub.DefaultsApply | tts/kokoro_stub.py:15-16 | missing keys behave as 22050 Hz, one channel, empty text |
| KokoroStub.OnlyLengthMatters | tts/kokoro_stub.py:17 | the text matters only through its length |
| KokoroStub.HiExample | tts/kokoro_stub.py:15-22 | "hi" gives 4410 frames and 8820 zero bytes |
| KokoroStub.DurationExamples | tts/kokoro_stub.py:17 | 0, 25, 50 and 500 characters give 0.2, 0.5, 1.0 and 1.0 s |
| Base64.DecodeEncode | tts/kokoro_stub.py:22 | decoding the base64 text of any byte sequence (section 4 of RFC 4648) gives it back |
| Base64.EncodeLength | tts/kokoro_stub.py:22 | four characters per started group of three bytes |
| Base64.EncodeZeroTriples | tts/kokoro_stub.py:22 | each three zero bytes encode as `AAAA` |

## Left out

- Bus transport, subscriptions, `Start`/`Close` of the router, STT, skills and registry services, and the registry's heartbeat, health-monitor and metrics loops: goroutines, tickers and NATS calls; their state changes are modelled by the handlers they call.
- Concurrency: mutexes, wait groups, the skills semaphore and the asynchronous transcription goroutine are left out; a transcription job is returned and completed by a later call.
- Clocks and latencies are parameters in milliseconds; the 20 ms mock delay is a constant latency only.
- JSON, YAML and shell-word parsing and JSON encoding: inputs arrive decoded and outputs stay structured; the smart-home marshal-error branches cannot fail on string maps and are not modelled.
- Floating point: temperatures, confidences and durations are exact reals, and the whisper confidence is the log-probability itself, because `exp` has no exact model.
- KokoroStub.Synthesize: the frame count is computed over exact reals, so it can exceed Python's by one frame where binary floating point rounds down; 35 characters at 22050 Hz give 15434 frames in Python (22050 × 0.7 evaluates to 15434.999…) and 15435 in the model.
- Decimal.ParseDecimalAccepts: the acceptance it states is Go's only for plain decimal notation; exponents (`1e3`), hex floats, `Inf`, `NaN` and underscores, which `ParseFloat` accepts, are refused by the model, as Decimal.ParseDecimal below says.
- Decimal.ParseDecimal models `strconv.ParseFloat` only for plain decimal notation: texts with exponents, hex digits, infinities, `NaN` or underscores, which Go accepts, are refused. Out-of-range magnitudes are refused as Go refuses them with `ErrRange`, but accepted values are kept exact rather than rounded to float64, and a nonzero value too small for float64 is kept instead of becoming 0.
- Text.TrimSpace and Text.Strip treat ASCII white space only (Go's six characters, plus U+001C to U+001F for Python). U+0085, U+00A0 and the Unicode spaces, which both Go and Python strip, are kept; so are they by WhisperWrapper.Normalize and LlmMock.Completion.
- Text.EqualFold, and with it SkillsService.IsManifestFile, folds ASCII letters only. Go's `strings.EqualFold` also applies Unicode simple case folding (the Kelvin sign matches `k`, `ſ` matches `s`), so a file named `ſkill.yaml` is a manifest to Go but not to the model.
- SkillsRuntime.BytesToString turns each byte into one character and does not decode UTF-8. A subject with multi-byte characters therefore never matches the same subject in the manifest, where Go compares equal UTF-8 bytes and allows it; log messages with such characters are recorded one character per byte.
- Quoting.Quote keeps every character outside ASCII as it is. Go's `%q` also escapes non-printable Unicode characters (as `\u` or `\U`) and invalid UTF-8 bytes; the model's strings hold no invalid UTF-8.
- SkillsService.Service.Invoke: audits that host calls raise during the run (`skill.log` and `skill.publish`, recorded through `RecordAudit` between the start and the end event) are not appended here, so exactly two events are added; the host functions' decisions are modelled on their own by SkillsRuntime.HostLog and SkillsRuntime.PublishDecision. The 30-second context timeout and runtime initialisation failure (`init runtime:`) are not modelled either.
- SkillsService.Service.AppendAudit: failures of the event store (`AppendSession`, `AppendEvent`, the 2-second timeout, JSON marshalling) are not modelled; every write succeeds.
- `filepath.Clean`, `filepath.WalkDir` ordering and file-system errors beyond a walk error are not modelled; paths are joined with `/`.
- WAV header writing, temporary files and process execution in the exec recognizer: the command's outcome is a parameter.
- wazero instantiation and module execution: only the host functions' decisions and the load outcome are modelled.
- The unreachable second "manifest missing metadata.name" check in `addSkill`, and manifest file reading.
- The in-place writes of the override helpers become returned values; the YAML file layer of `Load` is not modelled (the environment applies to the defaults).
- RouterConfig and SkillsConfig are not part of this model; their settings are constructor parameters.
- The Ollama HTTP client, its 60-second timeout, `omitempty` on the payload, context cancellation mid-stream and the unused `accumulated` text.
- The event store itself: appended events are kept as a sequence and session rows as a map.
- The whisper wrapper's import-failure exit (status 2) and argument parsing.
- Registry.AnnounceAgeAndQuery: states that the query result is non-empty, not its exact length.
- Map iteration order in `Query` and `snapshotCounts` is not modelled; `Query` promises membership and no duplicates, not an order.
