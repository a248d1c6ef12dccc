/**
 * Skill manifests (`internal/skills/manifest/manifest.go`): the record decoded from a
 * skill's `skill.yaml`, and the check that it carries what the host needs to load it.
 */
module Manifest {
  import opened Wrappers
  import Quoting

  datatype Metadata = Metadata(name: string, version: string, description: string, author: string, tags: seq<string>)

  datatype RuntimeSpec = RuntimeSpec(mode: string, module_: string, entrypoint: string, hostVersion: string)

  datatype BusSpec = BusSpec(publish: seq<string>, subscribe: seq<string>)

  datatype Capabilities = Capabilities(bus: BusSpec, storageKv: bool, timers: bool)

  datatype Surfaces = Surfaces(voice: bool, display: bool, automations: bool)

  datatype Manifest = Manifest(
    metadata: Metadata, runtime: RuntimeSpec, capabilities: Capabilities,
    permissions: seq<string>, surfaces: Surfaces)

  /** The zero value a YAML document with none of the keys decodes to. */
  function Empty(): Manifest {
    Manifest(Metadata("", "", "", "", []), RuntimeSpec("", "", "", ""),
      Capabilities(BusSpec([], []), false, false), [], Surfaces(false, false, false))
  }

  /** What a loadable manifest needs, as one conjunction. */
  ghost predicate Loadable(m: Manifest) {
    && m.metadata.name != ""
    && m.metadata.version != ""
    && m.runtime.mode == "wasm"
    && m.runtime.module_ != ""
    && m.runtime.entrypoint != ""
    && (|m.capabilities.bus.publish| > 0 || |m.capabilities.bus.subscribe| > 0)
    && |m.permissions| > 0
  }

  /**
   * `Validate`: the message of the first missing or unsupported field, or `None` exactly
   * when the manifest is loadable. The only runtime mode accepted is `wasm`.
   */
  function Validate(m: Manifest): (err: Option<string>)
    ensures err.None? <==> Loadable(m)
    ensures m.metadata.name == "" ==> err == Some("metadata.name is required")
    ensures m.metadata.name != "" && m.metadata.version != "" && m.runtime.mode !in {"", "wasm"} ==>
      err == Some("runtime.mode " + Quoting.Quote(m.runtime.mode) + " not supported")
  {
    if m.metadata.name == "" then Some("metadata.name is required")
    else if m.metadata.version == "" then Some("metadata.version is required")
    else if m.runtime.mode == "" then Some("runtime.mode is required")
    else if m.runtime.mode != "wasm" then Some("runtime.mode " + Quoting.Quote(m.runtime.mode) + " not supported")
    else if m.runtime.module_ == "" then Some("runtime.module is required for wasm")
    else if m.runtime.entrypoint == "" then Some("runtime.entrypoint is required for wasm")
    else if |m.capabilities.bus.publish| == 0 && |m.capabilities.bus.subscribe| == 0 then
      Some("capabilities.bus must declare publish or subscribe subjects")
    else if |m.permissions| == 0 then Some("permissions must include at least one entry")
    else None
  }

  /** A manifest with no fields set is rejected for its missing name. */
  lemma EmptyRejected()
    ensures Validate(Empty()) == Some("metadata.name is required")
  {
  }

  /** The timer skill's manifest: wasm, one publish and one subscribe subject, one permission. */
  function TimerManifest(): Manifest {
    Manifest(
      Metadata("timer", "0.1.0", "Timer skill", "Ambiware Labs", []),
      RuntimeSpec("wasm", "build/timer.wasm", "handle", "v1"),
      Capabilities(BusSpec(["tts.request"], ["skill.timer.input"]), true, true),
      ["event_store:read"], Surfaces(true, false, false))
  }

  lemma TimerManifestValid()
    ensures Validate(TimerManifest()) == None
  {
  }

  /** `python` holds no character `%q` escapes, so it is quoted by the quote marks alone. */
  lemma QuotePython()
    ensures Quoting.Quote("python") == "\"python\""
  {
    Quoting.QuotePlain("python");
  }

  /** A `python` runtime is unsupported even when every other field is filled in. */
  lemma PythonModeRejected()
    ensures var m := Manifest(Metadata("x", "1", "", "", []), RuntimeSpec("python", "", "", ""),
                              Capabilities(BusSpec(["foo"], []), false, false), ["foo"], Surfaces(false, false, false));
      Validate(m) == Some("runtime.mode \"python\" not supported")
  {
    QuotePython();
    assert "runtime.mode " + "\"python\"" + " not supported" == "runtime.mode \"python\" not supported";
  }

  /** Descriptive fields (description, author, tags, host version, storage, timers, surfaces) never change the verdict. */
  lemma DescriptiveFieldsIrrelevant(m: Manifest, description: string, author: string, tags: seq<string>,
                                    hostVersion: string, storageKv: bool, timers: bool, surfaces: Surfaces)
    ensures Validate(m.(metadata := m.metadata.(description := description, author := author, tags := tags),
                        runtime := m.runtime.(hostVersion := hostVersion),
                        capabilities := m.capabilities.(storageKv := storageKv, timers := timers),
                        surfaces := surfaces)) == Validate(m)
  {
  }
}
