/**
 * The skills service (`internal/skills/service/service.go`): discovery of `skill.yaml`
 * manifests, registration of each skill under its name, the publish permission check
 * handed to the runtime, the environment of an invocation and the audit record written
 * for each runtime event. Reading and decoding a manifest file is the caller's: each
 * discovered file arrives with the outcome of `manifest.Load`.
 */
module SkillsService {
  import opened Wrappers
  import Text
  import Manifest
  import SkillsRuntime

  /** `New`: a concurrency limit of zero or less means one invocation at a time. */
  function NormalizeConcurrency(concurrency: int): (limit: int)
    ensures limit >= 1
    ensures concurrency > 0 ==> limit == concurrency
    ensures concurrency <= 0 ==> limit == 1
  {
    if concurrency <= 0 then 1 else concurrency
  }

  /** `filepath.IsAbs` on a Unix path. */
  predicate IsAbs(path: string) {
    |path| > 0 && path[0] == '/'
  }

  /** The index just after the last `/` in `path`, or 0 when there is none. */
  function AfterLastSlash(path: string): (k: nat)
    ensures k <= |path|
    ensures k > 0 ==> path[k - 1] == '/'
    ensures forall i :: k <= i < |path| ==> path[i] != '/'
  {
    if path == [] then 0
    else if path[|path| - 1] == '/' then |path|
    else AfterLastSlash(path[..|path| - 1])
  }

  /** `filepath.Base` for a path without a trailing slash: its last element. */
  function Base(path: string): (name: string)
    ensures forall i :: 0 <= i < |name| ==> name[i] != '/'
  {
    path[AfterLastSlash(path)..]
  }

  /**
   * `filepath.Dir` without the final `Clean`: everything before the last `/` (the root
   * for a path directly under it), or `.` when there is no `/`.
   */
  function Dir(path: string): string {
    var k := AfterLastSlash(path);
    if k == 0 then "." else if k == 1 then "/" else path[..k - 1]
  }

  /** `filepath.Join(dir, elem)` without the final `Clean`. */
  function Join(dir: string, elem: string): string {
    if dir == "" then elem else if elem == "" then dir else dir + "/" + elem
  }

  /** Where the module lives: an absolute path as given, a relative one under the manifest's directory. */
  function ResolveModule(manifestPath: string, module_: string): (path: string)
    ensures IsAbs(module_) ==> path == module_
    ensures !IsAbs(module_) && module_ != "" ==> path == Dir(manifestPath) + "/" + module_
  {
    if IsAbs(module_) then module_ else Join(Dir(manifestPath), module_)
  }

  /** `binding`: a registered skill. */
  datatype Binding = Binding(
    manifest: Manifest.Manifest, manifestPath: string, modulePath: string, directory: string,
    publishSet: set<string>, subscribeList: seq<string>, permissions: set<string>, sessionId: string)

  /**
   * What `addSkill` stores for manifest `m` read from `manifestPath`: the module path
   * resolved, the publish subjects and permissions as sets, the subscriptions as listed,
   * and the session `skill:<name>`.
   */
  ghost predicate BindingFor(b: Binding, manifestPath: string, m: Manifest.Manifest) {
    && b.manifest == m
    && b.manifestPath == manifestPath
    && b.modulePath == ResolveModule(manifestPath, m.runtime.module_)
    && b.directory == Dir(manifestPath)
    && (forall s :: s in b.publishSet <==> s in m.capabilities.bus.publish)
    && b.subscribeList == m.capabilities.bus.subscribe
    && (forall p :: p in b.permissions <==> p in m.permissions)
    && b.sessionId == "skill:" + m.metadata.name
  }

  /** The binding `addSkill` builds for manifest `m` read from `manifestPath`. */
  function NewBinding(manifestPath: string, m: Manifest.Manifest): (b: Binding)
    ensures b.manifest.metadata.name == m.metadata.name && b.sessionId == "skill:" + m.metadata.name
  {
    Binding(m, manifestPath, ResolveModule(manifestPath, m.runtime.module_), Dir(manifestPath),
            (set s | s in m.capabilities.bus.publish), m.capabilities.bus.subscribe,
            (set p | p in m.permissions), "skill:" + m.metadata.name)
  }

  /** The description `BindingFor` pins the binding down: `NewBinding` is the only one that meets it. */
  lemma BindingForIsNewBinding(b: Binding, manifestPath: string, m: Manifest.Manifest)
    ensures BindingFor(b, manifestPath, m) <==> b == NewBinding(manifestPath, m)
  {
    if BindingFor(b, manifestPath, m) {
      assert b.publishSet == NewBinding(manifestPath, m).publishSet;
      assert b.permissions == NewBinding(manifestPath, m).permissions;
    }
  }

  /** The elements of a list, as the loops of `addSkill` collect them into a set. */
  method CollectSet(items: seq<string>) returns (collected: set<string>)
    ensures forall s :: s in collected <==> s in items
  {
    collected := {};
    for i := 0 to |items|
      invariant forall s :: s in collected <==> s in items[..i]
    {
      collected := collected + {items[i]};
    }
  }

  /**
   * The `AllowPublish` callback of a binding: refused without the `bus:publish`
   * permission, then refused for a subject the manifest does not declare.
   */
  function AllowPublish(b: Binding, subject: string): (err: Option<string>)
    ensures err.None? <==> "bus:publish" in b.permissions && subject in b.publishSet
    ensures "bus:publish" !in b.permissions ==> err == Some("missing permission bus:publish")
  {
    if "bus:publish" !in b.permissions then Some("missing permission bus:publish")
    else if subject !in b.publishSet then Some("subject " + subject + " not declared in manifest")
    else None
  }

  /** A bus message delivered to a skill's subscription. */
  datatype Delivery = Delivery(subject: string, data: string, reply: string)

  /**
   * The environment of `invoke`: skill name, subject, payload, invocation ID and skill
   * directory, plus the reply subject only when there is one.
   */
  function InvocationEnv(b: Binding, msg: Delivery, invocationId: string): (env: map<string, string>)
    ensures env.Keys == {"LOQA_SKILL_NAME", "LOQA_EVENT_SUBJECT", "LOQA_EVENT_PAYLOAD", "LOQA_INVOCATION_ID", "LOQA_SKILL_DIRECTORY"}
      + (if msg.reply != "" then {"LOQA_EVENT_REPLY"} else {})
    ensures env["LOQA_SKILL_NAME"] == b.manifest.metadata.name && env["LOQA_EVENT_SUBJECT"] == msg.subject
    ensures env["LOQA_EVENT_PAYLOAD"] == msg.data && env["LOQA_INVOCATION_ID"] == invocationId
    ensures env["LOQA_SKILL_DIRECTORY"] == b.directory
    ensures msg.reply != "" ==> env["LOQA_EVENT_REPLY"] == msg.reply
  {
    var fixed := map[
      "LOQA_SKILL_NAME" := b.manifest.metadata.name,
      "LOQA_EVENT_SUBJECT" := msg.subject,
      "LOQA_EVENT_PAYLOAD" := msg.data,
      "LOQA_INVOCATION_ID" := invocationId,
      "LOQA_SKILL_DIRECTORY" := b.directory];
    if msg.reply != "" then fixed["LOQA_EVENT_REPLY" := msg.reply] else fixed
  }

  /**
   * The payload loop of `appendAudit`: `invocation_id` and `skill` first, then every key
   * of the event data written over them.
   */
  method AuditPayload(skill: string, invocationId: string, data: map<string, SkillsRuntime.JsonValue>)
    returns (payload: map<string, SkillsRuntime.JsonValue>)
    ensures payload.Keys == data.Keys + {"invocation_id", "skill"}
    ensures forall k :: k in data ==> payload[k] == data[k]
    ensures "invocation_id" !in data ==> payload["invocation_id"] == SkillsRuntime.JString(invocationId)
    ensures "skill" !in data ==> payload["skill"] == SkillsRuntime.JString(skill)
  {
    payload := map["invocation_id" := SkillsRuntime.JString(invocationId), "skill" := SkillsRuntime.JString(skill)];
    var pending := data.Keys;
    while pending != {}
      invariant pending <= data.Keys
      invariant payload.Keys == (data.Keys - pending) + {"invocation_id", "skill"}
      invariant forall k :: k in data && k !in pending ==> payload[k] == data[k]
      invariant "invocation_id" !in data ==> payload["invocation_id"] == SkillsRuntime.JString(invocationId)
      invariant "skill" !in data ==> payload["skill"] == SkillsRuntime.JString(skill)
      decreases pending
    {
      var k :| k in pending;
      payload := payload[k := data[k]];
      pending := pending - {k};
    }
  }

  /** An event appended to the store: session, actor, type, the JSON payload as a map, and the privacy scope. */
  datatype StoredEvent = StoredEvent(sessionId: string, actorId: string, eventType: string,
                                     payload: map<string, SkillsRuntime.JsonValue>, privacy: string)

  /** A session row of the store: its actor and privacy scope (the latest write wins). */
  datatype SessionRecord = SessionRecord(actorId: string, privacy: string)

  /** One entry of the directory walk: an error, a directory, or a file with its loaded manifest. */
  datatype WalkEntry =
    | WalkError(message: string)
    | Directory(path: string)
    | File(path: string, loaded: Result<Manifest.Manifest>)

  /** A file the walk loads: its name is `skill.yaml` in any letter case. */
  predicate IsManifestFile(path: string) {
    Text.EqualFold(Base(path), "skill.yaml")
  }

  /**
   * The table `addSkill` leaves: one more binding when the manifest loaded, validates and
   * its name is new, the table unchanged otherwise.
   */
  function Added(skills: map<string, Binding>, manifestPath: string, loaded: Result<Manifest.Manifest>): map<string, Binding> {
    if loaded.Ok? && Manifest.Validate(loaded.value).None? && loaded.value.metadata.name !in skills
    then skills[loaded.value.metadata.name := NewBinding(manifestPath, loaded.value)]
    else skills
  }

  /** The table after the walk passes one entry that is not an error: only manifest files are added. */
  function Visited(skills: map<string, Binding>, entry: WalkEntry): map<string, Binding> {
    if entry.File? && IsManifestFile(entry.path) then Added(skills, entry.path, entry.loaded) else skills
  }

  /** The walk over `entries` from `skills`: the table it leaves, and the error that stopped it. */
  function Walk(skills: map<string, Binding>, entries: seq<WalkEntry>): (map<string, Binding>, Option<string>)
    decreases |entries|
  {
    if entries == [] then (skills, None)
    else if entries[0].WalkError? then (skills, Some(entries[0].message))
    else Walk(Visited(skills, entries[0]), entries[1..])
  }

  /** No entry before `i` is a walk error. */
  predicate NoWalkErrorBefore(entries: seq<WalkEntry>, i: int) {
    forall j :: 0 <= j < i && j < |entries| ==> !entries[j].WalkError?
  }

  /** The walk stops with the message of the first walk error, and succeeds iff there is none. */
  lemma {:induction false} WalkStopsAtFirstError(skills: map<string, Binding>, entries: seq<WalkEntry>)
    ensures NoWalkErrorBefore(entries, |entries|) ==> Walk(skills, entries).1 == None
    ensures forall i :: 0 <= i < |entries| && entries[i].WalkError? && NoWalkErrorBefore(entries, i) ==>
      Walk(skills, entries).1 == Some(entries[i].message)
    decreases |entries|
  {
    if entries != [] && !entries[0].WalkError? {
      WalkStopsAtFirstError(Visited(skills, entries[0]), entries[1..]);
      forall i | 0 <= i < |entries| && entries[i].WalkError? && NoWalkErrorBefore(entries, i)
        ensures Walk(skills, entries).1 == Some(entries[i].message)
      {
        assert entries[1..][i - 1] == entries[i];
        assert NoWalkErrorBefore(entries[1..], i - 1);
      }
    }
  }

  /** The walk never drops or replaces a binding it started with. */
  lemma {:induction false} WalkKeeps(skills: map<string, Binding>, entries: seq<WalkEntry>)
    ensures forall name :: name in skills ==> name in Walk(skills, entries).0 && Walk(skills, entries).0[name] == skills[name]
    decreases |entries|
  {
    if entries != [] && !entries[0].WalkError? {
      WalkKeeps(Visited(skills, entries[0]), entries[1..]);
    }
  }

  /**
   * Every manifest file before the first walk error that loads and validates ends up
   * registered under its name (by itself or by an earlier file with the same name).
   */
  lemma {:induction false} WalkRegisters(skills: map<string, Binding>, entries: seq<WalkEntry>, i: int)
    requires 0 <= i < |entries| && NoWalkErrorBefore(entries, i + 1)
    requires entries[i].File? && IsManifestFile(entries[i].path)
    requires entries[i].loaded.Ok? && Manifest.Validate(entries[i].loaded.value).None?
    ensures entries[i].loaded.value.metadata.name in Walk(skills, entries).0
    decreases |entries|
  {
    if i == 0 {
      WalkKeeps(Visited(skills, entries[0]), entries[1..]);
    } else {
      assert entries[1..][i - 1] == entries[i];
      assert NoWalkErrorBefore(entries[1..], i);
      WalkRegisters(Visited(skills, entries[0]), entries[1..], i - 1);
    }
  }

  /**
   * Every name the walk adds comes from a manifest file before the first walk error, and
   * is bound to the binding built from that file's manifest.
   */
  lemma {:induction false} WalkAddsOnlyManifests(skills: map<string, Binding>, entries: seq<WalkEntry>, name: string)
    requires name in Walk(skills, entries).0 && name !in skills
    ensures exists i ::
              && 0 <= i < |entries| && NoWalkErrorBefore(entries, i + 1)
              && entries[i].File? && IsManifestFile(entries[i].path) && entries[i].loaded.Ok?
              && Walk(skills, entries).0[name] == NewBinding(entries[i].path, entries[i].loaded.value)
    decreases |entries|
  {
    var next := Visited(skills, entries[0]);
    if name in next {
      WalkKeeps(next, entries[1..]);
      assert NoWalkErrorBefore(entries, 1);
    } else {
      WalkAddsOnlyManifests(next, entries[1..], name);
      var i :| 0 <= i < |entries[1..]| && NoWalkErrorBefore(entries[1..], i + 1) &&
        entries[1..][i].File? && IsManifestFile(entries[1..][i].path) && entries[1..][i].loaded.Ok? &&
        Walk(next, entries[1..]).0[name] == NewBinding(entries[1..][i].path, entries[1..][i].loaded.value);
      assert NoWalkErrorBefore(entries, i + 2);
    }
  }

  class Service {
    const directory: string
    const concurrency: int
    /** Whether an event store is attached; without one audits are dropped. */
    const hasStore: bool
    /** The privacy scope recorded with every audit (`AuditPrivacy`). */
    const auditPrivacy: string
    var skills: map<string, Binding>
    var events: seq<StoredEvent>
    var sessions: map<string, SessionRecord>

    /** Registered skills are stored under their own name with session `skill:<name>`. */
    ghost predicate Valid()
      reads this
    {
      forall name :: name in skills ==>
        skills[name].manifest.metadata.name == name && skills[name].sessionId == "skill:" + name
    }

    /** `New` before discovery: the concurrency normalised, no skills, no events. */
    constructor (directory: string, concurrency: int, hasStore: bool, auditPrivacy: string)
      ensures Valid()
      ensures this.directory == directory && this.concurrency == NormalizeConcurrency(concurrency)
      ensures this.hasStore == hasStore && this.auditPrivacy == auditPrivacy
      ensures skills == map[] && events == [] && sessions == map[]
    {
      this.directory := directory;
      this.concurrency := NormalizeConcurrency(concurrency);
      this.hasStore := hasStore;
      this.auditPrivacy := auditPrivacy;
      skills := map[];
      events := [];
      sessions := map[];
    }

    /**
     * `addSkill`: a manifest that failed to load or validate, or whose name is taken, is
     * rejected with nothing changed; otherwise a binding is stored under its name, with
     * the module path resolved, the publish subjects and permissions as sets, and the
     * session `skill:<name>`.
     */
    method AddSkill(manifestPath: string, loaded: Result<Manifest.Manifest>) returns (err: Option<string>)
      requires Valid()
      modifies this
      ensures Valid()
      ensures err.Some? ==> skills == old(skills)
      ensures loaded.Err? ==> err == Some("load manifest: " + loaded.message)
      ensures loaded.Ok? && Manifest.Validate(loaded.value).Some? ==>
        err == Some("validate manifest: " + Manifest.Validate(loaded.value).value)
      ensures loaded.Ok? && Manifest.Validate(loaded.value).None? && loaded.value.metadata.name in old(skills) ==>
        err == Some("duplicate skill name " + loaded.value.metadata.name) && skills == old(skills)
      ensures err.None? <==>
        loaded.Ok? && Manifest.Validate(loaded.value).None? && loaded.value.metadata.name !in old(skills)
      ensures err.None? ==>
        loaded.value.metadata.name in skills &&
        skills == old(skills)[loaded.value.metadata.name := skills[loaded.value.metadata.name]] &&
        BindingFor(skills[loaded.value.metadata.name], manifestPath, loaded.value)
      ensures skills == Added(old(skills), manifestPath, loaded)
      ensures events == old(events) && sessions == old(sessions)
    {
      if loaded.Err? {
        return Some("load manifest: " + loaded.message);
      }
      var mf := loaded.value;
      var invalid := Manifest.Validate(mf);
      if invalid.Some? {
        return Some("validate manifest: " + invalid.value);
      }
      var name := mf.metadata.name;
      if name in skills {
        return Some("duplicate skill name " + name);
      }
      var baseDir := Dir(manifestPath);
      var modulePath := mf.runtime.module_;
      if !IsAbs(modulePath) {
        modulePath := Join(baseDir, modulePath);
      }
      var publishSet := CollectSet(mf.capabilities.bus.publish);
      var permSet := CollectSet(mf.permissions);
      assert publishSet == NewBinding(manifestPath, mf).publishSet;
      assert permSet == NewBinding(manifestPath, mf).permissions;
      skills := skills[name := Binding(mf, manifestPath, modulePath, baseDir, publishSet,
                                       mf.capabilities.bus.subscribe, permSet, "skill:" + name)];
      return None;
    }

    /**
     * `loadSkills` over the entries the walk visits, in order: without a configured
     * directory nothing is loaded; otherwise the table and the error are those of `Walk`
     * (a walk error aborts, keeping what was added; only files named `skill.yaml` in any
     * case are added, and a failing one is skipped).
     */
    method LoadSkills(entries: seq<WalkEntry>) returns (err: Option<string>)
      requires Valid()
      modifies this
      ensures Valid()
      ensures directory == "" ==> err == Some("skills directory not configured") && skills == old(skills)
      ensures directory != "" ==> skills == Walk(old(skills), entries).0 && err == Walk(old(skills), entries).1
      ensures directory != "" && (forall i :: 0 <= i < |entries| ==> !entries[i].WalkError?) ==> err.None?
      ensures old(skills).Keys <= skills.Keys
      ensures forall name :: name in old(skills) ==> skills[name] == old(skills)[name]
      ensures forall name :: name in skills && name !in old(skills) ==> IsManifestFile(skills[name].manifestPath)
      ensures events == old(events) && sessions == old(sessions)
    {
      if directory == "" {
        return Some("skills directory not configured");
      }
      var i := 0;
      while i < |entries|
        invariant 0 <= i <= |entries|
        invariant Valid()
        invariant forall j :: 0 <= j < i ==> !entries[j].WalkError?
        invariant old(skills).Keys <= skills.Keys
        invariant forall name :: name in old(skills) ==> skills[name] == old(skills)[name]
        invariant forall name :: name in skills && name !in old(skills) ==> IsManifestFile(skills[name].manifestPath)
        invariant Walk(old(skills), entries) == Walk(skills, entries[i..])
        invariant events == old(events) && sessions == old(sessions)
      {
        assert entries[i..][1..] == entries[i + 1..];
        var stop := Visit(entries[i]);
        if stop.Some? {
          return stop;
        }
        i := i + 1;
      }
      return None;
    }

    /**
     * The walk's callback: a walk error stops the walk with that error; directories are
     * passed over; a file named `skill.yaml` in any letter case is added, and a failure to
     * add it is only logged.
     */
    method Visit(entry: WalkEntry) returns (stop: Option<string>)
      requires Valid()
      modifies this
      ensures Valid()
      ensures entry.WalkError? ==> stop == Some(entry.message) && skills == old(skills)
      ensures !entry.WalkError? ==> stop.None?
      ensures !(entry.File? && IsManifestFile(entry.path)) ==> skills == old(skills)
      ensures old(skills).Keys <= skills.Keys
      ensures forall name :: name in old(skills) ==> skills[name] == old(skills)[name]
      ensures forall name :: name in skills && name !in old(skills) ==>
        entry.File? && skills[name].manifestPath == entry.path && IsManifestFile(entry.path)
      ensures !entry.WalkError? ==> skills == Visited(old(skills), entry)
      ensures entry.File? && IsManifestFile(entry.path) && entry.loaded.Ok? &&
              Manifest.Validate(entry.loaded.value).None? && entry.loaded.value.metadata.name !in old(skills) ==>
        skills == old(skills)[entry.loaded.value.metadata.name := NewBinding(entry.path, entry.loaded.value)]
      ensures events == old(events) && sessions == old(sessions)
    {
      match entry {
        case WalkError(message) =>
          return Some(message);
        case Directory(_) =>
          return None;
        case File(path, loaded) =>
          if IsManifestFile(path) {
            var _ := AddSkill(path, loaded);
          }
          return None;
      }
    }

    /**
     * `appendAudit`: without a store nothing is recorded; otherwise the skill's session is
     * written (actor and privacy scope) and one event is appended for it, with the skill as
     * actor, the merged payload and the configured privacy scope.
     */
    method AppendAudit(b: Binding, invocationId: string, event: SkillsRuntime.AuditEvent)
      modifies this
      ensures skills == old(skills)
      ensures !hasStore ==> events == old(events) && sessions == old(sessions)
      ensures hasStore ==> sessions == old(sessions)[b.sessionId := SessionRecord(b.manifest.metadata.name, auditPrivacy)]
      ensures hasStore ==> |events| == |old(events)| + 1 && events[..|old(events)|] == old(events)
      ensures hasStore ==> AuditOf(events[|events| - 1], b, invocationId, event, auditPrivacy)
    {
      if !hasStore {
        return;
      }
      sessions := sessions[b.sessionId := SessionRecord(b.manifest.metadata.name, auditPrivacy)];
      var payload := AuditPayload(b.manifest.metadata.name, invocationId, event.data);
      events := events + [StoredEvent(b.sessionId, b.manifest.metadata.name, event.eventType, payload, auditPrivacy)];
    }

    /**
     * `invoke` after the runtime is created: load the module (`instantiateError` is the
     * outcome of reading and instantiating it), record `skill.invoke.start`, run the entry
     * point (`invokeError` is its outcome) and record `skill.invoke.error` or
     * `skill.invoke.complete`. Audits raised by host calls during the run are not shown.
     */
    method Invoke(b: Binding, instantiateError: Option<string>, invokeError: Option<string>,
                  invocationId: string, msg: Delivery, durationMs: int) returns (err: Option<string>)
      modifies this
      ensures skills == old(skills)
      ensures var loaded := SkillsRuntime.Load(ModuleManifest(b), instantiateError);
        loaded.Err? ==> err == Some("load skill: " + loaded.message) && events == old(events) && sessions == old(sessions)
      ensures b.manifest.runtime.mode != "wasm" || instantiateError.Some? ==> err.Some?
      ensures err.None? <==> b.manifest.runtime.mode == "wasm" && instantiateError.None? && invokeError.None?
      ensures b.manifest.runtime.mode == "wasm" && instantiateError.None? ==> err == invokeError
      ensures hasStore && b.manifest.runtime.mode == "wasm" && instantiateError.None? ==>
        && |events| == |old(events)| + 2
        && events[..|old(events)|] == old(events)
        && AuditOf(events[|old(events)|], b, invocationId, StartEvent(msg), auditPrivacy)
        && AuditOf(events[|old(events)| + 1], b, invocationId, EndEvent(invokeError, durationMs), auditPrivacy)
        && sessions == old(sessions)[b.sessionId := SessionRecord(b.manifest.metadata.name, auditPrivacy)]
      ensures !hasStore ==> events == old(events) && sessions == old(sessions)
    {
      var skill := SkillsRuntime.Load(ModuleManifest(b), instantiateError);
      if skill.Err? {
        return Some("load skill: " + skill.message);
      }
      AppendAudit(b, invocationId, StartEvent(msg));
      AppendAudit(b, invocationId, EndEvent(invokeError, durationMs));
      return invokeError;
    }
  }

  /**
   * `e` is the stored form of `event` for skill `b`: its session, the skill as actor, the
   * event type, the privacy scope, and the event's data merged with `invocation_id` and
   * `skill`, which never overwrite keys the event already set.
   */
  predicate AuditOf(e: StoredEvent, b: Binding, invocationId: string, event: SkillsRuntime.AuditEvent, privacy: string) {
    && e.sessionId == b.sessionId && e.actorId == b.manifest.metadata.name && e.eventType == event.eventType
    && e.privacy == privacy
    && e.payload.Keys == event.data.Keys + {"invocation_id", "skill"}
    && (forall k :: k in event.data ==> e.payload[k] == event.data[k])
    && ("invocation_id" !in event.data ==> e.payload["invocation_id"] == SkillsRuntime.JString(invocationId))
    && ("skill" !in event.data ==> e.payload["skill"] == SkillsRuntime.JString(b.manifest.metadata.name))
  }

  /** The manifest `invoke` hands to the runtime: the binding's, with the resolved module path. */
  function ModuleManifest(b: Binding): (m: Manifest.Manifest)
    ensures m.runtime.mode == b.manifest.runtime.mode && m.runtime.module_ == b.modulePath
  {
    b.manifest.(runtime := b.manifest.runtime.(module_ := b.modulePath))
  }

  /** `skill.invoke.start`, carrying the triggering subject. */
  function StartEvent(msg: Delivery): SkillsRuntime.AuditEvent {
    SkillsRuntime.AuditEvent("skill.invoke.start", map["subject" := SkillsRuntime.JString(msg.subject)])
  }

  /** `skill.invoke.error` with the run's error text, or `skill.invoke.complete` with its duration in milliseconds. */
  function EndEvent(invokeError: Option<string>, durationMs: int): SkillsRuntime.AuditEvent {
    if invokeError.Some? then
      SkillsRuntime.AuditEvent("skill.invoke.error", map["error" := SkillsRuntime.JString(invokeError.value)])
    else
      SkillsRuntime.AuditEvent("skill.invoke.complete", map["duration_ms" := SkillsRuntime.JInt(durationMs)])
  }

  /**
   * The payloads `invoke` records: the start event holds the subject, the end event the
   * error text or the duration, and both the invocation ID and the skill name.
   */
  lemma InvokeAuditPayloads(start: StoredEvent, end: StoredEvent, b: Binding, invocationId: string,
                            msg: Delivery, invokeError: Option<string>, durationMs: int, privacy: string)
    requires AuditOf(start, b, invocationId, StartEvent(msg), privacy)
    requires AuditOf(end, b, invocationId, EndEvent(invokeError, durationMs), privacy)
    ensures start.payload == map["subject" := SkillsRuntime.JString(msg.subject),
      "invocation_id" := SkillsRuntime.JString(invocationId), "skill" := SkillsRuntime.JString(b.manifest.metadata.name)]
    ensures invokeError.Some? ==>
      && end.eventType == "skill.invoke.error"
      && end.payload == map["error" := SkillsRuntime.JString(invokeError.value),
           "invocation_id" := SkillsRuntime.JString(invocationId), "skill" := SkillsRuntime.JString(b.manifest.metadata.name)]
    ensures invokeError.None? ==>
      && end.eventType == "skill.invoke.complete"
      && end.payload == map["duration_ms" := SkillsRuntime.JInt(durationMs),
           "invocation_id" := SkillsRuntime.JString(invocationId), "skill" := SkillsRuntime.JString(b.manifest.metadata.name)]
  {
    assert start.payload["subject"] == SkillsRuntime.JString(msg.subject);
    if invokeError.Some? {
      assert end.payload["error"] == SkillsRuntime.JString(invokeError.value);
    } else {
      assert end.payload["duration_ms"] == SkillsRuntime.JInt(durationMs);
    }
  }

  /** A registered skill may publish exactly the subjects its manifest declares, and only with `bus:publish`. */
  lemma AllowPublishMatchesManifest(b: Binding, m: Manifest.Manifest, subject: string)
    requires b.manifest == m
    requires forall s :: s in b.publishSet <==> s in m.capabilities.bus.publish
    requires forall p :: p in b.permissions <==> p in m.permissions
    ensures AllowPublish(b, subject).None? <==> "bus:publish" in m.permissions && subject in m.capabilities.bus.publish
  {
  }

  /** The last `/` of `dir + "/" + file`, when `file` holds none, is the one just added. */
  lemma {:induction false} AfterLastSlashJoined(dir: string, file: string)
    requires forall i :: 0 <= i < |file| ==> file[i] != '/'
    ensures AfterLastSlash(dir + "/" + file) == |dir| + 1
  {
    if file != [] {
      var p := dir + "/" + file;
      assert p[..|p| - 1] == dir + "/" + file[..|file| - 1];
      AfterLastSlashJoined(dir, file[..|file| - 1]);
    }
  }

  /**
   * For a manifest at `dir/file`: the directory is `dir`, the file name is `file`, and a
   * relative module path lands under `dir` while an absolute one is kept.
   */
  lemma ManifestInDirectory(dir: string, file: string, module_: string)
    requires dir != ""
    requires forall i :: 0 <= i < |file| ==> file[i] != '/'
    ensures Dir(dir + "/" + file) == dir
    ensures Base(dir + "/" + file) == file
    ensures !IsAbs(module_) && module_ != "" ==> ResolveModule(dir + "/" + file, module_) == dir + "/" + module_
    ensures IsAbs(module_) ==> ResolveModule(dir + "/" + file, module_) == module_
  {
    AfterLastSlashJoined(dir, file);
    assert (dir + "/" + file)[..|dir|] == dir;
    assert (dir + "/" + file)[|dir| + 1..] == file;
  }
}
