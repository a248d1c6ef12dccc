/**
 * The skill runtime's host interface (`internal/skills/runtime/runtime.go`): the host
 * bindings with their defaults, the `host_publish` and `host_log` functions a skill
 * module imports, their result codes, and the runtime-mode check of `Load`. The module's
 * linear memory is a byte sequence (`None` when the module exports none); a read of `n`
 * bytes at `p` succeeds exactly when `p + n` is within it. The callbacks are total
 * functions returning an error message or `None`.
 */
module SkillsRuntime {
  import opened Wrappers
  import opened Bytes
  import Manifest
  import Quoting

  const PublishOK: int := 0
  const PublishErrNotAllowed: int := 1
  const PublishErrRuntime: int := 2

  /** The values audit event data can hold (Go's `any` in `map[string]any`). */
  datatype JsonValue = JString(s: string) | JInt(i: int) | JBool(b: bool)

  datatype AuditEvent = AuditEvent(eventType: string, data: map<string, JsonValue>)

  /** `HostBindings`: optional callbacks, and whether an audit recorder is present. */
  datatype HostBindings = HostBindings(
    allowPublish: Option<string -> Option<string>>,
    publish: Option<(string, seq<byte>) -> Option<string>>,
    recordsAudit: bool)

  /** `ensure`: a missing permission check or publisher is replaced by one that always fails. */
  function Ensure(h: HostBindings): (r: HostBindings)
    ensures r.allowPublish.Some? && r.publish.Some? && r.recordsAudit == h.recordsAudit
    ensures h.allowPublish.Some? ==> forall s :: r.allowPublish.value(s) == h.allowPublish.value(s)
    ensures h.allowPublish.None? ==> forall s :: r.allowPublish.value(s) == Some("publish disallowed")
    ensures h.publish.Some? ==> forall s, p :: r.publish.value(s, p) == h.publish.value(s, p)
    ensures h.publish.None? ==> forall s, p :: r.publish.value(s, p) == Some("publish unsupported")
  {
    var allow := if h.allowPublish.Some? then h.allowPublish else Some((_: string) => Some("publish disallowed"));
    var publish := if h.publish.Some? then h.publish else Some((_: string, _: seq<byte>) => Some("publish unsupported"));
    h.(allowPublish := allow, publish := publish)
  }

  /** `api.DecodeU32`: the low 32 bits of a stack value. */
  function DecodeU32(x: int): (v: nat)
    ensures v < 0x1_0000_0000
  {
    x % 0x1_0000_0000
  }

  /** `mem.Read(ptr, length)`. */
  function Read(memory: seq<byte>, ptr: nat, length: nat): (r: Option<seq<byte>>)
    ensures r.Some? <==> ptr + length <= |memory|
    ensures r.Some? ==> |r.value| == length && forall i :: 0 <= i < length ==> r.value[i] == memory[ptr + i]
  {
    if ptr + length <= |memory| then Some(memory[ptr..ptr + length]) else None
  }

  /** `string(bytes)`, one character per byte (no UTF-8 decoding). */
  function BytesToString(b: seq<byte>): (s: string)
    ensures |s| == |b|
  {
    seq(|b|, i requires 0 <= i < |b| => b[i] as char)
  }

  datatype Message = Message(subject: string, payload: seq<byte>)

  /** What one `host_publish` call does: the code it writes, the message it publishes, the audit it records. */
  datatype PublishOutcome = PublishOutcome(code: int, published: Option<Message>, audit: Option<AuditEvent>)

  /**
   * The decision ladder of `host_publish` on decoded arguments: no memory or an
   * unreadable subject is a runtime error; a subject the permission check rejects is not
   * allowed (before the payload is read); an unreadable payload, a missing publisher or a
   * failed publish is a runtime error; otherwise the message is published, a
   * `skill.publish` audit recorded, and the code is OK. A zero-length payload is empty
   * and not read.
   */
  function PublishDecision(h: HostBindings, memory: Option<seq<byte>>,
                           subjectPtr: nat, subjectLen: nat, payloadPtr: nat, payloadLen: nat): (out: PublishOutcome)
    ensures out.code in {PublishOK, PublishErrNotAllowed, PublishErrRuntime}
    ensures out.code != PublishOK ==> out.published.None? && out.audit.None?
  {
    if memory.None? then PublishOutcome(PublishErrRuntime, None, None)
    else
      match Read(memory.value, subjectPtr, subjectLen)
      case None => PublishOutcome(PublishErrRuntime, None, None)
      case Some(subjectBytes) =>
        var subject := BytesToString(subjectBytes);
        if h.allowPublish.Some? && h.allowPublish.value(subject).Some? then
          PublishOutcome(PublishErrNotAllowed, None, None)
        else
          var payload := if payloadLen > 0 then Read(memory.value, payloadPtr, payloadLen) else Some([]);
          if payload.None? then PublishOutcome(PublishErrRuntime, None, None)
          else if h.publish.None? then PublishOutcome(PublishErrRuntime, None, None)
          else if h.publish.value(subject, payload.value).Some? then PublishOutcome(PublishErrRuntime, None, None)
          else
            var audit := if h.recordsAudit
              then Some(AuditEvent("skill.publish", map["subject" := JString(subject), "payload_bytes" := JInt(payloadLen)]))
              else None;
            PublishOutcome(PublishOK, Some(Message(subject, payload.value)), audit)
  }

  /** The subject a call names, when memory exists and the subject is readable. */
  function SubjectAt(memory: seq<byte>, subjectPtr: nat, subjectLen: nat): string
    requires subjectPtr + subjectLen <= |memory|
  {
    BytesToString(memory[subjectPtr..subjectPtr + subjectLen])
  }

  /**
   * Not allowed exactly when memory and subject are readable and the permission check
   * rejects the subject, whatever the payload arguments are: the payload is not read then.
   */
  lemma NotAllowedExactly(h: HostBindings, memory: Option<seq<byte>>,
                          subjectPtr: nat, subjectLen: nat, payloadPtr: nat, payloadLen: nat, otherPtr: nat, otherLen: nat)
    ensures PublishDecision(h, memory, subjectPtr, subjectLen, payloadPtr, payloadLen).code == PublishErrNotAllowed <==>
      memory.Some? && subjectPtr + subjectLen <= |memory.value| &&
      h.allowPublish.Some? && h.allowPublish.value(SubjectAt(memory.value, subjectPtr, subjectLen)).Some?
    ensures PublishDecision(h, memory, subjectPtr, subjectLen, payloadPtr, payloadLen).code == PublishErrNotAllowed ==>
      PublishDecision(h, memory, subjectPtr, subjectLen, otherPtr, otherLen).code == PublishErrNotAllowed
  {
  }

  /**
   * OK exactly when the subject is readable and permitted, the payload readable (or
   * empty), and the publisher exists and succeeds; then exactly the message and, with a
   * recorder, one `skill.publish` audit with the subject and payload length.
   */
  lemma PublishOkExactly(h: HostBindings, memory: Option<seq<byte>>,
                         subjectPtr: nat, subjectLen: nat, payloadPtr: nat, payloadLen: nat)
    ensures var out := PublishDecision(h, memory, subjectPtr, subjectLen, payloadPtr, payloadLen);
      out.code == PublishOK <==>
        && memory.Some? && subjectPtr + subjectLen <= |memory.value|
        && (h.allowPublish.None? || h.allowPublish.value(SubjectAt(memory.value, subjectPtr, subjectLen)).None?)
        && (payloadLen == 0 || payloadPtr + payloadLen <= |memory.value|)
        && h.publish.Some?
        && h.publish.value(SubjectAt(memory.value, subjectPtr, subjectLen),
             if payloadLen == 0 then [] else memory.value[payloadPtr..payloadPtr + payloadLen]).None?
    ensures var out := PublishDecision(h, memory, subjectPtr, subjectLen, payloadPtr, payloadLen);
      out.code == PublishOK ==>
        out.published == Some(Message(SubjectAt(memory.value, subjectPtr, subjectLen),
                                      if payloadLen == 0 then [] else memory.value[payloadPtr..payloadPtr + payloadLen])) &&
        (out.audit.Some? <==> h.recordsAudit) &&
        (out.audit.Some? ==> out.audit.value == AuditEvent("skill.publish",
          map["subject" := JString(SubjectAt(memory.value, subjectPtr, subjectLen)), "payload_bytes" := JInt(payloadLen)]))
  {
  }

  /** With default bindings (`HostBindings{}` made safe by `ensure`), every readable subject is refused. */
  lemma DefaultBindingsRefuse(memory: seq<byte>, subjectPtr: nat, subjectLen: nat, payloadPtr: nat, payloadLen: nat)
    requires subjectPtr + subjectLen <= |memory|
    ensures PublishDecision(Ensure(HostBindings(None, None, false)), Some(memory),
                            subjectPtr, subjectLen, payloadPtr, payloadLen).code == PublishErrNotAllowed
  {
    var subject := SubjectAt(memory, subjectPtr, subjectLen);
    assert Ensure(HostBindings(None, None, false)).allowPublish.value(subject) == Some("publish disallowed");
  }

  /**
   * `host_publish` as the module calls it: with fewer than four stack values nothing
   * happens; otherwise the four arguments are decoded, the decision taken and its code
   * written to `stack[0]`.
   */
  method HostPublish(h: HostBindings, memory: Option<seq<byte>>, stack: array<int>)
    returns (published: Option<Message>, audit: Option<AuditEvent>)
    modifies stack
    ensures stack.Length < 4 ==> published.None? && audit.None? && stack[..] == old(stack[..])
    ensures stack.Length >= 4 ==>
      var out := PublishDecision(h, memory, DecodeU32(old(stack[0])), DecodeU32(old(stack[1])),
                                 DecodeU32(old(stack[2])), DecodeU32(old(stack[3])));
      stack[0] == out.code && stack[1..] == old(stack[1..]) &&
      published == out.published && audit == out.audit
  {
    if stack.Length < 4 {
      return None, None;
    }
    var subjectPtr, subjectLen := DecodeU32(stack[0]), DecodeU32(stack[1]);
    var payloadPtr, payloadLen := DecodeU32(stack[2]), DecodeU32(stack[3]);
    var out := PublishDecision(h, memory, subjectPtr, subjectLen, payloadPtr, payloadLen);
    stack[0] := out.code;
    return out.published, out.audit;
  }

  /**
   * `host_log`: fewer than two stack values, a zero length, no memory or an unreadable
   * message do nothing; a readable message becomes one `skill.log` audit when a recorder
   * is present.
   */
  function HostLog(h: HostBindings, memory: Option<seq<byte>>, stack: seq<int>): (audit: Option<AuditEvent>)
    ensures audit.Some? ==> h.recordsAudit && |stack| >= 2 && DecodeU32(stack[1]) > 0 && memory.Some?
    ensures audit.Some? <==>
      h.recordsAudit && |stack| >= 2 && DecodeU32(stack[1]) > 0 && memory.Some? &&
      DecodeU32(stack[0]) + DecodeU32(stack[1]) <= |memory.value|
    ensures audit.Some? ==> audit.value == AuditEvent("skill.log", map["message" :=
      JString(BytesToString(memory.value[DecodeU32(stack[0])..DecodeU32(stack[0]) + DecodeU32(stack[1])]))])
  {
    if |stack| < 2 then None
    else
      var ptr, length := DecodeU32(stack[0]), DecodeU32(stack[1]);
      if length == 0 || memory.None? then None
      else
        match Read(memory.value, ptr, length)
        case None => None
        case Some(data) =>
          if h.recordsAudit then Some(AuditEvent("skill.log", map["message" := JString(BytesToString(data))])) else None
  }

  /** Memory offsets and lengths are read modulo 2^32: the upper half of a stack value is ignored. */
  lemma HostLogIgnoresHighBits(h: HostBindings, memory: Option<seq<byte>>, ptr: int, length: int)
    ensures HostLog(h, memory, [ptr + 0x1_0000_0000, length + 0x1_0000_0000]) == HostLog(h, memory, [ptr, length])
  {
    assert DecodeU32(ptr + 0x1_0000_0000) == DecodeU32(ptr);
    assert DecodeU32(length + 0x1_0000_0000) == DecodeU32(length);
  }

  /** A loaded skill: its manifest, ready to invoke. */
  datatype Skill = Skill(manifest: Manifest.Manifest)

  /**
   * `Load`: a runtime mode other than `wasm` is refused before anything is read; otherwise
   * the outcome of reading, compiling and instantiating the module and finding the entry
   * point (`instantiateError`) decides.
   */
  function Load(m: Manifest.Manifest, instantiateError: Option<string>): (r: Result<Skill>)
    ensures m.runtime.mode != "wasm" ==> r == Err("unsupported runtime mode " + Quoting.Quote(m.runtime.mode))
    ensures r.Ok? <==> m.runtime.mode == "wasm" && instantiateError.None?
    ensures r.Ok? ==> r.value.manifest == m
  {
    if m.runtime.mode != "wasm" then Err("unsupported runtime mode " + Quoting.Quote(m.runtime.mode))
    else if instantiateError.Some? then Err(instantiateError.value)
    else Ok(Skill(m))
  }
}
