/**
 * The example smart-home skill (`skills/examples/smart-home/src/main.go`): its `run`
 * entry point reads its environment, checks the intent it was given, logs what it would
 * send to Home Assistant and publishes a status message. The host calls it makes are the
 * result; decoding the intent from JSON is done by the caller, and the objects the skill
 * encodes as JSON stay objects (string maps).
 */
module SmartHome {
  import opened Wrappers

  const DefaultEndpoint: string := "http://localhost:8123"
  const StatusSubject: string := "skill.home.status"

  /** `intent`. */
  datatype Intent = Intent(room: string, device: string, action: string, payload: string)

  /** The lines the skill logs; `LineText` gives each one's text. */
  datatype LogLine =
    | Initialized
    | DefaultEndpointUsed
    | TokenMissing
    | NoIntent
    | ParseFailed(error: string)
    | FieldsMissing
    | WouldCall(endpoint: string)
    | TokenPresent(present: bool)
    | RequestBodyLine(body: map<string, string>)

  /**
   * The text of a log line. A request body stays an object: its JSON encoding is not part
   * of this model, so its line is the prefix alone.
   */
  function LineText(line: LogLine): string {
    match line
    case Initialized => "smart-home bridge skill initialized"
    case DefaultEndpointUsed => "HOMEASSISTANT_URL not set; using http://localhost:8123"
    case TokenMissing => "HOMEASSISTANT_TOKEN not provided; requests will fail against a real instance"
    case NoIntent => "no intent supplied; set LOQA_EVENT_PAYLOAD to test locally"
    case ParseFailed(error) => "failed to parse intent: " + error
    case FieldsMissing => "intent missing required fields: action/device"
    case WouldCall(endpoint) => "would call Home Assistant at " + endpoint
    case TokenPresent(present) => "authorization token present: " + BoolText(present)
    case RequestBodyLine(_) => "request body: "
  }

  /** A call into the host: a log line or a publication of an object. */
  datatype HostCall =
    | Log(line: LogLine)
    | Publish(subject: string, object: map<string, string>)

  /** What `os.Getenv` returns for the three variables the skill reads (empty when unset). */
  datatype Environment = Environment(url: string, token: string, eventPayload: string)

  /** `boolText`. */
  function BoolText(v: bool): (text: string)
    ensures text == "yes" <==> v
    ensures text == "no" <==> !v
  {
    if v then "yes" else "no"
  }

  /** `sendStatus`'s object: device, action, room and the fixed state, plus the payload only when non-empty. */
  function StatusObject(st: Intent): (status: map<string, string>)
    ensures status.Keys == {"device", "action", "room", "state"} + (if st.payload != "" then {"payload"} else {})
    ensures status["device"] == st.device && status["action"] == st.action && status["room"] == st.room
    ensures status["state"] == "forwarded"
    ensures "payload" in status ==> status["payload"] == st.payload
  {
    var status := map["device" := st.device, "action" := st.action, "room" := st.room, "state" := "forwarded"];
    if st.payload != "" then status["payload" := st.payload] else status
  }

  /** The request body the skill would send: the entity (the device), the room and the payload. */
  function RequestBody(cmd: Intent): map<string, string> {
    map["entity_id" := cmd.device, "room" := cmd.room, "payload" := cmd.payload]
  }

  /** The log lines before the intent is looked at, and the endpoint chosen. */
  function Prologue(env: Environment): (r: (seq<HostCall>, string))
    ensures r.1 == (if env.url == "" then DefaultEndpoint else env.url)
    ensures |r.0| == 1 + (if env.url == "" then 1 else 0) + (if env.token == "" then 1 else 0)
    ensures r.0[0] == Log(Initialized)
    ensures forall i :: 0 <= i < |r.0| ==> r.0[i].Log?
  {
    var endpointLogs := if env.url == "" then [Log(DefaultEndpointUsed)] else [];
    var tokenLogs :=
      if env.token == "" then [Log(TokenMissing)] else [];
    ([Log(Initialized)] + endpointLogs + tokenLogs,
     if env.url == "" then DefaultEndpoint else env.url)
  }

  /** The calls made once the intent is looked at. */
  function Handle(env: Environment, endpoint: string, decoded: Result<Intent>): (calls: seq<HostCall>)
    ensures |calls| >= 1
    ensures forall i :: 0 <= i < |calls| - 1 ==> !calls[i].Publish?
    ensures calls[|calls| - 1].Publish? <==> Actionable(env, decoded)
    ensures Actionable(env, decoded) ==> calls[|calls| - 1] == Publish(StatusSubject, StatusObject(decoded.value))
  {
    if env.eventPayload == "" then [Log(NoIntent)]
    else if decoded.Err? then [Log(ParseFailed(decoded.message))]
    else if decoded.value.action == "" || decoded.value.device == "" then
      [Log(FieldsMissing)]
    else
      var cmd := decoded.value;
      [Log(WouldCall(endpoint)),
       Log(TokenPresent(env.token != "")),
       Log(RequestBodyLine(RequestBody(cmd))),
       Publish(StatusSubject, StatusObject(cmd))]
  }

  /**
   * `run`. `decoded` is the JSON decoding of `LOQA_EVENT_PAYLOAD`, used only when that
   * variable is non-empty. The skill always logs its start; it falls back to the default
   * endpoint (saying so) when `HOMEASSISTANT_URL` is empty; it warns when the token is
   * empty; it stops after a log line when there is no payload, the payload does not
   * decode, or the action or device is missing; otherwise it logs the endpoint, whether a
   * token is present and the body, then publishes the status.
   */
  function Run(env: Environment, decoded: Result<Intent>): (calls: seq<HostCall>)
    ensures |calls| >= 2 && calls[0] == Log(Initialized)
  {
    var (prologue, endpoint) := Prologue(env);
    prologue + Handle(env, endpoint, decoded)
  }

  /** The skill publishes exactly when it has a decodable intent naming an action and a device. */
  predicate Actionable(env: Environment, decoded: Result<Intent>) {
    env.eventPayload != "" && decoded.Ok? && decoded.value.action != "" && decoded.value.device != ""
  }

  /**
   * At most one publication, on the status subject, and only as the last call; there is
   * one exactly when the intent is actionable, and it carries that intent's status.
   */
  lemma PublishesOnlyActionable(env: Environment, decoded: Result<Intent>)
    ensures var calls := Run(env, decoded);
      forall i :: 0 <= i < |calls| - 1 ==> !calls[i].Publish?
    ensures var calls := Run(env, decoded);
      calls[|calls| - 1].Publish? <==> Actionable(env, decoded)
    ensures var calls := Run(env, decoded);
      Actionable(env, decoded) ==> calls[|calls| - 1] == Publish(StatusSubject, StatusObject(decoded.value))
  {
    var (prologue, endpoint) := Prologue(env);
    var rest := Handle(env, endpoint, decoded);
    var calls := Run(env, decoded);
    assert calls == prologue + rest;
    assert calls[|calls| - 1] == rest[|rest| - 1];
    forall i | 0 <= i < |calls| - 1
      ensures !calls[i].Publish?
    {
      if i < |prologue| {
        assert calls[i] == prologue[i];
      } else {
        assert calls[i] == rest[i - |prologue|];
      }
    }
  }

  /** The endpoint used is the configured one, or the default when none is set. */
  lemma EndpointLogged(env: Environment, cmd: Intent)
    requires Actionable(env, Ok(cmd))
    ensures Log(WouldCall(if env.url == "" then DefaultEndpoint else env.url)) in Run(env, Ok(cmd))
  {
    var (prologue, endpoint) := Prologue(env);
    assert Run(env, Ok(cmd))[|prologue|] == Handle(env, endpoint, Ok(cmd))[0];
  }

  /** The token's value never reaches a host call: only whether it is empty matters. */
  lemma TokenNeverLeaks(env: Environment, decoded: Result<Intent>, t1: string, t2: string)
    requires t1 != "" && t2 != ""
    ensures Run(env.(token := t1), decoded) == Run(env.(token := t2), decoded)
  {
  }

  /** An empty environment: start, default endpoint, missing token, no intent. */
  lemma EmptyEnvironment(decoded: Result<Intent>)
    ensures Run(Environment("", "", ""), decoded) == [
      Log(Initialized),
      Log(DefaultEndpointUsed),
      Log(TokenMissing),
      Log(NoIntent)]
  {
  }
}
