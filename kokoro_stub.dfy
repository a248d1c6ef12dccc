/**
 * The development speech-synthesis stub (`tts/kokoro_stub.py`): one JSON request in, a
 * buffer of silence whose length depends only on the text length out, base64-encoded.
 */
module KokoroStub {
  import opened Wrappers
  import opened Bytes
  import Base64

  const DefaultSampleRate: int := 22050
  const DefaultChannels: int := 1

  /** The request fields, already coerced to integers and text; `None` when the key is absent. */
  datatype Payload = Payload(sampleRate: Option<int>, channels: Option<int>, text: Option<string>)

  /** Standard input: either not JSON at all (with the decoder's message) or a decoded object. */
  datatype Input = NotJson(decodeError: string) | Json(payload: Payload)

  /**
   * What the process does: print a response and exit 0, print `{"error": ...}` to standard
   * error and exit 1, or fail with an uncaught Python exception.
   */
  datatype Outcome =
    | Response(pcmBase64: string, final: bool)
    | Failure(status: int, error: string)
    | Uncaught(reason: string)

  /** Seconds of audio: `len(text) / 50`, clamped to the interval from 0.2 to 1.0. */
  function Duration(textLength: nat): (d: real)
    ensures 0.2 <= d <= 1.0
    ensures textLength <= 10 ==> d == 0.2
    ensures textLength >= 50 ==> d == 1.0
    ensures 10 <= textLength <= 50 ==> d == textLength as real / 50.0
  {
    var scaled := textLength as real / 50.0;
    var capped := if scaled < 1.0 then scaled else 1.0;
    if capped > 0.2 then capped else 0.2
  }

  /** Longer text never gives shorter audio. */
  lemma DurationMonotone(a: nat, b: nat)
    requires a <= b
    ensures Duration(a) <= Duration(b)
  {
    if 10 <= a <= 50 && 10 <= b <= 50 {
      assert a as real / 50.0 <= b as real / 50.0;
    }
  }

  /** Python's `int()` on a number: truncation toward zero. */
  function TruncateTowardZero(x: real): (n: int)
    ensures x >= 0.0 ==> n as real <= x < n as real + 1.0
    ensures x < 0.0 ==> n as real - 1.0 < x <= n as real
  {
    if x >= 0.0 then x.Floor else -((-x).Floor)
  }

  /** `int(sample_rate * duration_sec)`. */
  function FrameCount(sampleRate: int, textLength: nat): int {
    TruncateTowardZero(sampleRate as real * Duration(textLength))
  }

  function BufferLength(sampleRate: int, channels: int, textLength: nat): int {
    FrameCount(sampleRate, textLength) * channels * 2
  }

  /**
   * `main`: undecodable input fails with status 1; otherwise the defaults fill the missing
   * keys and the response carries the base64 text of `frame_count * channels * 2` zero
   * bytes with `final` set. A negative size makes `bytearray` raise.
   */
  function Synthesize(input: Input): (out: Outcome)
    ensures input.NotJson? <==> out.Failure?
    ensures out.Failure? ==> out.status == 1
    ensures out.Response? ==> out.final
  {
    match input
    case NotJson(message) => Failure(1, message)
    case Json(payload) =>
      var sampleRate := payload.sampleRate.GetOr(DefaultSampleRate);
      var channels := payload.channels.GetOr(DefaultChannels);
      var size := BufferLength(sampleRate, channels, |payload.text.GetOr("")|);
      if size < 0 then Uncaught("negative count")
      else Response(Base64.Encode(Zeros(size)), true)
  }

  /** The response decodes (section 4 of RFC 4648) to exactly `frame_count * channels * 2` zero bytes. */
  lemma ResponseDecodesToSilence(p: Payload)
    requires Synthesize(Json(p)).Response?
    ensures var size := BufferLength(p.sampleRate.GetOr(DefaultSampleRate), p.channels.GetOr(DefaultChannels), |p.text.GetOr("")|);
      size >= 0 &&
      Base64.Decode(Synthesize(Json(p)).pcmBase64) == Some(Zeros(size))
  {
    var size := BufferLength(p.sampleRate.GetOr(DefaultSampleRate), p.channels.GetOr(DefaultChannels), |p.text.GetOr("")|);
    Base64.DecodeEncode(Zeros(size));
  }

  /** With every key missing the stub behaves as for a 22050 Hz mono request with empty text. */
  lemma DefaultsApply()
    ensures Synthesize(Json(Payload(None, None, None))) == Synthesize(Json(Payload(Some(22050), Some(1), Some(""))))
  {
  }

  /** The text matters only through its length. */
  lemma OnlyLengthMatters(p: Payload, text: string)
    requires |text| == |p.text.GetOr("")|
    ensures Synthesize(Json(p.(text := Some(text)))) == Synthesize(Json(p))
  {
  }

  /** "hi" at the defaults: 0.2 s, 4410 frames, 8820 zero bytes. */
  lemma HiExample()
    ensures FrameCount(22050, 2) == 4410
    ensures BufferLength(22050, 1, 2) == 8820
    ensures Synthesize(Json(Payload(None, None, Some("hi")))) == Response(Base64.Encode(Zeros(8820)), true)
  {
  }

  /** Duration scale points: no text is 0.2 s, 25 characters 0.5 s, 500 characters 1.0 s. */
  lemma DurationExamples()
    ensures Duration(0) == 0.2 && Duration(25) == 0.5 && Duration(50) == 1.0 && Duration(500) == 1.0
  {
  }
}
