/**
 * The recogniser result (`internal/stt/recognizer.go`) and the deterministic mock
 * recogniser (`internal/stt/mock_recognizer.go`), which describes the audio it was given
 * instead of recognising it.
 */
module SttRecognizer {
  import opened Wrappers
  import opened Bytes
  import Decimal

  datatype TranscriptResult = TranscriptResult(text: string, confidence: real)

  function MockPrefix(final: bool): string {
    if final then "[final transcript length=" else "[partial transcript length="
  }

  /**
   * `mockRecognizer.Transcribe`: `"[final transcript length=N]"` or
   * `"[partial transcript length=N]"` with `N` the number of PCM bytes, confidence 0.
   * Sample rate and channels are ignored and it never fails, so neither is a parameter.
   */
  function MockTranscribe(pcm: seq<byte>, final: bool): (r: TranscriptResult)
    ensures r.confidence == 0.0
    ensures |r.text| > |MockPrefix(final)| + 1
    ensures r.text[..|MockPrefix(final)|] == MockPrefix(final) && r.text[|r.text| - 1] == ']'
  {
    TranscriptResult(MockPrefix(final) + Decimal.NatToString(|pcm|) + "]", 0.0)
  }

  /** The number in the mock text reads back as the PCM length (a Go slice length fits an `int`). */
  lemma MockLengthReadable(pcm: seq<byte>, final: bool)
    requires |pcm| <= Decimal.MaxInt64
    ensures var text := MockTranscribe(pcm, final).text;
      Decimal.Atoi(text[|MockPrefix(final)|..|text| - 1]) == Some(|pcm|)
  {
    var text := MockTranscribe(pcm, final).text;
    var digits := Decimal.NatToString(|pcm|);
    assert text[|MockPrefix(final)|..|text| - 1] == digits;
    Decimal.AtoiIntToString(|pcm|);
  }

  /** Partial and final results on the same audio differ only in the mode word. */
  lemma MockModeOnly(pcm: seq<byte>, other: seq<byte>)
    requires |pcm| == |other|
    ensures MockTranscribe(pcm, true) == MockTranscribe(other, true)
    ensures MockTranscribe(pcm, false) == MockTranscribe(other, false)
    ensures MockTranscribe(pcm, true) != MockTranscribe(pcm, false)
  {
    var a, b := MockTranscribe(pcm, true).text, MockTranscribe(pcm, false).text;
    assert a[1] == 'f' && b[1] == 'p';
  }
}
