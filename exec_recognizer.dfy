/**
 * The external-command recogniser (`internal/stt/exec_recognizer.go`): the command
 * words checked at construction, the PCM payload decoded into signed 16-bit
 * little-endian samples for the WAV file, and the argument list handed to the command.
 * Parsing the command line, writing the WAV container and running the process are the
 * caller's: their outcomes arrive as parameters.
 */
module ExecRecognizer {
  import opened Wrappers
  import opened Bytes
  import Config
  import SttRecognizer

  /** The values a signed 16-bit sample can take. */
  predicate IsInt16(v: int) {
    -0x8000 <= v < 0x8000
  }

  /** `int(int16(binary.LittleEndian.Uint16(...)))`: low byte first, high bit as sign. */
  function Sample(low: byte, high: byte): (v: int)
    ensures IsInt16(v)
    ensures v >= 0 <==> high < 0x80
  {
    var unsigned := low + 0x100 * high;
    if unsigned >= 0x8000 then unsigned - 0x1_0000 else unsigned
  }

  /** The two bytes, low then high, of a sample in two's complement. */
  function SampleBytes(v: int): (b: seq<byte>)
    requires IsInt16(v)
    ensures |b| == 2
  {
    var unsigned := if v < 0 then v + 0x1_0000 else v;
    [unsigned % 0x100, unsigned / 0x100]
  }

  lemma SampleBytesInverse(v: int)
    requires IsInt16(v)
    ensures Sample(SampleBytes(v)[0], SampleBytes(v)[1]) == v
  {
  }

  lemma SampleInverse(low: byte, high: byte)
    ensures SampleBytes(Sample(low, high)) == [low, high]
  {
  }

  /** The samples of an aligned payload: sample `i` is made of bytes `2i` and `2i + 1`. */
  function Samples(pcm: seq<byte>): (samples: seq<int>)
    requires |pcm| % 2 == 0
    ensures |samples| == |pcm| / 2
    ensures forall i :: 0 <= i < |samples| ==> samples[i] == Sample(pcm[2 * i], pcm[2 * i + 1])
  {
    seq(|pcm| / 2, i requires 0 <= i < |pcm| / 2 => Sample(pcm[2 * i], pcm[2 * i + 1]))
  }

  /** Samples written back as 16-bit little-endian bytes. */
  function EncodeSamples(samples: seq<int>): (pcm: seq<byte>)
    requires forall i :: 0 <= i < |samples| ==> IsInt16(samples[i])
    ensures |pcm| == 2 * |samples|
  {
    if samples == [] then [] else SampleBytes(samples[0]) + EncodeSamples(samples[1..])
  }

  /** The first byte pair gives the first sample; the rest give the rest. */
  lemma SamplesCons(low: byte, high: byte, rest: seq<byte>)
    requires |rest| % 2 == 0
    ensures Samples([low, high] + rest) == [Sample(low, high)] + Samples(rest)
  {
    var pcm := [low, high] + rest;
    forall i | 1 <= i < |pcm| / 2
      ensures Samples(pcm)[i] == Samples(rest)[i - 1]
    {
      assert pcm[2 * i] == rest[2 * (i - 1)] && pcm[2 * i + 1] == rest[2 * (i - 1) + 1];
    }
  }

  lemma EncodeSamplesCons(samples: seq<int>)
    requires samples != [] && forall i :: 0 <= i < |samples| ==> IsInt16(samples[i])
    ensures EncodeSamples(samples) == SampleBytes(samples[0]) + EncodeSamples(samples[1..])
  {
  }

  /** Re-encoding the decoded samples gives back the original payload. */
  lemma {:induction false} EncodeSamplesOfPcm(pcm: seq<byte>)
    requires |pcm| % 2 == 0
    ensures EncodeSamples(Samples(pcm)) == pcm
  {
    if pcm != [] {
      var rest := pcm[2..];
      assert pcm == [pcm[0], pcm[1]] + rest;
      SamplesCons(pcm[0], pcm[1], rest);
      var samples := Samples(pcm);
      assert samples[0] == Sample(pcm[0], pcm[1]) && samples[1..] == Samples(rest);
      EncodeSamplesCons(samples);
      SampleInverse(pcm[0], pcm[1]);
      EncodeSamplesOfPcm(rest);
    }
  }

  /** Decoding an encoding gives back the samples. */
  lemma {:induction false} SamplesOfEncoding(samples: seq<int>)
    requires forall i :: 0 <= i < |samples| ==> IsInt16(samples[i])
    ensures Samples(EncodeSamples(samples)) == samples
  {
    if samples != [] {
      EncodeSamplesCons(samples);
      var b := SampleBytes(samples[0]);
      var rest := EncodeSamples(samples[1..]);
      assert b == [b[0], b[1]];
      SamplesCons(b[0], b[1], rest);
      SampleBytesInverse(samples[0]);
      SamplesOfEncoding(samples[1..]);
      assert samples == [samples[0]] + samples[1..];
    }
  }

  /**
   * The decoding loop of `writePCMToWav`: a payload of odd length is rejected as not
   * aligned; otherwise the sample array holds one signed sample per byte pair.
   */
  method DecodeSamples(pcm: seq<byte>) returns (r: Result<seq<int>>)
    ensures r.Ok? <==> |pcm| % 2 == 0
    ensures r.Err? ==> r.message == "pcm payload not aligned"
    ensures r.Ok? ==> r.value == Samples(pcm)
  {
    if |pcm| % 2 != 0 {
      return Err("pcm payload not aligned");
    }
    var samples := new int[|pcm| / 2];
    var i := 0;
    while i < samples.Length
      invariant 0 <= i <= samples.Length
      invariant forall j :: 0 <= j < i ==> samples[j] == Sample(pcm[2 * j], pcm[2 * j + 1])
    {
      samples[i] := Sample(pcm[2 * i], pcm[2 * i + 1]);
      i := i + 1;
    }
    return Ok(samples[..]);
  }

  /** A constructed recogniser: the parsed command words and the recognition settings. */
  datatype Recognizer = Recognizer(cmd: seq<string>, cfg: Config.SttConfig)

  /**
   * `NewExecRecognizer` given the outcome of parsing `cfg.command` into words: a parse
   * error or an empty word list is rejected.
   */
  function NewExecRecognizer(cfg: Config.SttConfig, words: Result<seq<string>>): (r: Result<Recognizer>)
    ensures r.Ok? <==> words.Ok? && |words.value| > 0
    ensures r.Ok? ==> r.value == Recognizer(words.value, cfg)
    ensures words.Ok? && words.value == [] ==> r == Err("stt command is empty")
  {
    match words
    case Err(message) => Err("parse stt command: " + message)
    case Ok(args) => if |args| == 0 then Err("stt command is empty") else Ok(Recognizer(args, cfg))
  }

  /** The program to start and the arguments to give it. */
  datatype Invocation = Invocation(program: string, args: seq<string>)

  /** Whether the `--partial` flag is passed: exec mode, interim results on, and not a final request. */
  predicate WantsPartial(cfg: Config.SttConfig, final: bool) {
    cfg.mode == "exec" && cfg.publishInterim && !final
  }

  /**
   * The arguments `Transcribe` gives the program: the words after the first, then
   * `--audio <file>`, then `--model` and `--language` when set, in that order, then
   * `--partial` when wanted.
   */
  function ExpectedArgs(r: Recognizer, audioPath: string, final: bool): seq<string>
    requires |r.cmd| > 0
  {
    r.cmd[1..] + ["--audio", audioPath]
    + (if r.cfg.modelPath != "" then ["--model", r.cfg.modelPath] else [])
    + (if r.cfg.language != "" then ["--language", r.cfg.language] else [])
    + (if WantsPartial(r.cfg, final) then ["--partial"] else [])
  }

  /** The argument construction of `Transcribe`, appending step by step. */
  method BuildInvocation(r: Recognizer, audioPath: string, final: bool) returns (inv: Result<Invocation>)
    ensures inv.Ok? <==> |r.cmd| > 0
    ensures inv.Err? ==> inv.message == "stt command empty"
    ensures inv.Ok? ==> inv.value == Invocation(r.cmd[0], ExpectedArgs(r, audioPath, final))
  {
    var args := r.cmd;
    if |args| == 0 {
      return Err("stt command empty");
    }
    var program := args[0];
    var cmdArgs := args[1..];
    cmdArgs := cmdArgs + ["--audio", audioPath];
    if r.cfg.modelPath != "" {
      cmdArgs := cmdArgs + ["--model", r.cfg.modelPath];
    }
    if r.cfg.language != "" {
      cmdArgs := cmdArgs + ["--language", r.cfg.language];
    }
    if WantsPartial(r.cfg, final) {
      cmdArgs := cmdArgs + ["--partial"];
    }
    return Ok(Invocation(program, cmdArgs));
  }

  /**
   * The shape of the argument list: its length, `--audio <file>` right after the extra
   * words, and a trailing `--partial` exactly when wanted (otherwise it ends with the file,
   * the model or the language).
   */
  lemma ArgumentShape(r: Recognizer, audioPath: string, final: bool)
    requires |r.cmd| > 0
    ensures var args := ExpectedArgs(r, audioPath, final);
      && |args| == |r.cmd| + 1 + (if r.cfg.modelPath != "" then 2 else 0)
         + (if r.cfg.language != "" then 2 else 0) + (if WantsPartial(r.cfg, final) then 1 else 0)
      && args[|r.cmd| - 1] == "--audio" && args[|r.cmd|] == audioPath
      && (WantsPartial(r.cfg, final) ==> args[|args| - 1] == "--partial")
      && (!WantsPartial(r.cfg, final) ==> args[|args| - 1] in {audioPath, r.cfg.modelPath, r.cfg.language})
  {
  }

  /** What the started command did: it failed (with its standard error), or it printed output that did or did not decode. */
  datatype CommandOutcome = RunFailed(error: string, stderr: string) | Printed(decoded: Result<SttRecognizer.TranscriptResult>)

  /**
   * `Transcribe`: reject an unaligned payload before anything runs, then write the decoded
   * samples (`audio`), build the invocation and report the command's decoded result, or
   * the failure.
   */
  method Transcribe(r: Recognizer, pcm: seq<byte>, final: bool, audioPath: string, outcome: CommandOutcome)
    returns (audio: Option<seq<int>>, inv: Option<Invocation>, result: Result<SttRecognizer.TranscriptResult>)
    ensures |pcm| % 2 != 0 ==> audio.None? && inv.None? && result == Err("pcm payload not aligned")
    ensures |pcm| % 2 == 0 ==> audio == Some(Samples(pcm))
    ensures |pcm| % 2 == 0 && |r.cmd| == 0 ==> inv.None? && result == Err("stt command empty")
    ensures |pcm| % 2 == 0 && |r.cmd| > 0 ==> inv == Some(Invocation(r.cmd[0], ExpectedArgs(r, audioPath, final)))
    ensures |pcm| % 2 == 0 && |r.cmd| > 0 && outcome.RunFailed? ==>
      result == Err("stt command failed: " + outcome.error + ": " + outcome.stderr)
    ensures |pcm| % 2 == 0 && |r.cmd| > 0 && outcome.Printed? && outcome.decoded.Ok? ==> result == outcome.decoded
    ensures |pcm| % 2 == 0 && |r.cmd| > 0 && outcome.Printed? && outcome.decoded.Err? ==>
      result == Err("decode stt response: " + outcome.decoded.message)
    ensures result.Ok? ==> |pcm| % 2 == 0 && |r.cmd| > 0 && outcome.Printed? && outcome.decoded == result
  {
    audio, inv := None, None;
    var samples := DecodeSamples(pcm);
    if samples.Err? {
      return None, None, Err(samples.message);
    }
    audio := Some(samples.value);
    var built := BuildInvocation(r, audioPath, final);
    if built.Err? {
      return audio, None, Err(built.message);
    }
    inv := Some(built.value);
    match outcome {
      case RunFailed(error, stderr) =>
        result := Err("stt command failed: " + error + ": " + stderr);
      case Printed(decoded) =>
        result := if decoded.Ok? then decoded else Err("decode stt response: " + decoded.message);
    }
  }
}
