/**
 * The speech-recognition adapter (`stt/whisper_wrapper.py`): a process-wide cache of
 * loaded recognition models, and the normalisation of the engine's segments and
 * metadata into the JSON result `{"text": ..., "confidence"?: ...}`.
 */
module WhisperWrapper {
  import opened Wrappers
  import Text

  /** Cache identity: the model path and the compute type, compared exactly. */
  datatype ModelKey = ModelKey(path: string, computeType: string)

  /**
   * An opaque loaded model. `serial` numbers the engine constructions in the order they
   * happened, so two handles are the same object exactly when their serials agree.
   */
  datatype ModelHandle = ModelHandle(serial: nat, key: ModelKey)

  /** The module-level `_model_cache` dictionary and the count of engine constructions. */
  class ModelCache {
    var entries: map<ModelKey, ModelHandle>
    var constructed: nat

    /** Every stored handle was built for its own key, by one of the constructions so far. */
    ghost predicate Valid()
      reads this
    {
      forall k :: k in entries ==> entries[k].key == k && entries[k].serial < constructed
    }

    constructor ()
      ensures Valid() && entries == map[] && constructed == 0
    {
      entries := map[];
      constructed := 0;
    }

    /**
     * `load_model`: a hit returns the stored handle and builds nothing; a miss builds one
     * model, stores it under the key and returns it. When the engine raises on a miss
     * (`engineFails`), the error propagates and nothing is stored. Nothing is ever evicted.
     */
    method LoadModel(path: string, computeType: string, engineFails: bool) returns (r: Result<ModelHandle>)
      requires Valid()
      modifies this
      ensures Valid()
      ensures old(entries).Keys <= entries.Keys
      ensures forall k :: k in old(entries) ==> entries[k] == old(entries)[k]
      ensures ModelKey(path, computeType) in old(entries) ==>
        r == Ok(old(entries)[ModelKey(path, computeType)]) &&
        entries == old(entries) && constructed == old(constructed)
      ensures ModelKey(path, computeType) !in old(entries) && engineFails ==>
        r.Err? && entries == old(entries) && constructed == old(constructed)
      ensures ModelKey(path, computeType) !in old(entries) && !engineFails ==>
        r == Ok(ModelHandle(old(constructed), ModelKey(path, computeType))) &&
        entries == old(entries)[ModelKey(path, computeType) := r.value] &&
        constructed == old(constructed) + 1
    {
      var key := ModelKey(path, computeType);
      if key in entries {
        return Ok(entries[key]);
      }
      if engineFails {
        return Err("model load failed");
      }
      var model := ModelHandle(constructed, key);
      constructed := constructed + 1;
      entries := entries[key := model];
      r := Ok(model);
    }
  }

  /**
   * Two loads of one key share a handle and build once; the same path with another
   * compute type is a separate entry with its own model.
   */
  method SamePathOtherComputeType(path: string) returns (first: ModelHandle, other: ModelHandle, again: ModelHandle, builds: nat)
    ensures first == again && first != other
    ensures first.key.path == other.key.path
    ensures builds == 2
  {
    var cache := new ModelCache();
    var a := cache.LoadModel(path, "int8", false);
    var b := cache.LoadModel(path, "float16", false);
    var c := cache.LoadModel(path, "int8", false);
    first, other, again, builds := a.value, b.value, c.value, cache.constructed;
  }

  /** The engine's `avg_logprob` attribute: missing, `None`, or a number. */
  datatype LogProb = Missing | Null | Value(x: real)

  datatype TranscriptionInfo = TranscriptionInfo(avgLogprob: LogProb)

  /**
   * The JSON result. `confidence` is present exactly when the key is written; it holds the
   * log-probability whose exponential the adapter reports.
   */
  datatype Transcription = Transcription(text: string, confidence: Option<real>)

  /**
   * The result built in `main`: the segment texts joined in order and stripped of Python's
   * white space (`Text.Strip`, which also removes U+001C to U+001F), plus a
   * `confidence` key only when metadata exists and carries a non-`None` log-probability.
   */
  function Normalize(segments: seq<string>, info: Option<TranscriptionInfo>): (r: Transcription)
    ensures segments == [] ==> r.text == ""
    ensures r.text == [] <==> Text.AllPySpace(Text.Concat(segments))
    ensures r.text != [] ==> !Text.IsPySpace(r.text[0]) && !Text.IsPySpace(r.text[|r.text| - 1])
    ensures r.confidence.Some? <==> info.Some? && info.value.avgLogprob.Value?
    ensures r.confidence.Some? ==> r.confidence.value == info.value.avgLogprob.x
  {
    var text := Text.Strip(Text.Concat(segments));
    var confidence := if info.Some? && info.value.avgLogprob.Value? then Some(info.value.avgLogprob.x) else None;
    Transcription(text, confidence)
  }

  /** Segments are joined in the order produced, with nothing between them. */
  lemma NormalizeKeepsOrder(first: seq<string>, second: seq<string>, info: Option<TranscriptionInfo>)
    ensures Normalize(first + second, info).text == Text.Strip(Text.Concat(first) + Text.Concat(second))
  {
    Text.ConcatAppend(first, second);
  }

  /** `["Hel", "lo wor", "ld "]` gives `"Hello world"`; without metadata there is no confidence. */
  lemma NormalizeExample()
    ensures Normalize(["Hel", "lo wor", "ld "], None) == Transcription("Hello world", None)
  {
    var joined := Text.Concat(["Hel", "lo wor", "ld "]);
    assert ["Hel", "lo wor", "ld "][..2] == ["Hel", "lo wor"];
    assert ["Hel", "lo wor"][..1] == ["Hel"];
    assert ["Hel"][..0] == [];
    assert joined == "Hello world ";
    assert Text.PyLeadingSpace(joined) == 0;
    assert Text.PyTrailingSpace(joined) == 1 by {
      assert joined[..|joined| - 1] == "Hello world";
    }
  }

  /** An information separator in front of the text is white space to Python and is stripped. */
  lemma NormalizeStripsSeparator()
    ensures Normalize(["\U{1F}hi"], None).text == "hi"
  {
    var joined := Text.Concat(["\U{1F}hi"]);
    assert ["\U{1F}hi"][..0] == [];
    assert joined == "\U{1F}hi";
    assert Text.PyLeadingSpace(joined) == 1 by {
      assert joined[1..] == "hi";
    }
    assert Text.PyTrailingSpace(joined[1..]) == 0;
  }
}
