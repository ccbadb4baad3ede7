/** `models/sentiment.ts`: the `Polarity` enum and `SentimentModel.predict`. */
module HostSentiment {
  import opened Wrappers
  import opened Utf8
  import opened NativeLib
  import HostJson
  import opened HostManager
  import NativeSentiment
  import Foreign

  /** `Polarity`: a numeric enum, `Negative` first. */
  datatype Polarity = Negative | Positive

  /** The number each member stands for. */
  function PolarityValue(p: Polarity): (v: nat)
    ensures v <= 1
  {
    match p
    case Negative => 0
    case Positive => 1
  }

  /** The enum's reverse mapping: the member a number names, if any. */
  function PolarityOf(v: int): (p: Option<Polarity>)
    ensures p.Some? <==> 0 <= v <= 1
  {
    if v == 0 then Some(Negative) else if v == 1 then Some(Positive) else None
  }

  lemma PolarityRoundTrip(p: Polarity, v: int)
    ensures PolarityOf(PolarityValue(p)) == Some(p)
    ensures PolarityOf(v).Some? ==> PolarityValue(PolarityOf(v).value) == v
  {
  }

  /** The polarity number the native side writes names the host member of
      the same meaning. */
  lemma PolarityMatchesNative(s: Foreign.Sentiment)
    ensures PolarityOf(NativeSentiment.FromSentiment(s).polarity as int) ==
      Some(if s.polarity == Foreign.Negative then Negative else Positive)
  {
  }

  /** `predict(input)`: the JSON array of the inputs, encoded, with its
      byte length, on the model's own id; the code through `assertCode`;
      then `getResultString` with that code, parsed as JSON. */
  method Predict(m: Model, input: seq<string>) returns (r: Result<HostJson.JsValue, HostError>)
    requires m.kind == SentimentKind && m.manager.Valid() && !m.manager.isClosed
    modifies m.manager.native.models, m.manager.native`lastResult, m.manager.native`lastError, m.manager.native`log
    ensures m.manager.Valid()
    ensures m.manager.native.models.items == old(m.manager.native.models.items)
    ensures
      var native := m.manager.native;
      var out := NativeSentiment.PredictOutcome(native.lib, old(native.models.items), m.rid,
                                          Encode(m.manager.json.stringifyStrings(input)));
      && (out.Ok? ==> r == Parsed(m.manager.json, Decode(out.value)))
      && (out.Err? ==> r == Err(BertMLError(out.error)))
      && native.log == old(native.log) + Exchange("sentiment_predict", out)
  {
    var manager := m.manager;
    var native := manager.native;
    var bytes := Encode(manager.json.stringifyStrings(input));
    ghost var out := NativeSentiment.PredictOutcome(native.lib, native.models.items, m.rid, bytes);
    assert bytes[..|bytes|] == bytes;
    var code := NativeSentiment.SentimentPredict(native, m.rid, bytes, |bytes|);
    var s := manager.Collect(code, "sentiment_predict", out);
    r := if s.Ok? then Parsed(manager.json, s.value) else Err(s.error);
  }
}
