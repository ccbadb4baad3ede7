/** `src/sentiment.rs`: the sentiment pipeline's entry points. */
module NativeSentiment {
  import opened Wrappers
  import opened Utf8
  import opened Foreign
  import opened Allocators
  import opened NativeLib
  import Fmt

  const LoadFailure := "Failed to load sentiment model."
  const ParseFailure := "Failed to parse sentiment model input."
  const SerializeFailure := "Failed to serialize sentiment model data."

  function WrongModel(rid: nat): string {
    "Expected Sentiment Model at resource id " + Fmt.Decimal(rid) + "."
  }

  /** `JSSentiment::from`: a negative polarity becomes 0 and every other
      polarity 1; the score is copied. */
  function FromSentiment(s: Sentiment): (j: JSSentiment)
    ensures j.polarity <= 1
    ensures j.polarity == 0 <==> s.polarity == Negative
    ensures j.score == s.score
  {
    JSSentiment(match s.polarity case Negative => 0 case _ => 1, s.score)
  }

  /** The `map(|s| s.into()).collect()` over the predictions: same length,
      same order. */
  function FromSentiments(ss: seq<Sentiment>): (js: seq<JSSentiment>)
    ensures |js| == |ss|
    ensures forall i :: 0 <= i < |ss| ==> js[i] == FromSentiment(ss[i])
  {
    if ss == [] then [] else [FromSentiment(ss[0])] + FromSentiments(ss[1..])
  }

  /** `create_sentiment_model`. */
  method CreateSentimentModel(n: Native, load: Load) returns (code: int)
    requires n.Valid()
    modifies n.models, n`lastError, n`log
    ensures n.Valid()
    ensures n.Created(if load.Loaded? then Ok(SentimentModel) else Err(LoadFailure), code)
    ensures n.log == old(n.log) + [EntryCall("create_sentiment_model", code)]
  {
    code := n.AllocateModel("create_sentiment_model",
      if load.Loaded? then Ok(SentimentModel) else Err(LoadFailure));
  }

  /** What `sentiment_predict` answers for a payload: the parse comes first,
      then the id and its variant, then the serialised predictions. */
  function PredictOutcome(lib: Library, models: map<nat, Model>, rid: nat, payload: seq<byte>)
    : (r: Result<seq<byte>, string>)
    ensures lib.parseBorrowedStrings(payload).None? ==> r == Err(ParseFailure)
    ensures lib.parseBorrowedStrings(payload).Some? && rid !in models ==> r == Err(NoSuchResource)
    ensures lib.parseBorrowedStrings(payload).Some? && rid in models && !models[rid].SentimentModel? ==>
      r == Err(WrongModel(rid))
    ensures r.Ok? <==>
      && lib.parseBorrowedStrings(payload).Some? && rid in models && models[rid].SentimentModel?
      && lib.sentimentsJson(FromSentiments(lib.sentimentPredict(lib.parseBorrowedStrings(payload).value))).Some?
    ensures r.Ok? ==>
      Some(r.value) == lib.sentimentsJson(FromSentiments(lib.sentimentPredict(lib.parseBorrowedStrings(payload).value)))
  {
    match lib.parseBorrowedStrings(payload)
    case None => Err(ParseFailure)
    case Some(input) =>
      if rid !in models then Err(NoSuchResource)
      else if !models[rid].SentimentModel? then Err(WrongModel(rid))
      else
        match lib.sentimentsJson(FromSentiments(lib.sentimentPredict(input)))
        case None => Err(SerializeFailure)
        case Some(json) => Ok(json)
  }

  /** `sentiment_predict(rid, input, input_len)`: reads `input_len` bytes. */
  method SentimentPredict(n: Native, rid: nat, input: seq<byte>, inputLen: nat) returns (code: int)
    requires n.Valid() && inputLen <= |input|
    modifies n.models, n`lastResult, n`lastError, n`log
    ensures n.Valid()
    ensures n.models.items == old(n.models.items) && n.models.counter == old(n.models.counter)
    ensures n.Replied(PredictOutcome(n.lib, old(n.models.items), rid, input[..inputLen]), code)
    ensures n.log == old(n.log) + [EntryCall("sentiment_predict", code)]
  {
    var lib := n.lib;
    var parsed := lib.parseBorrowedStrings(input[..inputLen]);
    if parsed.None? {
      code := n.Reply("sentiment_predict", Err(ParseFailure));
      return;
    }
    var strings := parsed.value;
    var sentiments := n.models.WithAccess(rid, (m: Model) =>
      (m, if m.SentimentModel? then Ok(lib.sentimentPredict(strings)) else Err(WrongModel(rid))));
    if sentiments.Err? {
      code := n.Reply("sentiment_predict", Err(sentiments.error));
      return;
    }
    var json := lib.sentimentsJson(FromSentiments(sentiments.value));
    code := n.Reply("sentiment_predict", if json.Some? then Ok(json.value) else Err(SerializeFailure));
  }
}
