/** `src/summarization.rs`: the summarisation pipeline's entry points. */
module NativeSummarization {
  import opened Wrappers
  import opened Utf8
  import opened Foreign
  import opened Allocators
  import opened NativeLib
  import Fmt

  const LoadFailure := "Failed to create summarization model."
  const ParseFailure := "Failed to deserialize summarization input."
  const SerializeFailure := "Failed to serialize summarization model output."

  function WrongModel(rid: nat): string {
    "Expected to find summarization model at rid '" + Fmt.Decimal(rid) + "'."
  }

  /** `create_summarization_model`. */
  method CreateSummarizationModel(n: Native, load: Load) returns (code: int)
    requires n.Valid()
    modifies n.models, n`lastError, n`log
    ensures n.Valid()
    ensures n.Created(if load.Loaded? then Ok(SummarizationModel) else Err(LoadFailure), code)
    ensures n.log == old(n.log) + [EntryCall("create_summarization_model", code)]
  {
    code := n.AllocateModel("create_summarization_model",
      if load.Loaded? then Ok(SummarizationModel) else Err(LoadFailure));
  }

  /** What `summarization_summarize` answers for a payload. */
  function SummarizeOutcome(lib: Library, models: map<nat, Model>, rid: nat, payload: seq<byte>)
    : (r: Result<seq<byte>, string>)
    ensures lib.parseStrings(payload).Err? ==> r == Err(ParseFailure)
    ensures lib.parseStrings(payload).Ok? && rid !in models ==> r == Err(NoSuchResource)
    ensures lib.parseStrings(payload).Ok? && rid in models && !models[rid].SummarizationModel? ==>
      r == Err(WrongModel(rid))
    ensures r.Ok? <==>
      && lib.parseStrings(payload).Ok? && rid in models && models[rid].SummarizationModel?
      && lib.stringsJson(lib.summarize(lib.parseStrings(payload).value)).Some?
    ensures r.Ok? ==> Some(r.value) == lib.stringsJson(lib.summarize(lib.parseStrings(payload).value))
  {
    match lib.parseStrings(payload)
    case Err(_) => Err(ParseFailure)
    case Ok(inputs) =>
      if rid !in models then Err(NoSuchResource)
      else if !models[rid].SummarizationModel? then Err(WrongModel(rid))
      else
        match lib.stringsJson(lib.summarize(inputs))
        case None => Err(SerializeFailure)
        case Some(json) => Ok(json)
  }

  /** `summarization_summarize(rid, buf, buf_len)`. */
  method SummarizationSummarize(n: Native, rid: nat, buf: seq<byte>, bufLen: nat) returns (code: int)
    requires n.Valid() && bufLen <= |buf|
    modifies n.models, n`lastResult, n`lastError, n`log
    ensures n.Valid()
    ensures n.models.items == old(n.models.items) && n.models.counter == old(n.models.counter)
    ensures n.Replied(SummarizeOutcome(n.lib, old(n.models.items), rid, buf[..bufLen]), code)
    ensures n.log == old(n.log) + [EntryCall("summarization_summarize", code)]
  {
    var lib := n.lib;
    var out: Result<seq<byte>, string>;
    var parsed := lib.parseStrings(buf[..bufLen]);
    if parsed.Err? {
      out := Err(ParseFailure);
    } else {
      var inputs := parsed.value;
      var outputs := n.models.WithAccess(rid, (m: Model) =>
        (m, if m.SummarizationModel? then Ok(lib.summarize(inputs)) else Err(WrongModel(rid))));
      if outputs.Err? {
        out := Err(outputs.error);
      } else {
        var json := lib.stringsJson(outputs.value);
        out := if json.Some? then Ok(json.value) else Err(SerializeFailure);
      }
    }
    code := n.Reply("summarization_summarize", out);
  }
}
