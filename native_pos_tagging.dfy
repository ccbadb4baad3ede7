/** `src/pos_tagging.rs`: the part-of-speech pipeline's entry points. */
module NativePosTagging {
  import opened Wrappers
  import opened Utf8
  import opened Foreign
  import opened Allocators
  import opened NativeLib
  import Fmt

  const LoadFailure := "Failed to load Parts of Speech Tagging model."
  const SerializeFailure := "Failed to serialize POS tags."

  function WrongModel(rid: nat): string {
    "Expected POS Model at rid '" + Fmt.Decimal(rid) + "'."
  }

  /** `create_pos_model`. */
  method CreatePosModel(n: Native, load: Load) returns (code: int)
    requires n.Valid()
    modifies n.models, n`lastError, n`log
    ensures n.Valid()
    ensures n.Created(if load.Loaded? then Ok(POSModel) else Err(LoadFailure), code)
    ensures n.log == old(n.log) + [EntryCall("create_pos_model", code)]
  {
    code := n.AllocateModel("create_pos_model",
      if load.Loaded? then Ok(POSModel) else Err(LoadFailure));
  }

  /** What `pos_predict` answers. A parse failure carries the parser's own
      text: this entry point adds no context to it. */
  function PredictOutcome(lib: Library, models: map<nat, Model>, rid: nat, payload: seq<byte>)
    : (r: Result<seq<byte>, string>)
    ensures lib.parseStrings(payload).Err? ==> r == Err(lib.parseStrings(payload).error)
    ensures lib.parseStrings(payload).Ok? && rid !in models ==> r == Err(NoSuchResource)
    ensures lib.parseStrings(payload).Ok? && rid in models && !models[rid].POSModel? ==>
      r == Err(WrongModel(rid))
    ensures r.Ok? <==>
      && lib.parseStrings(payload).Ok? && rid in models && models[rid].POSModel?
      && lib.posTagsJson(lib.posPredict(lib.parseStrings(payload).value)).Some?
    ensures r.Ok? ==> Some(r.value) == lib.posTagsJson(lib.posPredict(lib.parseStrings(payload).value))
  {
    match lib.parseStrings(payload)
    case Err(e) => Err(e)
    case Ok(inputs) =>
      if rid !in models then Err(NoSuchResource)
      else if !models[rid].POSModel? then Err(WrongModel(rid))
      else
        match lib.posTagsJson(lib.posPredict(inputs))
        case None => Err(SerializeFailure)
        case Some(json) => Ok(json)
  }

  /** `pos_predict(rid, buf, buf_len)`. */
  method PosPredict(n: Native, rid: nat, buf: seq<byte>, bufLen: nat) returns (code: int)
    requires n.Valid() && bufLen <= |buf|
    modifies n.models, n`lastResult, n`lastError, n`log
    ensures n.Valid()
    ensures n.models.items == old(n.models.items) && n.models.counter == old(n.models.counter)
    ensures n.Replied(PredictOutcome(n.lib, old(n.models.items), rid, buf[..bufLen]), code)
    ensures n.log == old(n.log) + [EntryCall("pos_predict", code)]
  {
    var lib := n.lib;
    var out: Result<seq<byte>, string>;
    var parsed := lib.parseStrings(buf[..bufLen]);
    if parsed.Err? {
      out := Err(parsed.error);
    } else {
      var inputs := parsed.value;
      out := n.models.WithAccess(rid, (m: Model) =>
        (m, if !m.POSModel? then Err(WrongModel(rid))
            else
              var json := lib.posTagsJson(lib.posPredict(inputs));
              if json.Some? then Ok(json.value) else Err(SerializeFailure)));
    }
    code := n.Reply("pos_predict", out);
  }
}
