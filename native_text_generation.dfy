/** `src/text_generation.rs`: the text generation pipeline's entry points. */
module NativeTextGeneration {
  import opened Wrappers
  import opened Utf8
  import opened Foreign
  import opened Allocators
  import opened NativeLib
  import Fmt

  const LoadFailure := "Failed to create text generation model."
  const ParseFailure := "Failed to parse text generation model init."
  const SerializeFailure := "Failed to serialize text generation data."

  function WrongModel(rid: nat): string {
    "Expected text generation model at rid '" + Fmt.Decimal(rid) + "'."
  }

  /** `create_text_generation_model`. */
  method CreateTextGenerationModel(n: Native, load: Load) returns (code: int)
    requires n.Valid()
    modifies n.models, n`lastError, n`log
    ensures n.Valid()
    ensures n.Created(if load.Loaded? then Ok(TextGenerationModel) else Err(LoadFailure), code)
    ensures n.log == old(n.log) + [EntryCall("create_text_generation_model", code)]
  {
    code := n.AllocateModel("create_text_generation_model",
      if load.Loaded? then Ok(TextGenerationModel) else Err(LoadFailure));
  }

  /** What `text_generation_generate` answers: the inputs and the optional
      prefix of the init reach `generate` as parsed (an absent prefix as
      `None`). */
  function GenerateOutcome(lib: Library, models: map<nat, Model>, rid: nat, payload: seq<byte>)
    : (r: Result<seq<byte>, string>)
    ensures lib.parseTextGenerationInit(payload).None? ==> r == Err(ParseFailure)
    ensures lib.parseTextGenerationInit(payload).Some? && rid !in models ==> r == Err(NoSuchResource)
    ensures lib.parseTextGenerationInit(payload).Some? && rid in models && !models[rid].TextGenerationModel? ==>
      r == Err(WrongModel(rid))
    ensures r.Ok? <==>
      && lib.parseTextGenerationInit(payload).Some? && rid in models && models[rid].TextGenerationModel?
      && lib.stringsJson(lib.generate(lib.parseTextGenerationInit(payload).value.inputs,
                                      lib.parseTextGenerationInit(payload).value.prefix)).Some?
    ensures r.Ok? ==>
      Some(r.value) == lib.stringsJson(lib.generate(lib.parseTextGenerationInit(payload).value.inputs,
                                                    lib.parseTextGenerationInit(payload).value.prefix))
  {
    match lib.parseTextGenerationInit(payload)
    case None => Err(ParseFailure)
    case Some(init) =>
      if rid !in models then Err(NoSuchResource)
      else if !models[rid].TextGenerationModel? then Err(WrongModel(rid))
      else
        match lib.stringsJson(lib.generate(init.inputs, init.prefix))
        case None => Err(SerializeFailure)
        case Some(json) => Ok(json)
  }

  /** `text_generation_generate(rid, buf, buf_len)`. The serialisation and
      `set_result` happen inside the access closure; in a sequential trace
      that order is not observable. */
  method TextGenerationGenerate(n: Native, rid: nat, buf: seq<byte>, bufLen: nat) returns (code: int)
    requires n.Valid() && bufLen <= |buf|
    modifies n.models, n`lastResult, n`lastError, n`log
    ensures n.Valid()
    ensures n.models.items == old(n.models.items) && n.models.counter == old(n.models.counter)
    ensures n.Replied(GenerateOutcome(n.lib, old(n.models.items), rid, buf[..bufLen]), code)
    ensures n.log == old(n.log) + [EntryCall("text_generation_generate", code)]
  {
    var lib := n.lib;
    var out: Result<seq<byte>, string>;
    var parsed := lib.parseTextGenerationInit(buf[..bufLen]);
    if parsed.None? {
      out := Err(ParseFailure);
    } else {
      var init := parsed.value;
      out := n.models.WithAccess(rid, (m: Model) =>
        (m, if !m.TextGenerationModel? then Err(WrongModel(rid))
            else
              var json := lib.stringsJson(lib.generate(init.inputs, init.prefix));
              if json.Some? then Ok(json.value) else Err(SerializeFailure)));
    }
    code := n.Reply("text_generation_generate", out);
  }
}
