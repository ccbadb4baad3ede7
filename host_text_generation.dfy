/** `models/text_generation.ts`: `TextGenerationModel.generate`. */
module HostTextGeneration {
  import opened Wrappers
  import opened Utf8
  import opened NativeLib
  import HostJson
  import opened HostManager
  import NativeTextGeneration

  /** `generate(init)`: the whole init as JSON, encoded, with its byte
      length, on the model's own id; the code through `assertCode`; then
      `getResultString` with that code, parsed as JSON. */
  method Generate(m: Model, init: HostJson.TextGenerationInit) returns (r: Result<HostJson.JsValue, HostError>)
    requires m.kind == TextGenerationKind && m.manager.Valid() && !m.manager.isClosed
    modifies m.manager.native.models, m.manager.native`lastResult, m.manager.native`lastError, m.manager.native`log
    ensures m.manager.Valid()
    ensures m.manager.native.models.items == old(m.manager.native.models.items)
    ensures
      var native := m.manager.native;
      var out := NativeTextGeneration.GenerateOutcome(native.lib, old(native.models.items), m.rid,
                                          Encode(m.manager.json.stringifyTextGenerationInit(init)));
      && (out.Ok? ==> r == Parsed(m.manager.json, Decode(out.value)))
      && (out.Err? ==> r == Err(BertMLError(out.error)))
      && native.log == old(native.log) + Exchange("text_generation_generate", out)
  {
    var manager := m.manager;
    var native := manager.native;
    var bytes := Encode(manager.json.stringifyTextGenerationInit(init));
    ghost var out := NativeTextGeneration.GenerateOutcome(native.lib, native.models.items, m.rid, bytes);
    assert bytes[..|bytes|] == bytes;
    var code := NativeTextGeneration.TextGenerationGenerate(native, m.rid, bytes, |bytes|);
    var s := manager.Collect(code, "text_generation_generate", out);
    r := if s.Ok? then Parsed(manager.json, s.value) else Err(s.error);
  }
}
