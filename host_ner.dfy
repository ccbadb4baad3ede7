/** `models/ner.ts`: `NERModel.predict`. */
module HostNer {
  import opened Wrappers
  import opened Utf8
  import opened NativeLib
  import HostJson
  import opened HostManager
  import NativeNer

  /** `predict(text)`: the JSON array of the texts, encoded, with its byte
      length, on the model's own id; the code through `assertCode`; then a
      buffer of exactly that length filled and decoded, and its JSON. */
  method Predict(m: Model, text: seq<string>) returns (r: Result<HostJson.JsValue, HostError>)
    requires m.kind == NerKind && m.manager.Valid() && !m.manager.isClosed
    modifies m.manager.native.models, m.manager.native`lastResult, m.manager.native`lastError, m.manager.native`log
    ensures m.manager.Valid()
    ensures m.manager.native.models.items == old(m.manager.native.models.items)
    ensures
      var native := m.manager.native;
      var out := NativeNer.PredictOutcome(native.lib, old(native.models.items), m.rid,
                                          Encode(m.manager.json.stringifyStrings(text)));
      && (out.Ok? ==> r == Parsed(m.manager.json, Decode(out.value)))
      && (out.Err? ==> r == Err(BertMLError(out.error)))
      && native.log == old(native.log) + Exchange("ner_predict", out)
  {
    var manager := m.manager;
    var native := manager.native;
    var bytes := Encode(manager.json.stringifyStrings(text));
    ghost var out := NativeNer.PredictOutcome(native.lib, native.models.items, m.rid, bytes);
    assert bytes[..|bytes|] == bytes;
    var code := NativeNer.NerPredict(native, m.rid, bytes, |bytes|);
    var s := manager.Collect(code, "ner_predict", out);
    r := if s.Ok? then Parsed(manager.json, s.value) else Err(s.error);
  }
}
