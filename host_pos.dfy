/** `models/pos.ts`: `POSModel.predict`. */
module HostPos {
  import opened Wrappers
  import opened Utf8
  import opened NativeLib
  import HostJson
  import opened HostManager
  import NativePosTagging

  /** `predict(inputs)`: the JSON array of the inputs, encoded, with its
      byte length, on the model's own id; the code through `assertCode`;
      then `getResultString` with that code, parsed as JSON (a flat list of
      tags). */
  method Predict(m: Model, inputs: seq<string>) returns (r: Result<HostJson.JsValue, HostError>)
    requires m.kind == PosKind && m.manager.Valid() && !m.manager.isClosed
    modifies m.manager.native.models, m.manager.native`lastResult, m.manager.native`lastError, m.manager.native`log
    ensures m.manager.Valid()
    ensures m.manager.native.models.items == old(m.manager.native.models.items)
    ensures
      var native := m.manager.native;
      var out := NativePosTagging.PredictOutcome(native.lib, old(native.models.items), m.rid,
                                          Encode(m.manager.json.stringifyStrings(inputs)));
      && (out.Ok? ==> r == Parsed(m.manager.json, Decode(out.value)))
      && (out.Err? ==> r == Err(BertMLError(out.error)))
      && native.log == old(native.log) + Exchange("pos_predict", out)
  {
    var manager := m.manager;
    var native := manager.native;
    var bytes := Encode(manager.json.stringifyStrings(inputs));
    ghost var out := NativePosTagging.PredictOutcome(native.lib, native.models.items, m.rid, bytes);
    assert bytes[..|bytes|] == bytes;
    var code := NativePosTagging.PosPredict(native, m.rid, bytes, |bytes|);
    var s := manager.Collect(code, "pos_predict", out);
    r := if s.Ok? then Parsed(manager.json, s.value) else Err(s.error);
  }
}
