/** `models/zero_shot_classification.ts`: `ZeroShotClassificationModel`. */
module HostZeroShot {
  import opened Wrappers
  import opened Utf8
  import opened NativeLib
  import HostJson
  import opened HostManager
  import NativeZeroShot
  import Foreign

  /** `ZeroShotPredictInit`, an object the caller owns and the methods
      update. An unset `maxLength` is `None`. */
  class ZeroShotPredictInit {
    var inputs: seq<string>
    var labels: seq<string>
    var maxLength: Option<int>

    constructor (inputs: seq<string>, labels: seq<string>, maxLength: Option<int>)
      ensures this.inputs == inputs && this.labels == labels && this.maxLength == maxLength
    {
      this.inputs := inputs;
      this.labels := labels;
      this.maxLength := maxLength;
    }

    function Payload(): (p: HostJson.ZeroShotPayload)
      reads this
      ensures p.inputs == inputs && p.labels == labels && p.maxLength == maxLength
    {
      HostJson.ZeroShotPayload(inputs, labels, maxLength)
    }
  }

  /** `init.maxLength ??= 128`: in the caller's object. */
  method DefaultMaxLength(init: ZeroShotPredictInit)
    modifies init`maxLength
    ensures init.maxLength == if old(init.maxLength).None? then Some(128) else old(init.maxLength)
  {
    if init.maxLength.None? {
      init.maxLength := Some(128);
    }
  }

  /** `zero_shot_predict(rid, bytes, bytes.length)`, the code through
      `assertCode`, then `getResultString` with that code. The native side
      answers 0 without writing the result slot, so the fetch succeeds only
      if the slot was left empty by earlier calls, and panics otherwise. */
  method Dispatch(m: Model, bytes: seq<byte>) returns (r: Result<HostJson.JsValue, HostError>)
    requires m.manager.Valid() && !m.manager.isClosed
    modifies m.manager.native`lastResult, m.manager.native`lastError, m.manager.native`log
    ensures m.manager.Valid()
    ensures
      var native := m.manager.native;
      var out := NativeZeroShot.PredictOutcome(native.lib, bytes);
      && (out.Err? ==>
            r == Err(BertMLError(out.error)) && native.log == old(native.log) + Exchange("zero_shot_predict", Err(out.error)))
      && (out.Ok? && old(native.lastResult) == [] ==>
            r == Parsed(m.manager.json, "") && native.log == old(native.log) + Exchange("zero_shot_predict", Ok([])))
      && (out.Ok? && old(native.lastResult) != [] ==>
            r == Err(NativeAbort) && native.log == old(native.log) + [EntryCall("zero_shot_predict", 0)])
  {
    var manager := m.manager;
    var native := manager.native;
    assert bytes[..|bytes|] == bytes;
    var code := NativeZeroShot.ZeroShotPredict(native, m.rid, bytes, |bytes|);
    var a := manager.AssertCode(code);
    if a.Err? {
      DecodeEncode(NativeZeroShot.ParseFailure);
      return Err(a.error);
    }
    var s := manager.GetResultString(a.value);
    r := if s.Ok? then Parsed(manager.json, s.value) else Err(s.error);
  }

  /** The two codecs disagree on the request: the host serialises an
      object, and the native parser, which expects an array of strings,
      refuses every such object. */
  ghost predicate ObjectRefused(lib: Foreign.Library, json: HostJson.Json) {
    forall p :: lib.parseStrings(Encode(json.stringifyZeroShot(p))).Err?
  }

  /** `predict(init)`: `maxLength` defaulted in the caller's object, then
      the whole object as JSON, encoded, dispatched with its byte length.
      The native side refuses the object, so every call raises the parse
      failure after draining it. */
  method Predict(m: Model, init: ZeroShotPredictInit) returns (r: Result<HostJson.JsValue, HostError>)
    requires m.kind == ZeroShotKind && m.manager.Valid() && !m.manager.isClosed
    requires ObjectRefused(m.manager.native.lib, m.manager.json)
    modifies init`maxLength, m.manager.native`lastResult, m.manager.native`lastError, m.manager.native`log
    ensures m.manager.Valid()
    ensures init.maxLength == if old(init.maxLength).None? then Some(128) else old(init.maxLength)
    ensures r == Err(BertMLError(NativeZeroShot.ParseFailure))
    ensures m.manager.native.log ==
      old(m.manager.native.log) + Exchange("zero_shot_predict", Err(NativeZeroShot.ParseFailure))
  {
    DefaultMaxLength(init);
    var bytes := Encode(m.manager.json.stringifyZeroShot(init.Payload()));
    r := Dispatch(m, bytes);
  }

  /** `predictMultilabel(init)`: the default is written, then the call of
      `zero_shot_predict_multilabel`, a symbol neither side defines, throws
      before anything reaches the native side. */
  method PredictMultilabel(m: Model, init: ZeroShotPredictInit) returns (r: Result<HostJson.JsValue, HostError>)
    requires m.kind == ZeroShotKind
    modifies init`maxLength
    ensures init.maxLength == if old(init.maxLength).None? then Some(128) else old(init.maxLength)
    ensures r == Err(NotAFunction("zero_shot_predict_multilabel"))
  {
    DefaultMaxLength(init);
    r := Err(NotAFunction("zero_shot_predict_multilabel"));
  }
}
