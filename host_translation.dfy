/** `models/translation/mod.ts`: `TranslationModel.translate`. */
module HostTranslation {
  import opened Wrappers
  import opened Utf8
  import opened NativeLib
  import HostJson
  import opened HostManager
  import NativeTranslation

  /** `translate(init)`: the whole `TranslateInit` as JSON, encoded, with
      its byte length; the code through `assertCode`; then a buffer of
      exactly that length filled, decoded and parsed. The `init` the model
      was created with is not consulted, so no language pair is refused on
      the host. Both languages must be ones the native enum declares (the
      native side transmutes them unchecked). */
  method Translate(m: Model, init: HostJson.TranslateInit) returns (r: Result<HostJson.JsValue, HostError>)
    requires m.kind.TranslationKind? && m.manager.Valid() && !m.manager.isClosed
    requires NativeTranslation.InitKnown(m.manager.native.lib, Encode(m.manager.json.stringifyTranslateInit(init)))
    modifies m.manager.native.models, m.manager.native`lastResult, m.manager.native`lastError, m.manager.native`log
    ensures m.manager.Valid()
    ensures m.manager.native.models.items == old(m.manager.native.models.items)
    ensures
      var native := m.manager.native;
      var out := NativeTranslation.TranslateOutcome(native.lib, old(native.models.items), m.rid,
                                          Encode(m.manager.json.stringifyTranslateInit(init)));
      && (out.Ok? ==> r == Parsed(m.manager.json, Decode(out.value)))
      && (out.Err? ==> r == Err(BertMLError(out.error)))
      && native.log == old(native.log) + Exchange("translation_translate", out)
  {
    var manager := m.manager;
    var native := manager.native;
    var bytes := Encode(manager.json.stringifyTranslateInit(init));
    ghost var out := NativeTranslation.TranslateOutcome(native.lib, native.models.items, m.rid, bytes);
    assert bytes[..|bytes|] == bytes;
    var code := NativeTranslation.TranslationTranslate(native, m.rid, bytes, |bytes|);
    var s := manager.Collect(code, "translation_translate", out);
    r := if s.Ok? then Parsed(manager.json, s.value) else Err(s.error);
  }
}
