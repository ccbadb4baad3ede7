/** `src/translation.rs`: the crate's copy of the library's language enum
    and the translation pipeline's entry points. */
module NativeTranslation {
  import opened Wrappers
  import opened Utf8
  import Foreign
  import opened Allocators
  import opened NativeLib
  import opened CopiedLanguage

  /** Every discriminant in a payload names a variant, the condition under
      which the transmute is defined. */
  predicate AllKnown(ns: seq<Foreign.u8>) {
    forall k :: 0 <= k < |ns| ==> ns[k] < LanguageCount as Foreign.u8
  }

  /** The `map(|l| Language::from(Language::from_u8(l))).collect()`. */
  function ToLibraryLanguages(ns: seq<Foreign.u8>): (ls: seq<Foreign.Language>)
    requires AllKnown(ns)
    ensures |ls| == |ns|
    ensures forall k :: 0 <= k < |ns| ==> ls[k] == ToLibrary(FromU8(ns[k]))
  {
    if ns == [] then [] else [ToLibrary(FromU8(ns[0]))] + ToLibraryLanguages(ns[1..])
  }

  const ConfigParseFailure := "Failed to parse translation model config."
  const LoadFailure := "Failed to create model."
  const InitParseFailure := "Failed to parse translation model init."
  const AccessFailure := "Failed to access translation model."
  const SerializeFailure := "Failed to serialize translation data."

  /** The transmute's precondition on a creation payload. */
  predicate ConfigKnown(lib: Foreign.Library, payload: seq<byte>) {
    lib.parseTranslationModelInit(payload).Some? ==>
      AllKnown(lib.parseTranslationModelInit(payload).value.sourceLanguages) &&
      AllKnown(lib.parseTranslationModelInit(payload).value.targetLanguages)
  }

  /** What `create_translation_model` hands to the allocation: the model with
      the configured languages, or the parse or load failure. */
  function CreateOutcome(lib: Foreign.Library, payload: seq<byte>, load: Load): (r: Result<Model, string>)
    requires ConfigKnown(lib, payload)
    ensures lib.parseTranslationModelInit(payload).None? ==> r == Err(ConfigParseFailure)
    ensures lib.parseTranslationModelInit(payload).Some? && load.LoadFailed? ==> r == Err(LoadFailure)
    ensures r.Ok? <==> lib.parseTranslationModelInit(payload).Some? && load.Loaded?
    ensures r.Ok? ==>
      r.value.TranslationModel? &&
      |r.value.sourceLanguages| == |lib.parseTranslationModelInit(payload).value.sourceLanguages| &&
      |r.value.targetLanguages| == |lib.parseTranslationModelInit(payload).value.targetLanguages| &&
      (forall k :: 0 <= k < |r.value.sourceLanguages| ==>
         r.value.sourceLanguages[k] == ToLibrary(FromU8(lib.parseTranslationModelInit(payload).value.sourceLanguages[k]))) &&
      (forall k :: 0 <= k < |r.value.targetLanguages| ==>
         r.value.targetLanguages[k] == ToLibrary(FromU8(lib.parseTranslationModelInit(payload).value.targetLanguages[k])))
  {
    match lib.parseTranslationModelInit(payload)
    case None => Err(ConfigParseFailure)
    case Some(init) =>
      var sources := ToLibraryLanguages(init.sourceLanguages);
      var targets := ToLibraryLanguages(init.targetLanguages);
      if load.LoadFailed? then Err(LoadFailure)
      else Ok(TranslationModel(sources, targets))
  }

  /** `create_translation_model(init, init_len)`. */
  method CreateTranslationModel(n: Native, init: seq<byte>, initLen: nat, load: Load) returns (code: int)
    requires n.Valid() && initLen <= |init|
    requires ConfigKnown(n.lib, init[..initLen])
    modifies n.models, n`lastError, n`log
    ensures n.Valid()
    ensures n.Created(CreateOutcome(n.lib, init[..initLen], load), code)
    ensures n.log == old(n.log) + [EntryCall("create_translation_model", code)]
  {
    code := n.AllocateModel("create_translation_model", CreateOutcome(n.lib, init[..initLen], load));
  }

  /** The transmute's precondition on a translation payload. */
  predicate InitKnown(lib: Foreign.Library, payload: seq<byte>) {
    lib.parseTranslationInit(payload).Some? ==>
      lib.parseTranslationInit(payload).value.sourceLanguage < LanguageCount as Foreign.u8 &&
      lib.parseTranslationInit(payload).value.targetLanguage < LanguageCount as Foreign.u8
  }

  /** The access closure of `translation_translate`: the model's own
      translation, or a failure. */
  function Translated(lib: Foreign.Library, m: Model, init: Foreign.TranslationInit): Option<seq<string>>
    requires init.sourceLanguage < LanguageCount as Foreign.u8 && init.targetLanguage < LanguageCount as Foreign.u8
  {
    if !m.TranslationModel? then None
    else lib.translate(m.sourceLanguages, m.targetLanguages, init.inputs,
                       ToLibrary(FromU8(init.sourceLanguage)), ToLibrary(FromU8(init.targetLanguage)))
  }

  /** What `translation_translate` answers. Every failure inside the access
      (absent id, other variant, failed translation) surfaces as the one
      context message. */
  function TranslateOutcome(lib: Foreign.Library, models: map<nat, Model>, rid: nat, payload: seq<byte>)
    : (r: Result<seq<byte>, string>)
    requires InitKnown(lib, payload)
    ensures lib.parseTranslationInit(payload).None? ==> r == Err(InitParseFailure)
    ensures lib.parseTranslationInit(payload).Some? && (rid !in models || !models[rid].TranslationModel?) ==>
      r == Err(AccessFailure)
    ensures r.Ok? <==>
      && lib.parseTranslationInit(payload).Some? && rid in models
      && Translated(lib, models[rid], lib.parseTranslationInit(payload).value).Some?
      && lib.stringsJson(Translated(lib, models[rid], lib.parseTranslationInit(payload).value).value).Some?
    ensures r.Ok? ==>
      Some(r.value) == lib.stringsJson(Translated(lib, models[rid], lib.parseTranslationInit(payload).value).value)
  {
    match lib.parseTranslationInit(payload)
    case None => Err(InitParseFailure)
    case Some(init) =>
      if rid !in models then Err(AccessFailure)
      else
        match Translated(lib, models[rid], init)
        case None => Err(AccessFailure)
        case Some(res) =>
          match lib.stringsJson(res)
          case None => Err(SerializeFailure)
          case Some(json) => Ok(json)
  }

  /** No native check ties the requested pair to the languages the model was
      created with: a pair outside both lists reaches `translate` as is, and
      whatever the library answers is the outcome. */
  lemma LanguagesNotChecked(lib: Foreign.Library, models: map<nat, Model>, rid: nat, payload: seq<byte>)
    requires InitKnown(lib, payload) && lib.parseTranslationInit(payload).Some?
    requires rid in models && models[rid].TranslationModel?
    requires ToLibrary(FromU8(lib.parseTranslationInit(payload).value.sourceLanguage)) !in models[rid].sourceLanguages
    requires ToLibrary(FromU8(lib.parseTranslationInit(payload).value.targetLanguage)) !in models[rid].targetLanguages
    ensures TranslateOutcome(lib, models, rid, payload).Ok? <==>
      && Translated(lib, models[rid], lib.parseTranslationInit(payload).value).Some?
      && lib.stringsJson(Translated(lib, models[rid], lib.parseTranslationInit(payload).value).value).Some?
  {
  }

  /** `translation_translate(rid, init, init_len)`. */
  method TranslationTranslate(n: Native, rid: nat, init: seq<byte>, initLen: nat) returns (code: int)
    requires n.Valid() && initLen <= |init|
    requires InitKnown(n.lib, init[..initLen])
    modifies n.models, n`lastResult, n`lastError, n`log
    ensures n.Valid()
    ensures n.models.items == old(n.models.items) && n.models.counter == old(n.models.counter)
    ensures n.Replied(TranslateOutcome(n.lib, old(n.models.items), rid, init[..initLen]), code)
    ensures n.log == old(n.log) + [EntryCall("translation_translate", code)]
  {
    var lib := n.lib;
    var out: Result<seq<byte>, string>;
    var parsed := lib.parseTranslationInit(init[..initLen]);
    if parsed.None? {
      out := Err(InitParseFailure);
    } else {
      var request := parsed.value;
      var res := n.models.WithAccess(rid, (m: Model) =>
        (m, if Translated(lib, m, request).Some? then Ok(Translated(lib, m, request).value) else Err(AccessFailure)));
      if res.Err? {
        out := Err(AccessFailure);
      } else {
        var json := lib.stringsJson(res.value);
        out := if json.Some? then Ok(json.value) else Err(SerializeFailure);
      }
    }
    code := n.Reply("translation_translate", out);
  }
}
