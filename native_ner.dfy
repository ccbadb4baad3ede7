/** `src/ner.rs`: the named-entity pipeline's entry points. */
module NativeNer {
  import opened Wrappers
  import opened Utf8
  import opened Foreign
  import opened Allocators
  import opened NativeLib
  import Fmt

  const LoadFailure := "Failed to create NER model."
  const ParseFailure := "Failed to parse NER model input."
  const SerializeFailure := "Failed to serialize entities response from NER model."

  function WrongModel(rid: nat): string {
    "Expected NER Model at resource id " + Fmt.Decimal(rid) + "."
  }

  /** `From<ner::Entity> for NEREntity`: word, score and label are copied;
      the offset is dropped. */
  function FromEntity(e: Entity): (j: NEREntity)
    ensures j.word == e.word && j.score == e.score && j.labelName == e.labelName
  {
    NEREntity(e.word, e.score, e.labelName)
  }

  function FromEntities(es: seq<Entity>): (js: seq<NEREntity>)
    ensures |js| == |es|
    ensures forall k :: 0 <= k < |es| ==> js[k] == FromEntity(es[k])
  {
    if es == [] then [] else [FromEntity(es[0])] + FromEntities(es[1..])
  }

  /** One group of entities per input, each group in the model's order. */
  function FromEntityGroups(groups: seq<seq<Entity>>): (js: seq<seq<NEREntity>>)
    ensures |js| == |groups|
    ensures forall g :: 0 <= g < |groups| ==> js[g] == FromEntities(groups[g])
  {
    if groups == [] then [] else [FromEntities(groups[0])] + FromEntityGroups(groups[1..])
  }

  /** Two entities that differ only in their offsets convert alike: the
      offset never reaches the host. */
  lemma OffsetDropped(e: Entity, offset: (usize, usize))
    ensures FromEntity(e.(offset := offset)) == FromEntity(e)
  {
  }

  /** `create_ner_model`. */
  method CreateNerModel(n: Native, load: Load) returns (code: int)
    requires n.Valid()
    modifies n.models, n`lastError, n`log
    ensures n.Valid()
    ensures n.Created(if load.Loaded? then Ok(NERModel) else Err(LoadFailure), code)
    ensures n.log == old(n.log) + [EntryCall("create_ner_model", code)]
  {
    code := n.AllocateModel("create_ner_model",
      if load.Loaded? then Ok(NERModel) else Err(LoadFailure));
  }

  /** What `ner_predict` answers for a payload. */
  function PredictOutcome(lib: Library, models: map<nat, Model>, rid: nat, payload: seq<byte>)
    : (r: Result<seq<byte>, string>)
    ensures lib.parseStrings(payload).Err? ==> r == Err(ParseFailure)
    ensures lib.parseStrings(payload).Ok? && rid !in models ==> r == Err(NoSuchResource)
    ensures lib.parseStrings(payload).Ok? && rid in models && !models[rid].NERModel? ==>
      r == Err(WrongModel(rid))
    ensures r.Ok? <==>
      && lib.parseStrings(payload).Ok? && rid in models && models[rid].NERModel?
      && lib.entitiesJson(FromEntityGroups(lib.nerPredict(lib.parseStrings(payload).value))).Some?
    ensures r.Ok? ==>
      Some(r.value) == lib.entitiesJson(FromEntityGroups(lib.nerPredict(lib.parseStrings(payload).value)))
  {
    match lib.parseStrings(payload)
    case Err(_) => Err(ParseFailure)
    case Ok(input) =>
      if rid !in models then Err(NoSuchResource)
      else if !models[rid].NERModel? then Err(WrongModel(rid))
      else
        match lib.entitiesJson(FromEntityGroups(lib.nerPredict(input)))
        case None => Err(SerializeFailure)
        case Some(json) => Ok(json)
  }

  /** `ner_predict(rid, input, input_len)`. */
  method NerPredict(n: Native, rid: nat, input: seq<byte>, inputLen: nat) returns (code: int)
    requires n.Valid() && inputLen <= |input|
    modifies n.models, n`lastResult, n`lastError, n`log
    ensures n.Valid()
    ensures n.models.items == old(n.models.items) && n.models.counter == old(n.models.counter)
    ensures n.Replied(PredictOutcome(n.lib, old(n.models.items), rid, input[..inputLen]), code)
    ensures n.log == old(n.log) + [EntryCall("ner_predict", code)]
  {
    var lib := n.lib;
    var out: Result<seq<byte>, string>;
    var parsed := lib.parseStrings(input[..inputLen]);
    if parsed.Err? {
      out := Err(ParseFailure);
    } else {
      var strings := parsed.value;
      var entities := n.models.WithAccess(rid, (m: Model) =>
        (m, if m.NERModel? then Ok(lib.nerPredict(strings)) else Err(WrongModel(rid))));
      if entities.Err? {
        out := Err(entities.error);
      } else {
        var json := lib.entitiesJson(FromEntityGroups(entities.value));
        out := if json.Some? then Ok(json.value) else Err(SerializeFailure);
      }
    }
    code := n.Reply("ner_predict", out);
  }
}
