/** `src/qa.rs`: the question answering pipeline's entry points. */
module NativeQa {
  import opened Wrappers
  import opened Utf8
  import opened Foreign
  import opened Allocators
  import opened NativeLib
  import Fmt

  const LoadFailure := "Failed to create question answering model."
  const ParseFailure := "Failed to parse question answering model inputs."
  const SerializeFailure := "Failed to serialize answers."

  function WrongModel(rid: nat): string {
    "Expected question answering model at resource id " + Fmt.Decimal(rid) + "."
  }

  /** `From<JSQaInput> for QaInput`. */
  function ToQaInput(i: JSQaInput): (q: QaInput)
    ensures q.question == i.question && q.context == i.context
  {
    QaInput(i.question, i.context)
  }

  /** `From<QaInput> for JSQaInput`. */
  function FromQaInput(q: QaInput): (i: JSQaInput)
    ensures i.question == q.question && i.context == q.context
  {
    JSQaInput(q.question, q.context)
  }

  /** The two input conversions are inverse to each other. */
  lemma InputRoundTrip(i: JSQaInput, q: QaInput)
    ensures FromQaInput(ToQaInput(i)) == i
    ensures ToQaInput(FromQaInput(q)) == q
  {
  }

  /** The `map(|i| QaInput::from(i)).collect()` over the parsed inputs. */
  function ToQaInputs(js: seq<JSQaInput>): (qs: seq<QaInput>)
    ensures |qs| == |js|
    ensures forall k :: 0 <= k < |js| ==> qs[k] == ToQaInput(js[k])
  {
    if js == [] then [] else [ToQaInput(js[0])] + ToQaInputs(js[1..])
  }

  /** `From<Answer> for JsQaAnswer`: every field copied. */
  function FromAnswer(a: Answer): (j: JsQaAnswer)
    ensures j.score == a.score && j.start == a.start && j.end == a.end && j.answer == a.answer
  {
    JsQaAnswer(a.score, a.start, a.end, a.answer)
  }

  function FromAnswers(answers: seq<Answer>): (js: seq<JsQaAnswer>)
    ensures |js| == |answers|
    ensures forall k :: 0 <= k < |answers| ==> js[k] == FromAnswer(answers[k])
  {
    if answers == [] then [] else [FromAnswer(answers[0])] + FromAnswers(answers[1..])
  }

  /** The nested conversion of the answers: one group per question, each in
      the model's order. */
  function FromAnswerGroups(groups: seq<seq<Answer>>): (js: seq<seq<JsQaAnswer>>)
    ensures |js| == |groups|
    ensures forall g :: 0 <= g < |groups| ==> js[g] == FromAnswers(groups[g])
  {
    if groups == [] then [] else [FromAnswers(groups[0])] + FromAnswerGroups(groups[1..])
  }

  /** Shape preservation spelled out: the same outer and inner lengths and
      each answer converted in place. */
  lemma AnswerShape(groups: seq<seq<Answer>>, g: nat, k: nat)
    requires g < |groups| && k < |groups[g]|
    ensures |FromAnswerGroups(groups)[g]| == |groups[g]|
    ensures FromAnswerGroups(groups)[g][k] == FromAnswer(groups[g][k])
  {
  }

  /** `answers_len as i64`: a `usize` at or above 2^63 wraps to a negative count. */
  function AsI64(n: usize): (r: int)
    ensures -0x8000_0000_0000_0000 <= r < 0x8000_0000_0000_0000
    ensures 0 <= r <==> n < 0x8000_0000_0000_0000
    ensures (r - n) % 0x1_0000_0000_0000_0000 == 0
  {
    if n < 0x8000_0000_0000_0000 then n else n - 0x1_0000_0000_0000_0000
  }

  /** `create_qa_model`. */
  method CreateQaModel(n: Native, load: Load) returns (code: int)
    requires n.Valid()
    modifies n.models, n`lastError, n`log
    ensures n.Valid()
    ensures n.Created(if load.Loaded? then Ok(QuestionAnsweringModel) else Err(LoadFailure), code)
    ensures n.log == old(n.log) + [EntryCall("create_qa_model", code)]
  {
    code := n.AllocateModel("create_qa_model",
      if load.Loaded? then Ok(QuestionAnsweringModel) else Err(LoadFailure));
  }

  /** What `qa_query` answers: the parse first, then the id and its variant,
      then the model's own failure, then the serialised answers. The two
      counts reach `predict` as given, the first one cast to `i64`. */
  function QueryOutcome(lib: Library, models: map<nat, Model>, rid: nat, payload: seq<byte>,
                        answersLen: usize, batchSize: usize): (r: Result<seq<byte>, string>)
    ensures lib.parseQaInputs(payload).None? ==> r == Err(ParseFailure)
    ensures lib.parseQaInputs(payload).Some? && rid !in models ==> r == Err(NoSuchResource)
    ensures lib.parseQaInputs(payload).Some? && rid in models && !models[rid].QuestionAnsweringModel? ==>
      r == Err(WrongModel(rid))
    ensures r.Ok? <==>
      && lib.parseQaInputs(payload).Some? && rid in models && models[rid].QuestionAnsweringModel?
      && lib.qaPredict(ToQaInputs(lib.parseQaInputs(payload).value), AsI64(answersLen), batchSize).Ok?
      && lib.answersJson(FromAnswerGroups(
           lib.qaPredict(ToQaInputs(lib.parseQaInputs(payload).value), AsI64(answersLen), batchSize).value)).Some?
    ensures r.Ok? ==>
      Some(r.value) == lib.answersJson(FromAnswerGroups(
        lib.qaPredict(ToQaInputs(lib.parseQaInputs(payload).value), AsI64(answersLen), batchSize).value))
    ensures
      && lib.parseQaInputs(payload).Some? && rid in models && models[rid].QuestionAnsweringModel?
      && lib.qaPredict(ToQaInputs(lib.parseQaInputs(payload).value), AsI64(answersLen), batchSize).Err? ==>
      r == Err(lib.qaPredict(ToQaInputs(lib.parseQaInputs(payload).value), AsI64(answersLen), batchSize).error)
  {
    match lib.parseQaInputs(payload)
    case None => Err(ParseFailure)
    case Some(inputs) =>
      if rid !in models then Err(NoSuchResource)
      else if !models[rid].QuestionAnsweringModel? then Err(WrongModel(rid))
      else
        match lib.qaPredict(ToQaInputs(inputs), AsI64(answersLen), batchSize)
        case Err(e) => Err(e)
        case Ok(answers) =>
          match lib.answersJson(FromAnswerGroups(answers))
          case None => Err(SerializeFailure)
          case Some(json) => Ok(json)
  }

  /** `qa_query(rid, inputs, inputs_len, answers_len, batch_size)`: reads
      `inputs_len` bytes. */
  method QaQuery(n: Native, rid: nat, inputs: seq<byte>, inputsLen: nat, answersLen: usize, batchSize: usize)
    returns (code: int)
    requires n.Valid() && inputsLen <= |inputs|
    modifies n.models, n`lastResult, n`lastError, n`log
    ensures n.Valid()
    ensures n.models.items == old(n.models.items) && n.models.counter == old(n.models.counter)
    ensures n.Replied(QueryOutcome(n.lib, old(n.models.items), rid, inputs[..inputsLen], answersLen, batchSize), code)
    ensures n.log == old(n.log) + [EntryCall("qa_query", code)]
  {
    var lib := n.lib;
    var out: Result<seq<byte>, string>;
    var parsed := lib.parseQaInputs(inputs[..inputsLen]);
    if parsed.None? {
      out := Err(ParseFailure);
    } else {
      var qs := ToQaInputs(parsed.value);
      var k := AsI64(answersLen);
      var answers := n.models.WithAccess(rid, (m: Model) =>
        (m, if m.QuestionAnsweringModel? then Ok(lib.qaPredict(qs, k, batchSize)) else Err(WrongModel(rid))));
      if answers.Err? {
        out := Err(answers.error);
      } else if answers.value.Err? {
        out := Err(answers.value.error);
      } else {
        var json := lib.answersJson(FromAnswerGroups(answers.value.value));
        out := if json.Some? then Ok(json.value) else Err(SerializeFailure);
      }
    }
    code := n.Reply("qa_query", out);
  }
}
