/** The FFI symbol tables: the host's `symbolDefinitions` as written in
    `model_manager.ts`, the signatures the native crate defines, and the
    binding table the rest of this model uses. */
module Bindings {

  datatype FfiType = USize | ISize | I32 | Buffer | Void

  datatype Signature = Signature(parameters: seq<FfiType>, result: FfiType)

  /** `symbolDefinitions` as written. */
  const HostSymbols: map<string, Signature> := map[
    "create_qa_model" := Signature([], ISize),
    "qa_query" := Signature([USize, Buffer, USize, USize, USize], ISize),
    "create_ner_model" := Signature([], ISize),
    "ner_predict" := Signature([USize, Buffer, USize], ISize),
    "create_sentiment_model" := Signature([], ISize),
    "sentiment_predict" := Signature([USize, Buffer, USize], ISize),
    "create_translation_model" := Signature([Buffer, USize], ISize),
    "translation_translate" := Signature([USize, Buffer, USize], ISize),
    "error_len" := Signature([], USize),
    "fill_result" := Signature([Buffer, USize], Void),
    "fill_error" := Signature([Buffer], Void),
    "delete_model" := Signature([USize], ISize)]

  /** The `extern "C"` functions the crate's sources define (a `*const u8`
      or `*mut u8` parameter is a `Buffer`). */
  const NativeExports: map<string, Signature> := map[
    "create_qa_model" := Signature([], ISize),
    "qa_query" := Signature([USize, Buffer, USize, USize, USize], ISize),
    "create_ner_model" := Signature([], ISize),
    "ner_predict" := Signature([USize, Buffer, USize], ISize),
    "create_sentiment_model" := Signature([], ISize),
    "sentiment_predict" := Signature([USize, Buffer, USize], ISize),
    "create_translation_model" := Signature([Buffer, USize], ISize),
    "translation_translate" := Signature([USize, Buffer, USize], ISize),
    "create_summarization_model" := Signature([], ISize),
    "summarization_summarize" := Signature([USize, Buffer, USize], ISize),
    "create_text_generation_model" := Signature([], ISize),
    "text_generation_generate" := Signature([USize, Buffer, USize], ISize),
    "create_pos_model" := Signature([], ISize),
    "pos_predict" := Signature([USize, Buffer, USize], ISize),
    "create_zero_shot_model" := Signature([], ISize),
    "zero_shot_predict" := Signature([USize, Buffer, USize], ISize),
    "create_conversation_model" := Signature([], ISize),
    "create_conversation_manager" := Signature([], ISize),
    "create_conversation" := Signature([USize], ISize),
    "conversation_send" := Signature([USize, USize, USize, Buffer, USize], ISize),
    "error_len" := Signature([], USize),
    "fill_result" := Signature([Buffer, USize], Void),
    "fill_error" := Signature([Buffer, USize], Void),
    "delete_model" := Signature([USize], I32)]

  /** The symbols the host's classes call through `bindings`. */
  const HostCalls: set<string> := {
    "create_qa_model", "qa_query", "create_ner_model", "ner_predict",
    "create_sentiment_model", "sentiment_predict", "create_translation_model",
    "translation_translate", "summarization_summarize", "text_generation_generate",
    "pos_predict", "zero_shot_predict", "zero_shot_predict_multilabel",
    "create_conversation_manager", "create_conversation", "conversation_send",
    "error_len", "fill_result", "fill_error", "delete_model"}

  /** A binding is sound when the host declares exactly the native signature. */
  predicate Matches(table: map<string, Signature>, name: string) {
    name in table && name in NativeExports && table[name] == NativeExports[name]
  }

  /** `fill_error` is declared with one parameter, but the native function
      reads a second one, the buffer length, which the host never passes. */
  lemma FillErrorArityMismatch()
    ensures HostSymbols["fill_error"].parameters == [Buffer]
    ensures NativeExports["fill_error"].parameters == [Buffer, USize]
    ensures !Matches(HostSymbols, "fill_error")
  {
  }

  /** `delete_model` returns an `i32`, which the host reads as an `isize`. */
  lemma DeleteModelResultMismatch()
    ensures HostSymbols["delete_model"].result == ISize && NativeExports["delete_model"].result == I32
    ensures !Matches(HostSymbols, "delete_model")
  {
  }

  /** Every other declared symbol matches the native definition. */
  lemma HostSymbolsOtherwiseMatch()
    ensures forall name :: name in HostSymbols && name != "fill_error" && name != "delete_model" ==>
      Matches(HostSymbols, name)
  {
  }

  /** Eight symbols the classes call are not declared, so the call is of
      `undefined`; one of them is not defined natively either. */
  lemma UnboundCalls()
    ensures HostCalls - HostSymbols.Keys == {
      "summarization_summarize", "text_generation_generate", "pos_predict",
      "zero_shot_predict", "zero_shot_predict_multilabel",
      "create_conversation_manager", "create_conversation", "conversation_send"}
    ensures "zero_shot_predict_multilabel" !in NativeExports
  {
  }

  /** The binding table this model uses: every called symbol the native
      crate defines, with the native signature. */
  const CorrectedSymbols: map<string, Signature> := map name | name in HostCalls && name in NativeExports :: NativeExports[name]

  lemma CorrectedMatchesNative()
    ensures forall name :: name in CorrectedSymbols ==> Matches(CorrectedSymbols, name)
    ensures CorrectedSymbols.Keys == HostCalls - {"zero_shot_predict_multilabel"}
    ensures CorrectedSymbols["fill_error"] == Signature([Buffer, USize], Void)
  {
  }
}
