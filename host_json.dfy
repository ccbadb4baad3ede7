/** What the host sees of `JSON.stringify` and `JSON.parse`, and the host's
    request shapes. Both functions are left abstract: the proofs hold for
    every serialiser and every parser. */
module HostJson {
  import opened Wrappers
  import Foreign

  /** A parsed JSON value: what `JSON.parse` returns, before any
      TypeScript type assertion (which is not checked at run time). */
  datatype JsValue =
    | JsNull
    | JsBool(b: bool)
    | JsNumber(n: Foreign.F64)
    | JsString(s: string)
    | JsArray(elements: seq<JsValue>)
    | JsObject(members: seq<(string, JsValue)>)

  /** `QAQuestion` of `models/qa.ts`. */
  datatype QAQuestion = QAQuestion(context: string, question: string)

  /** A `Language` of the host is the number its enum member stands for. */
  type Language = nat

  datatype TranslationModelInit = TranslationModelInit(sourceLanguages: seq<Language>, targetLanguages: seq<Language>)
  datatype TranslateInit = TranslateInit(inputs: seq<string>, sourceLanguage: Language, targetLanguage: Language)

  /** `TextGenerationInit`; an unset `prefix` is `None` (and `JSON.stringify`
      leaves it out). */
  datatype TextGenerationInit = TextGenerationInit(inputs: seq<string>, prefix: Option<string>)

  /** The fields of a `ZeroShotPredictInit` object at the moment it is
      serialised. */
  datatype ZeroShotPayload = ZeroShotPayload(inputs: seq<string>, labels: seq<string>, maxLength: Option<int>)

  datatype Json = Json(
    stringifyStrings: seq<string> -> string,
    stringifyQuestions: seq<QAQuestion> -> string,
    stringifyTranslationModelInit: TranslationModelInit -> string,
    stringifyTranslateInit: TranslateInit -> string,
    stringifyTextGenerationInit: TextGenerationInit -> string,
    stringifyZeroShot: ZeroShotPayload -> string,
    /** `None` where `JSON.parse` throws a `SyntaxError`. */
    parse: string -> Option<JsValue>)
}
