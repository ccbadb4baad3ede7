/** What the native crate sees of the code it calls but does not own: the
    `rust_bert` pipelines (their value types and their inference functions)
    and `serde_json` over the crate's own `#[derive(Serialize, Deserialize)]`
    payload structs. Inference and (de)serialisation are not modelled; they
    are arrow-typed fields of `Library`, so every property proved below holds
    for every behaviour they may have. */
module Foreign {
  import opened Wrappers
  import opened Utf8

  /** The FFI's unsigned integers (`usize` is 64 bits on the supported targets). */
  type usize = x: int | 0 <= x < 0x1_0000_0000_0000_0000
  newtype u8 = x: int | 0 <= x < 256

  /** An `f64` score, carried but never inspected. */
  datatype F64 = F64(bits: bv64)

  /** `uuid::Uuid`, the key of a conversation inside a conversation manager. */
  type Uuid = nat

  /** `rust_bert::pipelines::translation::Language`. */
  datatype Language =
      Afrikaans | Danish | Dutch | German | English | Icelandic | Luxembourgish
    | Norwegian | Swedish | WesternFrisian | Yiddish | Asturian | Catalan | French
    | Galician | Italian | Occitan | Portuguese | Romanian | Spanish | Belarusian
    | Bosnian | Bulgarian | Croatian | Czech | Macedonian | Polish | Russian | Serbian
    | Slovak | Slovenian | Ukrainian | Estonian | Finnish | Hungarian | Latvian
    | Lithuanian | Albanian | Armenian | Georgian | Greek | Breton | Irish
    | ScottishGaelic | Welsh | Azerbaijani | Bashkir | Kazakh | Turkish | Uzbek
    | Japanese | Korean | Vietnamese | ChineseMandarin | Bengali | Gujarati | Hindi
    | Kannada | Marathi | Nepali | Oriya | Panjabi | Sindhi | Sinhala | Urdu | Tamil
    | Cebuano | Iloko | Indonesian | Javanese | Malagasy | Malay | Malayalam | Sundanese
    | Tagalog | Burmese | CentralKhmer | Lao | Thai | Mongolian | Arabic | Hebrew
    | Pashto | Farsi | Amharic | Fulah | Hausa | Igbo | Lingala | Luganda | NorthernSotho
    | Somali | Swahili | Swati | Tswana | Wolof | Xhosa | Yoruba | Zulu | HaitianCreole

  // rust_bert pipeline value types

  datatype QaInput = QaInput(question: string, context: string)
  datatype Answer = Answer(score: F64, start: usize, end: usize, answer: string)
  datatype SentimentPolarity = Positive | Negative
  datatype Sentiment = Sentiment(polarity: SentimentPolarity, score: F64)
  datatype Entity = Entity(word: string, score: F64, labelName: string, offset: (usize, usize))
  datatype POSTag = POSTag(word: string, score: F64, labelName: string)

  /** A conversation kept by a `ConversationManager`: past turns and the
      user input not yet answered. */
  datatype Conversation = Conversation(
    pastUserInputs: seq<string>,
    generatedResponses: seq<string>,
    newUserInput: Option<string>)

  const EmptyConversation := Conversation([], [], None)

  // The crate's serde payload structs

  datatype JSQaInput = JSQaInput(question: string, context: string)
  datatype JsQaAnswer = JsQaAnswer(score: F64, start: usize, end: usize, answer: string)
  datatype JSSentiment = JSSentiment(polarity: u8, score: F64)
  datatype NEREntity = NEREntity(word: string, score: F64, labelName: string)
  datatype TranslationModelInit = TranslationModelInit(sourceLanguages: seq<u8>, targetLanguages: seq<u8>)
  datatype TranslationInit = TranslationInit(inputs: seq<string>, sourceLanguage: u8, targetLanguage: u8)
  datatype TextGenerationInit = TextGenerationInit(inputs: seq<string>, prefix: Option<string>)

  /** The foreign behaviour the entry points depend on. `serde_json::from_slice`
      is partial (`None`, or the error text where the crate propagates it);
      `parseBorrowedStrings` is the `Vec<&str>` target, which also refuses
      strings that would need unescaping;
      `serde_json::to_vec` may fail (`None`). */
  datatype Library = Library(
    parseStrings: seq<byte> -> Result<seq<string>, string>,
    parseBorrowedStrings: seq<byte> -> Option<seq<string>>,
    parseQaInputs: seq<byte> -> Option<seq<JSQaInput>>,
    parseTranslationModelInit: seq<byte> -> Option<TranslationModelInit>,
    parseTranslationInit: seq<byte> -> Option<TranslationInit>,
    parseTextGenerationInit: seq<byte> -> Option<TextGenerationInit>,
    answersJson: seq<seq<JsQaAnswer>> -> Option<seq<byte>>,
    sentimentsJson: seq<JSSentiment> -> Option<seq<byte>>,
    entitiesJson: seq<seq<NEREntity>> -> Option<seq<byte>>,
    stringsJson: seq<string> -> Option<seq<byte>>,
    posTagsJson: seq<POSTag> -> Option<seq<byte>>,
    qaPredict: (seq<QaInput>, int, usize) -> Result<seq<seq<Answer>>, string>,
    sentimentPredict: seq<string> -> seq<Sentiment>,
    nerPredict: seq<string> -> seq<seq<Entity>>,
    translate: (seq<Language>, seq<Language>, seq<string>, Language, Language) -> Option<seq<string>>,
    summarize: seq<string> -> seq<string>,
    generate: (seq<string>, Option<string>) -> seq<string>,
    posPredict: seq<string> -> seq<POSTag>,
    addUserInput: (Conversation, string) -> Result<Conversation, string>,
    generateResponses: map<Uuid, Conversation> -> (map<Uuid, Conversation>, map<Uuid, string>))
}
