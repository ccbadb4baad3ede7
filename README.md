# bertml: the host/native request protocol

bertml lets a Deno program run rust-bert pipelines. The pipelines include question answering, named entities, sentiment, translation, summarisation, part-of-speech tagging, text generation, zero-shot classification and conversation. They are reached through a native library loaded over FFI.

This project models the two halves of that boundary and proves how they fit together.

- **Native side** (`src/*.rs`).
  - Three resource registries are each a counter and a map from resource id to item: `models`, `model_resources` and `model_resource_accessors`.
  - The two single-value slots `LAST_RESULT` and `LAST_ERROR` are written through `set_result` and `exec`.
  - The channel functions are `fill_result`, `error_len`, `fill_error` and `delete_model`.
  - Every `create_*` and request entry point is modelled as a method on the native state.
  - Each request's answer is a pure `...Outcome` function of the inputs. It lists every error in the order the code checks it, with the exact message text.
- **Host side** (`model_manager.ts`, `model.ts`, `models/*.ts`).
  - `ModelManager` and its `#assertCode` drain of the error slot are modelled.
  - The result fetch is modelled, along with `Model` (a resource id plus the manager) and each proxy class's request method.
  - A request is: encode the JSON, call the entry point with a length, run the code through `assertCode`, fill a buffer of the returned length, then decode and parse.
- **The protocol.** Every call across the boundary is recorded in a call history (`NativeLib.Call`).
  - `HostManager.Paired` states the rule between host and native. A result fill uses exactly the length the preceding call returned. A failed call is drained at once, by `error_len` and a `fill_error` of that length.
  - Every host operation keeps `ModelManager.Valid()` (a sound native state plus a paired history). Its contract states the exact calls it makes (`Exchange`, `Creation`) and the value it returns:
    - the parsed answer when the native answer was `Ok`;
    - `BertMLError` carrying the exact native error text otherwise.
  - That text survives the trip because the UTF-8 model's `Decode(Encode(s)) == s` is proved.

The native model collects everything the crate defines:
- the registry item types take the union of the variants the entry points build;
- the binding table is the native signatures of every symbol the host classes call (see "## Left out" and "## Findings").

Foreign code is abstract. rust-bert's pipelines, the `serde_json` parsers and serialisers, and the host's `JSON` functions are fields of the `Foreign.Library` and `HostJson.Json` records. The model states only how the bertml code combines their answers.

## Model

| member | source | states |
|---|---|---|
| Allocators.Allocator.constructor | src/allocators.rs:36-38 | a registry starts with counter 0, no entries, and its invariant (every live id is below the counter) |
| Allocators.Allocator.Allocate | src/allocators.rs:40-47 | binds the item to the counter's old value, which was unused, returns that id and never fails; the counter then moves past it, so an id is never reused |
| Allocators.Allocator.Deallocate | src/allocators.rs:49-52 | a live id is removed and its item returned; an absent id gives "Failed to deallocate item with resource id of {rid}." and changes nothing; the counter never moves back |
| Allocators.Allocator.WithAccess | src/allocators.rs:54-64 | the closure runs on a live entry, which keeps the closure's changes whether or not it fails; an absent id gives "Failed to get resource with id." without running it |
| Fmt.Decimal | src/qa.rs:81-84 | the `{}` rendering of an id: digits without leading zeros whose decimal value is the id |
| Utf8.EncodeChar | utils/encode.ts:4-5 | one to four bytes per character: one exactly below U+0080 and four exactly from U+10000 |
| Utf8.DecodeFirstOfEncodeChar | utils/decode.ts:4-5 | decoding the bytes of a character followed by anything recovers that character and consumes exactly its bytes |
| Utf8.DecodeEncode | utils/decode.ts:4-5 | `decode(encode(s)) == s` for every string, so text crosses in both directions unchanged |
| Utf8.EncodeIsWellFormed | src/conversation.rs:58-59 | the encoder's output is always valid UTF-8, the condition `from_utf8_unchecked` requires |
| Utf8.Utf16LengthBound | models/qa.ts:44-47 | a string's UTF-16 length (`s.length`) never exceeds its UTF-8 byte length, and equals it exactly when the string is ASCII |
| NativeLib.SwapWithSlice | src/lib.rs:46-50 | after the swap, the buffer holds the slot's bytes and the slot holds the buffer's old bytes |
| NativeLib.Native.constructor | src/lib.rs:21-22 | both slots start empty and the three registries are empty and distinct |
| NativeLib.Native.SetResult | src/lib.rs:25-29 | replaces the result slot and returns the new length |
| NativeLib.Native.Exec | src/lib.rs:32-44 | a success passes its value through and leaves the error slot alone; a failure stores the error's text and returns -1 |
| NativeLib.Native.Reply | src/lib.rs:25-44 | an answer goes to the result slot and its length is returned while the error slot keeps its contents; a failure returns -1 with the error text stored, and the result slot keeps its contents |
| NativeLib.Native.ReplyId | src/qa.rs:8-15 | a created id is returned as the code; a failure returns -1 with its text in the error slot |
| NativeLib.Native.AllocateModel | src/qa.rs:8-15 | a loaded pipeline gets exactly one new `models` entry under the returned id; a load failure returns -1 with its text and no entry |
| NativeLib.Native.FillResult | src/lib.rs:46-50 | with a buffer of the slot's length, the caller gets the result bytes and the slot keeps the buffer's old bytes (it is not emptied) |
| NativeLib.Native.ErrorLen | src/lib.rs:52-55 | returns the error slot's length and changes no state |
| NativeLib.Native.FillError | src/lib.rs:57-61 | with a buffer of the slot's length, the caller gets the error bytes and the slot keeps the buffer's old bytes |
| NativeLib.Native.DeleteModel | src/lib.rs:63-69 | 0 and the entry removed for a live id, -1 otherwise; the error slot and the other registries are untouched |
| CopiedLanguage.Index | src/translation.rs:28-131 | every library language has a declaration index below 100, and the variant declared at that index is that language |
| CopiedLanguage.Discriminant | src/translation.rs:8-12 | the `repr(u8)` discriminant of every copied variant is below the variant count |
| CopiedLanguage.FromU8OfDiscriminant | src/translation.rs:21-23 | `from_u8` inverts the discriminant on every variant |
| CopiedLanguage.DiscriminantInjective | src/translation.rs:8-12 | distinct copied variants have distinct discriminants |
| CopiedLanguage.IndexOfDeclared | src/translation.rs:28-131 | reading the declaration list back gives each position: no library language is declared twice |
| CopiedLanguage.FromU8ToLibraryInjective | src/translation.rs:14-23 | `from(from_u8(n))` is injective on the 100 discriminants: distinct codes name distinct library languages |
| NativeQa.ToQaInput | src/qa.rs:32-39 | question and context copied into the library's input |
| NativeQa.FromQaInput | src/qa.rs:23-30 | question and context copied back |
| NativeQa.InputRoundTrip | src/qa.rs:23-39 | the two input conversions are inverse to each other, in both directions |
| NativeQa.ToQaInputs | src/qa.rs:72-75 | same length, each input converted in place |
| NativeQa.FromAnswer | src/qa.rs:49-58 | score, start, end and answer all copied |
| NativeQa.FromAnswers | src/qa.rs:95 | same length, each answer converted in place |
| NativeQa.FromAnswerGroups | src/qa.rs:93-96 | one group per question, each group converted in place |
| NativeQa.AnswerShape | src/qa.rs:93-96 | outer and inner lengths preserved and each answer converted at its own position |
| NativeQa.AsI64 | src/qa.rs:88 | `answers_len as i64`: a value in the i64 range, non-negative exactly when the count is below 2^63, and congruent to the count modulo 2^64 |
| NativeQa.CreateQaModel | src/qa.rs:8-15 | a new question answering entry, or -1 with "Failed to create question answering model." |
| NativeQa.QueryOutcome | src/qa.rs:61-102 | the parse failure first, then the id and the variant, then the model's own error; success exactly when all of them pass and serialisation succeeds, and the answer is then the serialised converted answers |
| NativeQa.QaQuery | src/qa.rs:61-102 | reads the first `inputs_len` bytes, returns `QueryOutcome` through the slots, and leaves the registry unchanged |
| NativeNer.FromEntity | src/ner.rs:22-30 | word, score and label copied |
| NativeNer.FromEntities | src/ner.rs:55 | same length, each entity converted in place |
| NativeNer.FromEntityGroups | src/ner.rs:53-56 | one group per input, each converted in place |
| NativeNer.OffsetDropped | src/ner.rs:22-30 | entities that differ only in their offset convert alike: the offset never reaches the host |
| NativeNer.CreateNerModel | src/ner.rs:7-13 | a new NER entry, or -1 with "Failed to create NER model." |
| NativeNer.PredictOutcome | src/ner.rs:33-63 | the parse failure first, then the id and the variant; success exactly when serialisation succeeds, with the serialised converted entities |
| NativeNer.NerPredict | src/ner.rs:33-63 | `PredictOutcome` of the first `input_len` bytes through the slots; the registry unchanged |
| NativeSentiment.FromSentiment | src/sentiment.rs:21-31 | polarity 0 exactly for a negative sentiment and 1 for every other; the score copied |
| NativeSentiment.FromSentiments | src/sentiment.rs:53 | same length, same order |
| NativeSentiment.CreateSentimentModel | src/sentiment.rs:7-13 | a new sentiment entry, or -1 with "Failed to load sentiment model." |
| NativeSentiment.PredictOutcome | src/sentiment.rs:34-59 | the parse failure, then the id and the variant; success exactly when serialisation succeeds |
| NativeSentiment.SentimentPredict | src/sentiment.rs:34-59 | `PredictOutcome` of the given bytes through the slots; the registry unchanged |
| NativeTranslation.ToLibraryLanguages | src/translation.rs:148-155 | each discriminant read as the variant declared at it and mapped to the library language, in order |
| NativeTranslation.CreateOutcome | src/translation.rs:141-163 | a config parse failure, then a load failure; otherwise a translation model holding exactly the configured source and target languages, in order |
| NativeTranslation.CreateTranslationModel | src/translation.rs:141-163 | allocates `CreateOutcome` of the first `init_len` bytes |
| NativeTranslation.TranslateOutcome | src/translation.rs:174-208 | an init parse failure, then every access failure as "Failed to access translation model."; success exactly when the model translates and the result serialises |
| NativeTranslation.LanguagesNotChecked | src/translation.rs:183-201 | a requested pair outside the model's configured languages is not refused: the outcome is whatever the library answers |
| NativeTranslation.TranslationTranslate | src/translation.rs:174-208 | `TranslateOutcome` through the slots; the registry unchanged |
| NativeSummarization.CreateSummarizationModel | src/summarization.rs:6-13 | a new summarisation entry, or -1 with the load failure text |
| NativeSummarization.SummarizeOutcome | src/summarization.rs:16-41 | the parse failure, then the id and the variant; success exactly when serialisation succeeds |
| NativeSummarization.SummarizationSummarize | src/summarization.rs:16-41 | `SummarizeOutcome` through the slots; the registry unchanged |
| NativeTextGeneration.CreateTextGenerationModel | src/text_generation.rs:7-14 | a new text generation entry, or -1 with the load failure text |
| NativeTextGeneration.GenerateOutcome | src/text_generation.rs:23-46 | inputs and optional prefix reach the library as parsed; the parse failure, then the id and the variant |
| NativeTextGeneration.TextGenerationGenerate | src/text_generation.rs:23-46 | `GenerateOutcome` through the slots; the registry unchanged |
| NativePosTagging.CreatePosModel | src/pos_tagging.rs:6-13 | a new POS entry, or -1 with the load failure text |
| NativePosTagging.PredictOutcome | src/pos_tagging.rs:16-32 | a parse failure keeps the parser's own text, then the id and the variant; success exactly when serialisation succeeds |
| NativePosTagging.PosPredict | src/pos_tagging.rs:16-32 | `PredictOutcome` through the slots; the registry unchanged |
| NativeZeroShot.CreateZeroShotModel | src/zero_shot_classification.rs:7-14 | a new zero-shot entry, or -1 with the load failure text |
| NativeZeroShot.PredictOutcome | src/zero_shot_classification.rs:20-28 | 0 exactly when the payload parses as a list of strings, otherwise "Failed to parse zero shot input."; the id plays no part |
| NativeZeroShot.ZeroShotPredict | src/zero_shot_classification.rs:20-28 | the outcome's code without touching any registry or the result slot |
| NativeConversation.CreateConversationModel | src/conversation.rs:8-16 | a new conversation model entry, or -1 with the library's own load error |
| NativeConversation.CreateConversationManager | src/conversation.rs:18-26 | an empty manager under a fresh `model_resources` id, which never fails |
| NativeConversation.CreateConversation | src/conversation.rs:28-47 | a live manager gets one new empty conversation under the freshly drawn uuid, so no existing conversation is displaced, and a fresh accessor id is bound to it; an absent manager gives -1 and "Failed to get resource with id.", and no accessor is created |
| NativeConversation.Send | src/conversation.rs:83-112 | a missing conversation is refused, and so is input the conversation cannot take; once the input is added, a missing or wrong model fails but the stored conversation keeps the input; otherwise the answer is this conversation's response, or "Failed to get conversation model response." |
| NativeConversation.FailedSendKeepsInput | src/conversation.rs:87-100 | a send that reaches a wrong model id still leaves the user input added to the manager's conversation |
| NativeConversation.SendOutcome | src/conversation.rs:49-117 | the accessor is looked up first and then the manager; an absent id fails; only the manager's entry can change, and the set of ids is unchanged |
| NativeConversation.SendAnswerIsResponse | src/conversation.rs:104-112 | a successful send answers valid UTF-8 |
| NativeConversation.ConversationSend | src/conversation.rs:49-117 | the managers registry becomes `SendOutcome`'s, and its answer goes through the slots |
| Bindings.FillErrorArityMismatch | model_manager.ts:49 | the host declares `fill_error` with one parameter, and the native function takes two |
| Bindings.DeleteModelResultMismatch | model_manager.ts:50 | the host reads `delete_model`'s `i32` result as an `isize` |
| Bindings.HostSymbolsOtherwiseMatch | model_manager.ts:10-51 | every other declared symbol has exactly the native signature |
| Bindings.UnboundCalls | model_manager.ts:10-51 | exactly eight symbols the classes call are not declared, and `zero_shot_predict_multilabel` is not defined natively either |
| Bindings.CorrectedMatchesNative | src/lib.rs:57-69 | the binding table the model uses matches the native signatures on every symbol called, including both parameters of `fill_error` |
| HostManager.PairedAppend | model_manager.ts:86-95 | a paired exchange appended to a paired history leaves it paired |
| HostManager.ExchangePaired | models/ner.ts:20-24 | a request's calls (the call and its fill or drain) are paired on their own |
| HostManager.CreationPaired | model_manager.ts:113-118 | a creation's calls are paired on their own |
| HostManager.Zeros | models/ner.ts:23 | `new Uint8Array(n)`: n zero bytes |
| HostManager.Parsed | models/ner.ts:26 | `JSON.parse`: the parsed value exactly when the text parses, otherwise `SyntaxError` |
| HostManager.ModelManager.constructor | model_manager.ts:107-111 | a fresh library state with an empty history, no models, and not closed |
| HostManager.ModelManager.AssertCode | model_manager.ts:86-95 | a non-negative code passes through with nothing changed; a negative code drains the error slot with `error_len` and a `fill_error` of that length, and raises `BertMLError` with exactly the decoded error text |
| HostManager.ModelManager.GetResultString | models/pos.ts:28 | with the length the call just returned, fills a zero buffer and decodes the result bytes, which keeps the history paired; any other length aborts in native code |
| HostManager.ModelManager.Collect | models/ner.ts:20-26 | after a request call, an answer `Ok(v)` becomes the text `v` decodes to, and `Err(e)` becomes `BertMLError(e)`; the history gains exactly the request's exchange and stays paired |
| HostManager.ModelManager.AssertCreated | model_manager.ts:114 | after a creation call, the id is returned with the error slot kept, or `BertMLError` with the native text; the history stays paired |
| HostManager.ModelManager.Register | model_manager.ts:113-118 | a created id becomes a fresh `Model` of the given kind on this manager, appended to `#models`; a failure appends nothing |
| HostManager.ModelManager.CreateQAModel | model_manager.ts:113-118 | on load, a fresh QA model under the next native id, recorded in both registries; otherwise `BertMLError` with the load failure text and nothing registered |
| HostManager.ModelManager.CreateNERModel | model_manager.ts:120-125 | the same for a NER model |
| HostManager.ModelManager.CreateSentimentModel | model_manager.ts:127-134 | the same for a sentiment model |
| HostManager.ModelManager.CreateTranslationModel | model_manager.ts:136-147 | the config's JSON is sent with its byte length; the native creation outcome decides the model, which keeps the config it was created with |
| HostManager.ModelManager.Close | model_manager.ts:149-152 | runs the library's close once and sets the closed flag, with no guard against a second close |
| HostManager.Model.constructor | model.ts:15-18 | id, manager and kind fixed at construction |
| HostManager.Model.Close | model.ts:20-22 | one `delete_model(rid)`: the id leaves the native registry; the status is recorded but never read |
| HostQa.SentPayload | models/qa.ts:44-47 | the bytes `qa_query` reads: the first `s.length` bytes of the encoded JSON |
| HostQa.PayloadTruncated | models/qa.ts:44-47 | the native side sees the whole payload exactly when the JSON is ASCII, and a strict prefix otherwise |
| HostQa.OneAccentTruncates | models/qa.ts:47 | a single `"é"` already truncates the payload |
| HostQa.Query | models/qa.ts:40-50 | as written: the counts default to 1 and 32, and the native query's outcome on the truncated payload becomes the parsed answer or `BertMLError` with the native text |
| HostQa.QueryCorrected | models/qa.ts:40-50 | the same with the byte length, so the native side parses the whole JSON |
| HostNer.Predict | models/ner.ts:17-27 | the native outcome on the encoded JSON of the texts becomes the parsed answer or `BertMLError` with the native text; the protocol stays paired |
| HostSentiment.PolarityValue | models/sentiment.ts:6-9 | each member's number is 0 or 1 |
| HostSentiment.PolarityOf | models/sentiment.ts:6-9 | the reverse mapping names a member exactly for 0 and 1 |
| HostSentiment.PolarityRoundTrip | models/sentiment.ts:6-9 | the number and the reverse mapping are inverse to each other |
| HostSentiment.PolarityMatchesNative | src/sentiment.rs:24-27 | the number the native side writes names the host member of the same meaning |
| HostSentiment.Predict | models/sentiment.ts:26-33 | the native sentiment outcome becomes the parsed answer or `BertMLError`; the registry unchanged |
| HostTranslation.Translate | models/translation/mod.ts:25-38 | the native translation outcome on the encoded request becomes the parsed answer or `BertMLError` |
| HostSummarization.Summarize | models/summarization.ts:12-20 | the native summarisation outcome becomes the parsed answer or `BertMLError` |
| HostPos.Predict | models/pos.ts:22-29 | the native POS outcome becomes the parsed answer or `BertMLError` |
| HostTextGeneration.Generate | models/text_generation.ts:19-27 | the native generation outcome on the encoded init becomes the parsed answer or `BertMLError` |
| HostZeroShot.ZeroShotPredictInit.Payload | models/zero_shot_classification.ts:6-11 | the object's three fields, as serialised |
| HostZeroShot.DefaultMaxLength | models/zero_shot_classification.ts:27 | `maxLength` becomes 128 only when unset, written into the caller's object |
| HostZeroShot.Dispatch | models/zero_shot_classification.ts:29-34 | a parse failure raises `BertMLError`. A 0 fetches an empty result only when the slot is empty (parsing `""`, a `SyntaxError`); when an earlier result is still in the slot, it aborts in native code |
| HostZeroShot.Predict | models/zero_shot_classification.ts:26-35 | the defaulted object's JSON is sent; as the native side parses only an array of strings, every call raises `BertMLError("Failed to parse zero shot input.")` after exactly one call and its error drain |
| HostZeroShot.PredictMultilabel | models/zero_shot_classification.ts:38-47 | the default is written, then the call of an unbound symbol throws before anything reaches the native side |
| HostConversation.CreateConversationManager | models/conversation.ts:102-106 | always yields a manager on the next `model_resources` id, holding an empty map, with the error slot kept |
| HostConversation.ConversationManager.CreateConversation | models/conversation.ts:88-93 | a live manager gains an empty conversation under `uuid`, and the host gets a conversation with an empty history on the new accessor id that names it, with the error slot kept; `includeHistory` is defaulted in the caller's object. An absent manager raises `BertMLError` and creates nothing |
| HostConversation.Conversation.constructor | models/conversation.ts:31-40 | `includeHistory` defaults to false in the caller's object, and the history starts empty |
| HostConversation.Conversation.Dispatch | models/conversation.ts:43-62 | the native send's outcome: an answer's text is exactly what the native side answered, and a failure raises `BertMLError`; only the manager registry changes |
| HostConversation.Conversation.SendMessage | models/conversation.ts:43-67 | the round trip, then the pair is appended to the history exactly when the send succeeded and `includeHistory` is true; otherwise the history is unchanged |

## Left out

- Inference itself, including pipeline loading, `serde_json` parsing and serialisation, and the host's `JSON.stringify`/`JSON.parse`: these are uninterpreted functions. Whether loading a pipeline succeeds is a parameter (`Foreign.Load`).
- Floating-point scores are opaque 64-bit values. They are copied, never computed.
- Concurrency: the `Mutex` locks, the non-blocking FFI calls and the host's `await` ordering are not modelled. Calls are modelled as one sequential history.
- `Deno.dlopen`, `lib.close` and the `Deno.core` encode/decode built-ins are not modelled.
- Utf8.Encode, Utf8.Utf16Length: host strings are taken to be strings of Unicode scalar values. A JavaScript string can hold an unpaired surrogate, which `TextEncoder` turns into EF BF BD and `s.length` counts as one unit. Messages and payloads holding one are outside the model.
- HostZeroShot.Predict: requires that the native string-array parser refuse every serialised `ZeroShotPredictInit` (`ObjectRefused`). This is a fact about `serde_json` refusing a JSON object where an array is expected, and the foreign codecs are abstract here. `HostZeroShot.Dispatch` states the general outcome without it.
- NativeConversation.CreateConversation: requires the drawn uuid to be fresh in its manager, since `create_empty` draws until it is. The drawing loop is not modelled.
- Utf8.Decode: bytes that are not well-formed UTF-8 become one U+FFFD per byte. `TextDecoder` groups maximal invalid subparts. Only well-formed input, which is all the protocol ever sends, is decoded exactly.
- The uuid drawn by `create_empty` is a parameter of `NativeConversation.CreateConversation`.
- Integer widths:
  - ids and lengths are unbounded naturals. A registry counter that overflows `usize` is not modelled.
  - the `answers_len as i64` cast is modelled (`NativeQa.AsI64`).
  - a JavaScript number that is not a valid `usize` is outside the model.
- `models/translation/language.ts` is not part of this model. A host `Language` is taken as the number it serialises to.
- NativeTranslation.TranslateOutcome: `src/translation.rs:201` applies `??` to a value that has already been unwrapped, so the code does not type-check as written. The model takes the evident reading, with one `?`. Every failure inside the access then shows only the outer context, "Failed to access translation model.".
- NativeTranslation.CreateTranslationModel: requires every discriminant in the config to name a variant (`ConfigKnown`). `from_u8` is an unchecked transmute, and undefined behaviour is outside the model. `TranslationTranslate` requires the same of the requested pair (`InitKnown`).
- Allocators.Model: the enum at `src/allocators.rs:4-10` lacks the summarisation, text generation, POS and zero-shot variants that their entry points build. The model uses the union of all the variants the crate constructs.
- The module list at `src/lib.rs:1-8` omits `summarization` and `text_generation`. The model treats their entry points as exported, which is what their `#[no_mangle]` and the host classes expect.
- ModelManager provides `create*` methods only for QA, NER, sentiment and translation. A `Model` of the other kinds is built with `HostManager.Model.constructor`, as the base class allows.
- HostManager.ModelManager.GetResultString: `ModelManager` defines no `helpers` member, so `helpers.getResultString` at the call sites would throw a `TypeError` once the native answer is already in the slot. The model gives the manager the helper its callers evidently expect: a zero buffer of the returned length, then `fill_result`, then decode.
- `symbolDefinitions` (`model_manager.ts:10-51`) lacks eight of the symbols the classes call (`Bindings.UnboundCalls`). The model binds every called symbol the crate defines, with its native signature (`Bindings.CorrectedSymbols`). The exception is `zero_shot_predict_multilabel`, which is defined nowhere and stays unbound (`HostZeroShot.PredictMultilabel`).
- A `fill_*` length other than the slot's length (a `swap_with_slice` panic) ends in `HostError.NativeAbort`. Unwinding across `extern "C"` is not modelled further.
- HostManager host methods: use after `ModelManager.close()` is a precondition (`!isClosed`). Calling into an unloaded library has no defined result to model.
- `#models` is appended to but never read in the source. It is kept as a sequence of `Model`s.
- Conversation `history`: the read-only view is the sequence itself.
- HostZeroShot.PredictMultilabel: the TypeError's message text is not modelled, only the symbol it names.
- The POS answer is serialised by the library as it returns it. Its nesting is not modelled.

## Findings

| source | as written | input that shows it | evidently intended | confidence | as-written member | corrected member |
|---|---|---|---|---|---|---|
| model_manager.ts:49 | `fill_error` is declared with one `buffer` parameter; the native `fill_error` (`src/lib.rs:57-61`) also reads `buf_len`, which the host never passes | any failing call, e.g. `ner_predict` on a payload that is not JSON: the drain's second argument is whatever the register holds, so `from_raw_parts_mut` gets an arbitrary length | declare `["buffer", "usize"]` and pass the buffer's length, as `fill_result` does | not executed | Bindings.FillErrorArityMismatch | Bindings.CorrectedMatchesNative |
| models/qa.ts:47 | `qa_query` is given `s.length`, the UTF-16 length of the JSON, as the byte length of its UTF-8 encoding | a question or context containing `"é"`: the native side reads a strict prefix of the JSON and answers "Failed to parse question answering model inputs." | pass `bytes.length`, as every other request does | not executed | HostQa.OneAccentTruncates | HostQa.QueryCorrected |
| model_manager.ts:50 | `delete_model` is declared to return `isize`; the native function returns `i32` (`src/lib.rs:64`) | `delete_model` of an absent id: the -1 comes back in a 32-bit register that the host reads as 64 bits | declare the result `i32` | not executed | Bindings.DeleteModelResultMismatch | Bindings.CorrectedMatchesNative |
