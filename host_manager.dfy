/** `model_manager.ts` and `model.ts`: the host's side of the boundary. A
    `ModelManager` owns the loaded native library; a `Model` is a resource
    id together with the manager it was created through. */
module HostManager {
  import opened Wrappers
  import opened Utf8
  import opened Foreign
  import opened NativeLib
  import Allocators
  import HostJson
  import NativeQa
  import NativeNer
  import NativeSentiment
  import NativeTranslation

  /** What a host call can throw. */
  datatype HostError =
    | /** `BertMLError`, whose name and message are both the native error text. */
      BertMLError(message: string)
    | /** `JSON.parse` refused the result text. */
      SyntaxError
    | /** The bound symbol does not exist, so the call is of `undefined`. */
      NotAFunction(symbol: string)
    | /** A `fill_*` call with a length other than the slot's panics inside
          native code; the process does not survive it. */
      NativeAbort

  /** Which proxy class a `Model` is. The translation model keeps the
      `init` it was created with. */
  datatype Kind =
    | QaKind | NerKind | SentimentKind | TranslationKind(init: HostJson.TranslationModelInit)
    | SummarizationKind | PosKind | TextGenerationKind | ZeroShotKind | ConversationKind

  /** The protocol's pairing rule at position `i` of a call history: a
      result fill uses the length the call just before it returned; an
      error drain follows a failed call, and its fill uses the length
      `error_len` just reported; a failed call is drained at once. */
  predicate Linked(log: seq<Call>, i: nat)
    requires i < |log|
  {
    match log[i]
    case FillResultCall(k) => i > 0 && log[i - 1].EntryCall? && log[i - 1].code == k
    case ErrorLenCall(_) => i > 0 && log[i - 1].EntryCall? && log[i - 1].code < 0
    case FillErrorCall(k) => i > 0 && log[i - 1] == ErrorLenCall(k)
    case EntryCall(_, c) => c < 0 ==> i + 1 < |log| && log[i + 1].ErrorLenCall?
    case DeleteModelCall(_, _) => true
  }

  predicate Paired(log: seq<Call>) {
    forall i :: 0 <= i < |log| ==> Linked(log, i)
  }

  /** A history that starts with a call of its own rather than with a fill
      or a drain. */
  predicate Starts(seg: seq<Call>) {
    |seg| > 0 && (seg[0].EntryCall? || seg[0].DeleteModelCall?)
  }

  /** Well-paired histories compose: a paired exchange appended to a paired
      history leaves it paired. This is what lets every host operation
      keep `ModelManager.Valid`. */
  lemma {:induction false} PairedAppend(log: seq<Call>, seg: seq<Call>)
    requires Paired(log) && Paired(seg) && Starts(seg)
    ensures Paired(log + seg)
  {
    var all := log + seg;
    forall i | 0 <= i < |all| ensures Linked(all, i) {
      if i < |log| {
        assert Linked(log, i);
        assert all[i] == log[i];
        if i > 0 { assert all[i - 1] == log[i - 1]; }
        if i + 1 < |log| { assert all[i + 1] == log[i + 1]; }
      } else {
        var j := i - |log|;
        assert Linked(seg, j);
        assert all[i] == seg[j];
        if j > 0 { assert all[i - 1] == seg[j - 1]; }
        if j + 1 < |seg| { assert all[i + 1] == seg[j + 1]; }
      }
    }
  }

  /** The calls one request makes, given what the native side answered: the
      call, then either the fill of the result's length or the error drain
      of the error text's length. */
  function Exchange(name: string, out: Result<seq<byte>, string>): seq<Call> {
    match out
    case Ok(v) => [EntryCall(name, |v|), FillResultCall(|v|)]
    case Err(e) => [EntryCall(name, -1), ErrorLenCall(|Encode(e)|), FillErrorCall(|Encode(e)|)]
  }

  /** The calls one creation makes: the call, and the drain if it failed. */
  function Creation(name: string, out: Result<nat, string>): seq<Call> {
    match out
    case Ok(rid) => [EntryCall(name, rid)]
    case Err(e) => [EntryCall(name, -1), ErrorLenCall(|Encode(e)|), FillErrorCall(|Encode(e)|)]
  }

  lemma ExchangePaired(name: string, out: Result<seq<byte>, string>)
    ensures Paired(Exchange(name, out)) && Starts(Exchange(name, out))
  {
    var seg := Exchange(name, out);
    forall i | 0 <= i < |seg| ensures Linked(seg, i) { }
  }

  lemma CreationPaired(name: string, out: Result<nat, string>)
    ensures Paired(Creation(name, out)) && Starts(Creation(name, out))
  {
    var seg := Creation(name, out);
    forall i | 0 <= i < |seg| ensures Linked(seg, i) { }
  }

  /** `n` zero bytes: a fresh `Uint8Array(n)`. */
  function Zeros(n: nat): (z: seq<byte>)
    ensures |z| == n && forall i :: 0 <= i < n ==> z[i] == 0
  {
    seq(n, _ => 0)
  }

  /** `JSON.parse` of a result text. */
  function Parsed(json: HostJson.Json, text: string): (r: Result<HostJson.JsValue, HostError>)
    ensures r.Ok? <==> json.parse(text).Some?
    ensures r.Ok? ==> r.value == json.parse(text).value
    ensures r.Err? ==> r.error == SyntaxError
  {
    match json.parse(text)
    case None => Err(SyntaxError)
    case Some(v) => Ok(v)
  }

  class ModelManager {
    /** The loaded library (`Deno.dlopen`) and its process state. */
    const native: Native
    /** The host's JSON functions. */
    const json: HostJson.Json
    /** `#models`: appended to by the `create*` methods, never read. */
    var models: seq<Model>
    var isClosed: bool
    /** How many times `#close`, the library's `close`, has run. */
    var closeCount: nat
    ghost const Repr: set<object>

    /** The objects are laid out as built and the native state is sound. */
    ghost predicate Sound()
      reads this, Repr
    {
      Repr == {this, native} + native.Repr && native.Valid()
    }

    /** Between host operations every exchange with the native side is
        complete and paired. */
    ghost predicate Valid()
      reads this, Repr
    {
      Sound() && Paired(native.log)
    }

    /** Just after a native call that returned `code`, before the host has
        looked at it. */
    ghost predicate Dispatched(code: int)
      reads this, Repr
    {
      && Sound() && |native.log| > 0
      && native.log[|native.log| - 1].EntryCall? && native.log[|native.log| - 1].code == code
      && Paired(native.log[..|native.log| - 1])
    }

    /** `new ModelManager()`, with the loaded library's foreign code given. */
    constructor (lib: Library, json: HostJson.Json)
      ensures Valid() && fresh(Repr)
      ensures native.lib == lib && this.json == json
      ensures native.log == [] && native.models.items == map[]
      ensures models == [] && !isClosed && closeCount == 0
    {
      var n := new Native(lib);
      native := n;
      this.json := json;
      models := [];
      isClosed := false;
      closeCount := 0;
      Repr := {this, n} + n.Repr;
    }

    /** `#assertCode`: a non-negative code is returned as it is with no
        native call; a negative one costs exactly one `error_len` and one
        `fill_error` with a buffer of that length, and becomes a
        `BertMLError` with the error slot's text. */
    method AssertCode(code: int) returns (r: Result<nat, HostError>)
      requires Sound()
      modifies native`lastError, native`log
      ensures Sound()
      ensures code >= 0 ==> r == Ok(code) && native.log == old(native.log) && native.lastError == old(native.lastError)
      ensures code < 0 ==>
        && r == Err(BertMLError(Decode(old(native.lastError))))
        && native.log == old(native.log) + [ErrorLenCall(|old(native.lastError)|), FillErrorCall(|old(native.lastError)|)]
        && native.lastError == Zeros(|old(native.lastError)|)
      ensures old(Dispatched(code)) && code >= 0 ==> Dispatched(code)
      ensures old(Dispatched(code)) && code < 0 ==> Valid()
    {
      if code >= 0 {
        return Ok(code);
      }
      ghost var before := native.log;
      var len := native.ErrorLen();
      var buf := new byte[len](_ => 0);
      assert buf[..] == Zeros(len);
      native.FillError(buf, len);
      r := Err(BertMLError(Decode(buf[..])));
      if old(Dispatched(code)) {
        var seg := before[|before| - 1..] + [ErrorLenCall(len), FillErrorCall(len)];
        assert native.log == before[..|before| - 1] + seg;
        forall i | 0 <= i < |seg| ensures Linked(seg, i) { }
        PairedAppend(before[..|before| - 1], seg);
      }
    }

    /** `getResultString(len)`: a buffer of `len` zero bytes, `fill_result`
        with that length, the buffer decoded. It is called right after the
        call that returned `len`. When `len` is not the result slot's length
        the fill panics. */
    method GetResultString(len: nat) returns (r: Result<string, HostError>)
      requires Dispatched(len)
      modifies native`lastResult, native`log
      ensures Valid()
      ensures len == |old(native.lastResult)| ==>
        && r == Ok(Decode(old(native.lastResult)))
        && native.log == old(native.log) + [FillResultCall(len)]
        && native.lastResult == Zeros(len)
      ensures len != |old(native.lastResult)| ==>
        r == Err(NativeAbort) && native.log == old(native.log) && native.lastResult == old(native.lastResult)
    {
      ghost var before := native.log;
      var prefix := before[..|before| - 1];
      assert before == prefix + before[|before| - 1..];
      if len != |native.lastResult| {
        r := Err(NativeAbort);
        var seg := before[|before| - 1..];
        forall i | 0 <= i < |seg| ensures Linked(seg, i) { }
        PairedAppend(prefix, seg);
        return;
      }
      var buf := new byte[len](_ => 0);
      assert buf[..] == Zeros(len);
      native.FillResult(buf, len);
      r := Ok(Decode(buf[..]));
      var seg := before[|before| - 1..] + [FillResultCall(len)];
      assert native.log == prefix + seg;
      forall i | 0 <= i < |seg| ensures Linked(seg, i) { }
      PairedAppend(prefix, seg);
    }

    /** The tail every request shares: the code through `assertCode`, then
        the result fetched with exactly the length it returned. `out` is
        what the native call answered. */
    method Collect(code: int, ghost name: string, ghost out: Result<seq<byte>, string>)
      returns (r: Result<string, HostError>)
      requires Sound()
      requires native.log != [] && native.log[|native.log| - 1] == Exchange(name, out)[0]
      requires Paired(native.log[..|native.log| - 1])
      requires out.Ok? ==> code == |out.value| && native.lastResult == out.value
      requires out.Err? ==> code == -1 && native.lastError == Encode(out.error)
      modifies native`lastResult, native`lastError, native`log
      ensures Valid()
      ensures out.Ok? ==> r == Ok(Decode(out.value))
      ensures out.Err? ==> r == Err(BertMLError(out.error))
      ensures native.log == old(native.log)[..|old(native.log)| - 1] + Exchange(name, out)
    {
      var a := AssertCode(code);
      if a.Err? {
        DecodeEncode(out.error);
        return Err(a.error);
      }
      r := GetResultString(a.value);
    }

    /** The code of a creation call through `assertCode`, with the drain
        when it failed. `out` is what the native call answered. */
    method AssertCreated(code: int, ghost name: string, ghost out: Result<nat, string>)
      returns (r: Result<nat, HostError>)
      requires Sound()
      requires native.log != [] && native.log[|native.log| - 1] == Creation(name, out)[0]
      requires Paired(native.log[..|native.log| - 1])
      requires out.Ok? ==> code == out.value
      requires out.Err? ==> code == -1 && native.lastError == Encode(out.error)
      modifies native`lastError, native`log
      ensures Valid()
      ensures out.Ok? ==> r == Ok(out.value) && native.lastError == old(native.lastError)
      ensures out.Err? ==> r == Err(BertMLError(out.error))
      ensures native.log == old(native.log)[..|old(native.log)| - 1] + Creation(name, out)
    {
      ghost var prefix := native.log[..|native.log| - 1];
      assert native.log == prefix + Creation(name, out)[..1];
      assert Dispatched(code);
      r := AssertCode(code);
      if r.Err? {
        DecodeEncode(out.error);
        return;
      }
      CreationPaired(name, out);
      PairedAppend(prefix, Creation(name, out));
      assert native.log == prefix + Creation(name, out);
    }

    /** The tail every `create*` shares: the code through `assertCode`,
        then the proxy built and listed. A failed creation lists nothing. */
    method Register(code: int, kind: Kind, ghost name: string, ghost out: Result<nat, string>)
      returns (r: Result<Model, HostError>)
      requires Sound()
      requires native.log != [] && native.log[|native.log| - 1] == Creation(name, out)[0]
      requires Paired(native.log[..|native.log| - 1])
      requires out.Ok? ==> code == out.value
      requires out.Err? ==> code == -1 && native.lastError == Encode(out.error)
      modifies this`models, native`lastError, native`log
      ensures Valid()
      ensures out.Ok? ==>
        && r.Ok? && fresh(r.value) && r.value.manager == this && r.value.rid == out.value && r.value.kind == kind
        && models == old(models) + [r.value]
      ensures out.Err? ==> r == Err(BertMLError(out.error)) && models == old(models)
      ensures native.log == old(native.log)[..|old(native.log)| - 1] + Creation(name, out)
    {
      var rid := AssertCreated(code, name, out);
      if rid.Err? {
        return Err(rid.error);
      }
      var m := new Model(this, rid.value, kind);
      models := models + [m];
      r := Ok(m);
    }

    /** `createQAModel`. */
    method CreateQAModel(load: Load) returns (r: Result<Model, HostError>)
      requires Valid() && !isClosed
      modifies this`models, native.models, native`lastError, native`log
      ensures Valid()
      ensures load.Loaded? ==>
        && r.Ok? && fresh(r.value) && r.value.manager == this && r.value.kind == QaKind
        && r.value.rid == old(native.models.counter)
        && native.models.items == old(native.models.items)[r.value.rid := Allocators.QuestionAnsweringModel]
        && models == old(models) + [r.value]
      ensures load.LoadFailed? ==>
        && r == Err(BertMLError(NativeQa.LoadFailure))
        && native.models.items == old(native.models.items) && models == old(models)
      ensures native.log == old(native.log) + Creation("create_qa_model",
        if load.Loaded? then Ok(old(native.models.counter)) else Err(NativeQa.LoadFailure))
    {
      ghost var out: Result<nat, string> :=
        if load.Loaded? then Ok(native.models.counter) else Err(NativeQa.LoadFailure);
      var code := NativeQa.CreateQaModel(native, load);
      r := Register(code, QaKind, "create_qa_model", out);
    }

    /** `createNERModel`. */
    method CreateNERModel(load: Load) returns (r: Result<Model, HostError>)
      requires Valid() && !isClosed
      modifies this`models, native.models, native`lastError, native`log
      ensures Valid()
      ensures load.Loaded? ==>
        && r.Ok? && fresh(r.value) && r.value.manager == this && r.value.kind == NerKind
        && r.value.rid == old(native.models.counter)
        && native.models.items == old(native.models.items)[r.value.rid := Allocators.NERModel]
        && models == old(models) + [r.value]
      ensures load.LoadFailed? ==>
        && r == Err(BertMLError(NativeNer.LoadFailure))
        && native.models.items == old(native.models.items) && models == old(models)
      ensures native.log == old(native.log) + Creation("create_ner_model",
        if load.Loaded? then Ok(old(native.models.counter)) else Err(NativeNer.LoadFailure))
    {
      ghost var out: Result<nat, string> :=
        if load.Loaded? then Ok(native.models.counter) else Err(NativeNer.LoadFailure);
      var code := NativeNer.CreateNerModel(native, load);
      r := Register(code, NerKind, "create_ner_model", out);
    }

    /** `createSentimentModel`. */
    method CreateSentimentModel(load: Load) returns (r: Result<Model, HostError>)
      requires Valid() && !isClosed
      modifies this`models, native.models, native`lastError, native`log
      ensures Valid()
      ensures load.Loaded? ==>
        && r.Ok? && fresh(r.value) && r.value.manager == this && r.value.kind == SentimentKind
        && r.value.rid == old(native.models.counter)
        && native.models.items == old(native.models.items)[r.value.rid := Allocators.SentimentModel]
        && models == old(models) + [r.value]
      ensures load.LoadFailed? ==>
        && r == Err(BertMLError(NativeSentiment.LoadFailure))
        && native.models.items == old(native.models.items) && models == old(models)
      ensures native.log == old(native.log) + Creation("create_sentiment_model",
        if load.Loaded? then Ok(old(native.models.counter)) else Err(NativeSentiment.LoadFailure))
    {
      ghost var out: Result<nat, string> :=
        if load.Loaded? then Ok(native.models.counter) else Err(NativeSentiment.LoadFailure);
      var code := NativeSentiment.CreateSentimentModel(native, load);
      r := Register(code, SentimentKind, "create_sentiment_model", out);
    }

    /** `createTranslationModel(init)`: the config's JSON, encoded, with its
        byte length. The languages it names must be ones the native enum
        declares (the native side transmutes them unchecked). */
    method CreateTranslationModel(init: HostJson.TranslationModelInit, load: Load)
      returns (r: Result<Model, HostError>)
      requires Valid() && !isClosed
      requires NativeTranslation.ConfigKnown(native.lib, Encode(json.stringifyTranslationModelInit(init)))
      modifies this`models, native.models, native`lastError, native`log
      ensures Valid()
      ensures
        var created := NativeTranslation.CreateOutcome(native.lib, Encode(json.stringifyTranslationModelInit(init)), load);
        && (created.Ok? ==>
              && r.Ok? && fresh(r.value) && r.value.manager == this && r.value.kind == TranslationKind(init)
              && r.value.rid == old(native.models.counter)
              && native.models.items == old(native.models.items)[r.value.rid := created.value]
              && models == old(models) + [r.value])
        && (created.Err? ==>
              && r == Err(BertMLError(created.error))
              && native.models.items == old(native.models.items) && models == old(models))
        && native.log == old(native.log) + Creation("create_translation_model",
             if created.Ok? then Ok(old(native.models.counter)) else Err(created.error))
    {
      var bytes := Encode(json.stringifyTranslationModelInit(init));
      ghost var created := NativeTranslation.CreateOutcome(native.lib, bytes, load);
      ghost var out: Result<nat, string> :=
        if created.Ok? then Ok(native.models.counter) else Err(created.error);
      assert bytes[..|bytes|] == bytes;
      var code := NativeTranslation.CreateTranslationModel(native, bytes, |bytes|, load);
      r := Register(code, TranslationKind(init), "create_translation_model", out);
    }

    /** `close`: runs the library's close and sets the flag, with no guard,
        so a second `close` closes the library again. Listed models are
        left as they are. */
    method Close()
      modifies this`isClosed, this`closeCount
      ensures isClosed && closeCount == old(closeCount) + 1
    {
      closeCount := closeCount + 1;
      isClosed := true;
    }
  }

  /** `Model`: the id and the manager are fixed at construction. */
  class Model {
    const manager: ModelManager
    const rid: nat
    const kind: Kind

    constructor (manager: ModelManager, rid: nat, kind: Kind)
      ensures this.manager == manager && this.rid == rid && this.kind == kind
    {
      this.manager := manager;
      this.rid := rid;
      this.kind := kind;
    }

    /** `close`: one `delete_model(rid)`, its status neither awaited nor
        checked, no guard against a second call, and the model stays in its
        manager's list. */
    method Close()
      requires manager.Valid() && !manager.isClosed
      modifies manager.native.models, manager.native`log
      ensures manager.Valid()
      ensures manager.native.models.items == old(manager.native.models.items) - {rid}
      ensures manager.native.log ==
        old(manager.native.log) + [DeleteModelCall(rid, if rid in old(manager.native.models.items) then 0 else -1)]
    {
      var native := manager.native;
      ghost var before := native.log;
      var status := native.DeleteModel(rid);
      var seg := [DeleteModelCall(rid, status)];
      forall i | 0 <= i < |seg| ensures Linked(seg, i) { }
      PairedAppend(before, seg);
    }
  }
}
