/** `models/qa.ts`: `QAModel.query`. */
module HostQa {
  import opened Wrappers
  import opened Utf8
  import opened Foreign
  import opened NativeLib
  import HostJson
  import opened HostManager
  import NativeQa

  /** `QAQueryInit`; an unset count is `None`. */
  datatype QAQueryInit = QAQueryInit(
    questionGroups: seq<HostJson.QAQuestion>,
    nTopAnswers: Option<usize>,
    batchSize: Option<usize>)

  /** The bytes `qa_query` reads: the first `s.length` bytes of the encoded
      JSON, `s.length` counting UTF-16 units. */
  function SentPayload(s: string): (p: seq<byte>)
    ensures |p| == Utf16Length(s) <= |Encode(s)|
    ensures forall i :: 0 <= i < |p| ==> p[i] == Encode(s)[i]
  {
    Utf16LengthBound(s);
    Encode(s)[..Utf16Length(s)]
  }

  /** The native side sees the whole payload exactly when the JSON text is
      ASCII; otherwise it sees a strict prefix of it. */
  lemma {:induction false} PayloadTruncated(s: string)
    ensures SentPayload(s) == Encode(s) <==> IsAscii(s)
    ensures !IsAscii(s) ==> |SentPayload(s)| < |Encode(s)|
  {
    Utf16LengthBound(s);
    if SentPayload(s) == Encode(s) {
      assert |SentPayload(s)| == |Encode(s)|;
    }
  }

  /** One character is enough: `"é"` is one UTF-16 unit and two bytes. */
  lemma OneAccentTruncates()
    ensures SentPayload("\U{E9}") != Encode("\U{E9}")
  {
    NonAsciiLengths();
  }

  /** `query(init)` as written: `nTopAnswers` defaults to 1 and `batchSize`
      to 32 when unset; the payload is the JSON of `questionGroups` alone,
      sent with `s.length`; the two counts are the 4th and 5th arguments; the
      code goes through `assertCode` and the fetch uses that length. */
  method Query(m: Model, init: QAQueryInit) returns (r: Result<HostJson.JsValue, HostError>)
    requires m.kind == QaKind && m.manager.Valid() && !m.manager.isClosed
    modifies m.manager.native.models, m.manager.native`lastResult, m.manager.native`lastError, m.manager.native`log
    ensures m.manager.Valid()
    ensures m.manager.native.models.items == old(m.manager.native.models.items)
    ensures
      var native := m.manager.native;
      var out := NativeQa.QueryOutcome(native.lib, old(native.models.items), m.rid,
                   SentPayload(m.manager.json.stringifyQuestions(init.questionGroups)),
                   init.nTopAnswers.GetOr(1), init.batchSize.GetOr(32));
      && (out.Ok? ==> r == Parsed(m.manager.json, Decode(out.value)))
      && (out.Err? ==> r == Err(BertMLError(out.error)))
      && native.log == old(native.log) + Exchange("qa_query", out)
  {
    var manager := m.manager;
    var native := manager.native;
    var s := manager.json.stringifyQuestions(init.questionGroups);
    var bytes := Encode(s);
    var len := Utf16Length(s);
    Utf16LengthBound(s);
    var nTopAnswers := init.nTopAnswers.GetOr(1);
    var batchSize := init.batchSize.GetOr(32);
    ghost var out := NativeQa.QueryOutcome(native.lib, native.models.items, m.rid, bytes[..len], nTopAnswers, batchSize);
    var code := NativeQa.QaQuery(native, m.rid, bytes, len, nTopAnswers, batchSize);
    var got := manager.Collect(code, "qa_query", out);
    r := if got.Ok? then Parsed(manager.json, got.value) else Err(got.error);
  }

  /** `query(init)` with the byte length, as every other request sends it:
      the native side parses the whole payload. */
  method QueryCorrected(m: Model, init: QAQueryInit) returns (r: Result<HostJson.JsValue, HostError>)
    requires m.kind == QaKind && m.manager.Valid() && !m.manager.isClosed
    modifies m.manager.native.models, m.manager.native`lastResult, m.manager.native`lastError, m.manager.native`log
    ensures m.manager.Valid()
    ensures m.manager.native.models.items == old(m.manager.native.models.items)
    ensures
      var native := m.manager.native;
      var out := NativeQa.QueryOutcome(native.lib, old(native.models.items), m.rid,
                   Encode(m.manager.json.stringifyQuestions(init.questionGroups)),
                   init.nTopAnswers.GetOr(1), init.batchSize.GetOr(32));
      && (out.Ok? ==> r == Parsed(m.manager.json, Decode(out.value)))
      && (out.Err? ==> r == Err(BertMLError(out.error)))
      && native.log == old(native.log) + Exchange("qa_query", out)
  {
    var manager := m.manager;
    var native := manager.native;
    var bytes := Encode(manager.json.stringifyQuestions(init.questionGroups));
    var nTopAnswers := init.nTopAnswers.GetOr(1);
    var batchSize := init.batchSize.GetOr(32);
    ghost var out := NativeQa.QueryOutcome(native.lib, native.models.items, m.rid, bytes, nTopAnswers, batchSize);
    assert bytes[..|bytes|] == bytes;
    var code := NativeQa.QaQuery(native, m.rid, bytes, |bytes|, nTopAnswers, batchSize);
    var got := manager.Collect(code, "qa_query", out);
    r := if got.Ok? then Parsed(manager.json, got.value) else Err(got.error);
  }
}
