/** `src/zero_shot_classification.rs`: the zero-shot pipeline's entry points.
    Prediction is a stub: it only checks that the payload parses. */
module NativeZeroShot {
  import opened Wrappers
  import opened Utf8
  import opened Foreign
  import opened Allocators
  import opened NativeLib

  const LoadFailure := "Failed to create zero shot classification model."
  const ParseFailure := "Failed to parse zero shot input."

  /** `create_zero_shot_model`. */
  method CreateZeroShotModel(n: Native, load: Load) returns (code: int)
    requires n.Valid()
    modifies n.models, n`lastError, n`log
    ensures n.Valid()
    ensures n.Created(if load.Loaded? then Ok(ZeroShotClassificationModel) else Err(LoadFailure), code)
    ensures n.log == old(n.log) + [EntryCall("create_zero_shot_model", code)]
  {
    code := n.AllocateModel("create_zero_shot_model",
      if load.Loaded? then Ok(ZeroShotClassificationModel) else Err(LoadFailure));
  }

  /** What `zero_shot_predict` answers: 0 when the payload is a JSON array of
      strings, the parse failure otherwise. The id plays no part. */
  function PredictOutcome(lib: Library, payload: seq<byte>): (r: Result<int, string>)
    ensures r.Ok? <==> lib.parseStrings(payload).Ok?
    ensures r.Ok? ==> r.value == 0
    ensures r.Err? ==> r.error == ParseFailure
  {
    if lib.parseStrings(payload).Ok? then Ok(0) else Err(ParseFailure)
  }

  /** `zero_shot_predict(rid, buf, buf_len)`: no registry is read and the
      result slot is never written, so a 0 does not describe the slot. */
  method ZeroShotPredict(n: Native, rid: nat, buf: seq<byte>, bufLen: nat) returns (code: int)
    requires bufLen <= |buf|
    modifies n`lastError, n`log
    ensures PredictOutcome(n.lib, buf[..bufLen]).Ok? ==> code == 0 && n.lastError == old(n.lastError)
    ensures PredictOutcome(n.lib, buf[..bufLen]).Err? ==> code == -1 && n.lastError == Encode(ParseFailure)
    ensures n.log == old(n.log) + [EntryCall("zero_shot_predict", code)]
  {
    code := n.Exec(PredictOutcome(n.lib, buf[..bufLen]));
    n.log := n.log + [EntryCall("zero_shot_predict", code)];
  }
}
