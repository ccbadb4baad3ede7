/** The native module's process state and its channel functions: the
    single-slot `LAST_ERROR` and `LAST_RESULT`, `set_result`, `exec`,
    `fill_result`, `error_len`, `fill_error` and `delete_model`. */
module NativeLib {
  import opened Wrappers
  import opened Utf8
  import opened Foreign
  import opened Allocators

  /** One call across the FFI boundary, as the native side returns it. The
      history of these calls is kept only to state the host/native protocol. */
  datatype Call =
    | EntryCall(name: string, code: int)
    | ErrorLenCall(len: nat)
    | FillErrorCall(bufLen: nat)
    | FillResultCall(bufLen: nat)
    | DeleteModelCall(rid: nat, status: int)

  /** `buf.swap_with_slice(slot)` for a slot of the buffer's length: the
      buffer receives the slot's bytes and the slot the buffer's. */
  method SwapWithSlice(buf: array<byte>, slot: seq<byte>) returns (swapped: seq<byte>)
    requires buf.Length == |slot|
    modifies buf
    ensures buf[..] == slot
    ensures swapped == old(buf[..])
  {
    swapped := slot;
    var i := 0;
    while i < buf.Length
      invariant 0 <= i <= buf.Length && |swapped| == |slot|
      invariant forall k :: 0 <= k < i ==> buf[k] == slot[k] && swapped[k] == old(buf[k])
      invariant forall k :: i <= k < buf.Length ==> buf[k] == old(buf[k]) && swapped[k] == slot[k]
    {
      var b := buf[i];
      buf[i] := swapped[i];
      swapped := swapped[i := b];
      i := i + 1;
    }
  }

  /** The native module's static state. */
  class Native {
    /** The foreign code the entry points call. */
    const lib: Library
    /** The three independent registries. */
    const models: Allocator<Model>
    const resources: Allocator<ModelResource>
    const accessors: Allocator<ModelResourceAccessor>
    /** `LAST_ERROR` and `LAST_RESULT`. */
    var lastError: seq<byte>
    var lastResult: seq<byte>
    /** The calls made so far across the boundary. */
    var log: seq<Call>
    ghost const Repr: set<object>

    ghost predicate Valid()
      reads this, Repr
    {
      && Repr == {this, models, resources, accessors}
      && models as object != resources as object
      && models as object != accessors as object
      && resources as object != accessors as object
      && models.Valid() && resources.Valid() && accessors.Valid()
    }

    constructor (lib: Library)
      ensures Valid() && fresh(Repr)
      ensures this.lib == lib && lastError == [] && lastResult == [] && log == []
      ensures models.counter == 0 && models.items == map[]
      ensures resources.counter == 0 && resources.items == map[]
      ensures accessors.counter == 0 && accessors.items == map[]
    {
      this.lib := lib;
      var m := new Allocator<Model>();
      var r := new Allocator<ModelResource>();
      var a := new Allocator<ModelResourceAccessor>();
      models, resources, accessors := m, r, a;
      lastError, lastResult, log := [], [], [];
      Repr := {this, m, r, a};
    }

    /** `set_result`: replaces the result slot and returns the new length. */
    method SetResult(v: seq<byte>) returns (len: nat)
      modifies this`lastResult
      ensures lastResult == v && len == |v|
    {
      len := |v|;
      lastResult := v;
    }

    /** `exec`: a success passes its value through and leaves the error slot
        alone; a failure stores the error's text and becomes -1. */
    method Exec(r: Result<int, string>) returns (code: int)
      modifies this`lastError
      ensures r.Ok? ==> code == r.value && lastError == old(lastError)
      ensures r.Err? ==> code == -1 && lastError == Encode(r.error)
    {
      match r
      case Ok(v) => code := v;
      case Err(e) =>
        lastError := Encode(e);
        code := -1;
    }

    /** The tail shared by every request-style entry point: a serialised
        answer goes to the result slot through `set_result` and its length
        is returned; a failure goes through `exec`'s error path. */
    method Reply(name: string, out: Result<seq<byte>, string>) returns (code: int)
      modifies this`lastResult, this`lastError, this`log
      ensures Replied(out, code)
      ensures log == old(log) + [EntryCall(name, code)]
    {
      if out.Ok? {
        var len := SetResult(out.value);
        code := Exec(Ok(len));
      } else {
        code := Exec(Err(out.error));
      }
      log := log + [EntryCall(name, code)];
    }

    /** What `Reply` leaves behind. */
    twostate predicate Replied(out: Result<seq<byte>, string>, code: int)
      reads this
    {
      && (out.Ok? ==> code == |out.value| && lastResult == out.value && lastError == old(lastError))
      && (out.Err? ==> code == -1 && lastError == Encode(out.error) && lastResult == old(lastResult))
    }

    /** The tail shared by the creation entry points: `exec` over the
        allocation result or the failure, recorded under the symbol name. */
    method ReplyId(name: string, out: Result<nat, string>) returns (code: int)
      modifies this`lastError, this`log
      ensures out.Ok? ==> code == out.value && lastError == old(lastError)
      ensures out.Err? ==> code == -1 && lastError == Encode(out.error)
      ensures log == old(log) + [EntryCall(name, code)]
    {
      code := Exec(if out.Ok? then Ok(out.value) else Err(out.error));
      log := log + [EntryCall(name, code)];
    }

    /** The body shared by the `create_*_model` entry points: the loaded
        pipeline is bound to a fresh id of `models`, whose value is returned;
        a failure to load goes through `exec`'s error path. */
    method AllocateModel(name: string, created: Result<Model, string>) returns (code: int)
      requires Valid()
      modifies models, this`lastError, this`log
      ensures Valid()
      ensures Created(created, code)
      ensures log == old(log) + [EntryCall(name, code)]
    {
      var out: Result<nat, string>;
      if created.Ok? {
        out := models.Allocate(created.value);
      } else {
        out := Err(created.error);
      }
      code := ReplyId(name, out);
    }

    /** What `AllocateModel` leaves behind: exactly one new `models` entry
        under the returned id, or -1, the error text and no new entry. */
    twostate predicate Created(created: Result<Model, string>, code: int)
      reads this, models
    {
      && (created.Ok? ==>
            && code == old(models.counter) && code !in old(models.items)
            && models.counter == old(models.counter) + 1
            && models.items == old(models.items)[code := created.value]
            && lastError == old(lastError))
      && (created.Err? ==>
            && code == -1 && lastError == Encode(created.error)
            && models.counter == old(models.counter) && models.items == old(models.items))
    }

    /** `fill_result`: swaps the caller's buffer with the result slot. The
        buffer must hold `bufLen` bytes (`from_raw_parts_mut`) and `bufLen`
        must be the slot's length (`swap_with_slice` panics otherwise). The
        slot is not emptied: it keeps the buffer's old bytes. */
    method FillResult(buf: array<byte>, bufLen: nat)
      requires Valid()
      requires buf.Length == bufLen && bufLen == |lastResult|
      modifies this`lastResult, this`log, buf
      ensures buf[..] == old(lastResult) && lastResult == old(buf[..])
      ensures |lastResult| == bufLen
      ensures log == old(log) + [FillResultCall(bufLen)]
    {
      lastResult := SwapWithSlice(buf, lastResult);
      log := log + [FillResultCall(bufLen)];
    }

    /** `error_len`: the error slot's length; nothing else changes. */
    method ErrorLen() returns (len: nat)
      modifies this`log
      ensures len == |lastError|
      ensures log == old(log) + [ErrorLenCall(len)]
    {
      len := |lastError|;
      log := log + [ErrorLenCall(len)];
    }

    /** `fill_error`: swaps the caller's buffer with the error slot, under the
        same conditions as `fill_result`. */
    method FillError(buf: array<byte>, bufLen: nat)
      requires Valid()
      requires buf.Length == bufLen && bufLen == |lastError|
      modifies this`lastError, this`log, buf
      ensures buf[..] == old(lastError) && lastError == old(buf[..])
      ensures |lastError| == bufLen
      ensures log == old(log) + [FillErrorCall(bufLen)]
    {
      lastError := SwapWithSlice(buf, lastError);
      log := log + [FillErrorCall(bufLen)];
    }

    /** `delete_model`: 0 and the entry removed when `rid` is live in
        `models`, otherwise -1. Not wrapped in `exec`: the error slot is never
        written, and the other two registries are not touched. */
    method DeleteModel(rid: nat) returns (status: int)
      requires Valid()
      modifies models, this`log
      ensures Valid()
      ensures status == (if rid in old(models.items) then 0 else -1)
      ensures models.items == old(models.items) - {rid} && models.counter == old(models.counter)
      ensures log == old(log) + [DeleteModelCall(rid, status)]
    {
      var r := models.Deallocate(rid);
      status := if r.Ok? then 0 else -1;
      log := log + [DeleteModelCall(rid, status)];
    }
  }
}
