/** `models/conversation.ts`: `ConversationModel`, `ConversationManager` and
    `Conversation` with its history. */
module HostConversation {
  import opened Wrappers
  import opened Utf8
  import Foreign
  import Allocators
  import opened NativeLib
  import opened HostManager
  import NativeConversation

  /** `ConversationInit`, an object the caller owns; an unset
      `includeHistory` is `None`. */
  class ConversationInit {
    var includeHistory: Option<bool>

    constructor (includeHistory: Option<bool>)
      ensures this.includeHistory == includeHistory
    {
      this.includeHistory := includeHistory;
    }
  }

  /** `ConversationModel.createConversationManager()`: no argument reaches
      the native side, the new manager lives in `model_resources`, and it is
      not listed in the host manager's `#models`. */
  method CreateConversationManager(model: Model) returns (r: Result<ConversationManager, HostError>)
    requires model.kind == ConversationKind && model.manager.Valid() && !model.manager.isClosed
    modifies model.manager.native.resources, model.manager.native`lastError, model.manager.native`log
    ensures model.manager.Valid()
    ensures
      var native := model.manager.native;
      && r.Ok? && fresh(r.value) && r.value.model == model && r.value.rid == old(native.resources.counter)
      && native.resources.items == old(native.resources.items)[r.value.rid := Allocators.ConversationManager(map[])]
      && native.lastError == old(native.lastError)
      && native.log == old(native.log) + Creation("create_conversation_manager", Ok(r.value.rid))
  {
    var manager := model.manager;
    var native := manager.native;
    ghost var out: Result<nat, string> := Ok(native.resources.counter);
    var code := NativeConversation.CreateConversationManager(native);
    var rid := manager.AssertCreated(code, "create_conversation_manager", out);
    var m := new ConversationManager(model, rid.value);
    r := Ok(m);
  }

  class ConversationManager {
    const model: Model
    const rid: nat

    constructor (model: Model, rid: nat)
      ensures this.model == model && this.rid == rid
    {
      this.model := model;
      this.rid := rid;
    }

    /** `createConversation(init)`: `create_conversation` on this manager's
        id; the returned accessor id becomes a conversation owned by this
        manager. `uuid` is the fresh id the native side draws at random. */
    method CreateConversation(init: Option<ConversationInit>, uuid: Foreign.Uuid)
      returns (r: Result<Conversation, HostError>)
      requires model.manager.Valid() && !model.manager.isClosed
      requires rid in model.manager.native.resources.items ==>
        uuid !in model.manager.native.resources.items[rid].conversations
      modifies model.manager.native.resources, model.manager.native.accessors
      modifies model.manager.native`lastError, model.manager.native`log
      modifies if init.Some? then {init.value} else {}
      ensures model.manager.Valid()
      ensures
        var native := model.manager.native;
        && (rid in old(native.resources.items) ==>
              && r.Ok? && fresh(r.value) && r.value.conversationManager == this
              && r.value.rid == old(native.accessors.counter) && r.value.history == []
              && (init.Some? ==> r.value.init == init.value)
              && r.value.init.includeHistory ==
                   (if init.Some? && old(init.value.includeHistory).Some? then old(init.value.includeHistory) else Some(false))
              && native.accessors.items == old(native.accessors.items)[r.value.rid := Allocators.ConversationId(uuid)]
              && native.resources.items == old(native.resources.items)[rid :=
                   Allocators.ConversationManager(old(native.resources.items)[rid].conversations[uuid := Foreign.EmptyConversation])]
              && native.lastError == old(native.lastError)
              && native.log == old(native.log) + Creation("create_conversation", Ok(r.value.rid)))
        && (rid !in old(native.resources.items) ==>
              && r == Err(BertMLError(Allocators.NoSuchResource))
              && (init.Some? ==> init.value.includeHistory == old(init.value.includeHistory))
              && native.accessors.items == old(native.accessors.items)
              && native.resources.items == old(native.resources.items)
              && native.log == old(native.log) + Creation("create_conversation", Err(Allocators.NoSuchResource)))
    {
      var manager := model.manager;
      var native := manager.native;
      ghost var out: Result<nat, string> :=
        if rid in native.resources.items then Ok(native.accessors.counter) else Err(Allocators.NoSuchResource);
      var code := NativeConversation.CreateConversation(native, rid, uuid);
      var convoRid := manager.AssertCreated(code, "create_conversation", out);
      if convoRid.Err? {
        return Err(convoRid.error);
      }
      var c := new Conversation(this, convoRid.value, init);
      r := Ok(c);
    }
  }

  class Conversation {
    const conversationManager: ConversationManager
    /** The id of the conversation's accessor in `model_resource_accessors`. */
    const rid: nat
    /** `#history`, exposed read-only. */
    var history: seq<(string, string)>
    const init: ConversationInit

    /** `new Conversation(manager, rid, init = {})`: `includeHistory`
        defaults to false, written into the caller's object. */
    constructor (conversationManager: ConversationManager, rid: nat, init: Option<ConversationInit>)
      modifies if init.Some? then {init.value} else {}
      ensures this.conversationManager == conversationManager && this.rid == rid && history == []
      ensures init.Some? ==> this.init == init.value
      ensures init.None? ==> fresh(this.init)
      ensures this.init.includeHistory ==
        (if init.Some? && old(init.value.includeHistory).Some? then old(init.value.includeHistory) else Some(false))
    {
      var i: ConversationInit;
      if init.Some? {
        i := init.value;
      } else {
        i := new ConversationInit(None);
      }
      if i.includeHistory.None? {
        i.includeHistory := Some(false);
      }
      this.conversationManager := conversationManager;
      this.rid := rid;
      this.init := i;
      history := [];
    }

    /** The native round trip of `sendMessage`: `conversation_send(modelRid,
        managerRid, convoRid, bytes, bytes.length)`, the code through
        `assertCode`, the response fetched with that length. */
    method Dispatch(message: string) returns (r: Result<string, HostError>)
      requires conversationManager.model.manager.Valid() && !conversationManager.model.manager.isClosed
      modifies conversationManager.model.manager.native.resources, conversationManager.model.manager.native.accessors
      modifies conversationManager.model.manager.native`lastResult, conversationManager.model.manager.native`lastError
      modifies conversationManager.model.manager.native`log
      ensures conversationManager.model.manager.Valid()
      ensures
        var native := conversationManager.model.manager.native;
        var outcome := NativeConversation.SendOutcome(native.lib, old(native.models.items), old(native.accessors.items),
          old(native.resources.items), conversationManager.model.rid, conversationManager.rid, rid, message);
        && native.resources.items == outcome.0
        && native.accessors.items == old(native.accessors.items)
        && (outcome.1.Ok? ==> r.Ok? && Encode(r.value) == outcome.1.value)
        && (outcome.1.Err? ==> r == Err(BertMLError(outcome.1.error)))
        && native.log == old(native.log) + Exchange("conversation_send", outcome.1)
    {
      var model := conversationManager.model;
      var manager := model.manager;
      var native := manager.native;
      ghost var models, accessors, resources := native.models.items, native.accessors.items, native.resources.items;
      var bytes := Encode(message);
      EncodeIsWellFormed(message);
      DecodeEncode(message);
      assert bytes[..|bytes|] == bytes;
      ghost var outcome := NativeConversation.SendOutcome(native.lib, models, accessors, resources,
        model.rid, conversationManager.rid, rid, message);
      var code := NativeConversation.ConversationSend(native, model.rid, conversationManager.rid, rid, bytes, |bytes|);
      r := manager.Collect(code, "conversation_send", outcome.1);
      if r.Ok? {
        NativeConversation.SendAnswerIsResponse(native.lib, models, accessors, resources,
          model.rid, conversationManager.rid, rid, message);
      }
    }

    /** `sendMessage(message)`: the round trip, then the pair is logged
        only when the send succeeded and `includeHistory` is `true` at that
        moment; a failed send leaves the history as it was. */
    method SendMessage(message: string) returns (r: Result<string, HostError>)
      requires conversationManager.model.manager.Valid() && !conversationManager.model.manager.isClosed
      modifies this`history
      modifies conversationManager.model.manager.native.resources, conversationManager.model.manager.native.accessors
      modifies conversationManager.model.manager.native`lastResult, conversationManager.model.manager.native`lastError
      modifies conversationManager.model.manager.native`log
      ensures conversationManager.model.manager.Valid()
      ensures
        var native := conversationManager.model.manager.native;
        var outcome := NativeConversation.SendOutcome(native.lib, old(native.models.items), old(native.accessors.items),
          old(native.resources.items), conversationManager.model.rid, conversationManager.rid, rid, message);
        && native.resources.items == outcome.0
        && native.accessors.items == old(native.accessors.items)
        && (outcome.1.Ok? ==> r.Ok? && Encode(r.value) == outcome.1.value)
        && (outcome.1.Err? ==> r == Err(BertMLError(outcome.1.error)))
        && native.log == old(native.log) + Exchange("conversation_send", outcome.1)
      ensures history ==
        if r.Ok? && init.includeHistory == Some(true) then old(history) + [(message, r.value)] else old(history)
    {
      r := Dispatch(message);
      if r.Ok? && init.includeHistory == Some(true) {
        history := history + [(message, r.value)];
      }
    }
  }
}
