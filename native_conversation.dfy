/** `src/conversation.rs`: the conversation pipeline's entry points, the only
    ones that use all three registries. */
module NativeConversation {
  import opened Wrappers
  import opened Utf8
  import opened Foreign
  import opened Allocators
  import opened NativeLib
  import Fmt

  const MissingConversation := "Failed to conversation."
  const NoResponse := "Failed to get conversation model response."

  function WrongModel(rid: nat): string {
    "Expected to find conversation model at rid '" + Fmt.Decimal(rid) + "'."
  }

  /** `create_conversation_model`: a load failure carries the library's own
      text, with no context added. */
  method CreateConversationModel(n: Native, load: Load) returns (code: int)
    requires n.Valid()
    modifies n.models, n`lastError, n`log
    ensures n.Valid()
    ensures n.Created(if load.Loaded? then Ok(ConversationModel) else Err(load.reason), code)
    ensures n.log == old(n.log) + [EntryCall("create_conversation_model", code)]
  {
    code := n.AllocateModel("create_conversation_model",
      if load.Loaded? then Ok(ConversationModel) else Err(load.reason));
  }

  /** `create_conversation_manager`: takes no model id and allocates an empty
      manager in `model_resources` only. */
  method CreateConversationManager(n: Native) returns (code: int)
    requires n.Valid()
    modifies n.resources, n`lastError, n`log
    ensures n.Valid()
    ensures code == old(n.resources.counter) && code !in old(n.resources.items)
    ensures n.resources.counter == old(n.resources.counter) + 1
    ensures n.resources.items == old(n.resources.items)[code := ConversationManager(map[])]
    ensures n.lastError == old(n.lastError)
    ensures n.log == old(n.log) + [EntryCall("create_conversation_manager", code)]
  {
    var rid := n.resources.Allocate(ConversationManager(map[]));
    code := n.ReplyId("create_conversation_manager", rid);
  }

  /** `create_conversation(rid)`. `ConversationManager::create_empty` draws a
      random v4 id until it is not a key of the manager's conversations; the
      drawn id is the parameter `uuid` here. */
  method CreateConversation(n: Native, rid: nat, uuid: Uuid) returns (code: int)
    requires n.Valid()
    requires rid in n.resources.items ==> uuid !in n.resources.items[rid].conversations
    modifies n.resources, n.accessors, n`lastError, n`log
    ensures n.Valid()
    ensures n.resources.counter == old(n.resources.counter)
    ensures rid in old(n.resources.items) ==>
      && n.resources.items == old(n.resources.items)[rid :=
           ConversationManager(old(n.resources.items)[rid].conversations[uuid := EmptyConversation])]
      && code == old(n.accessors.counter) && code !in old(n.accessors.items)
      && n.accessors.counter == old(n.accessors.counter) + 1
      && n.accessors.items == old(n.accessors.items)[code := ConversationId(uuid)]
      && n.lastError == old(n.lastError)
    ensures rid !in old(n.resources.items) ==>
      && code == -1 && n.lastError == Encode(NoSuchResource)
      && n.resources.items == old(n.resources.items)
      && n.accessors.items == old(n.accessors.items) && n.accessors.counter == old(n.accessors.counter)
    ensures n.log == old(n.log) + [EntryCall("create_conversation", code)]
  {
    var convoId := n.resources.WithAccess(rid, (r: ModelResource) =>
      (ConversationManager(r.conversations[uuid := EmptyConversation]), Ok(uuid)));
    var out: Result<nat, string>;
    if convoId.Err? {
      out := Err(convoId.error);
    } else {
      out := n.accessors.Allocate(ConversationId(convoId.value));
    }
    code := n.ReplyId("create_conversation", out);
  }

  /** The closure `conversation_send` runs on the conversation manager: the
      manager as it leaves it, and the answer. The user input is added
      before the model id is looked at, and the model's answers are kept
      in the manager whether or not one of them is for this conversation. */
  function Send(lib: Library, models: map<nat, Model>, modelRid: nat, id: Uuid, text: string,
                manager: ModelResource): (r: (ModelResource, Result<seq<byte>, string>))
    ensures id !in manager.conversations ==> r == (manager, Err(MissingConversation))
    ensures id in manager.conversations && lib.addUserInput(manager.conversations[id], text).Err? ==>
      r == (manager, Err(lib.addUserInput(manager.conversations[id], text).error))
    ensures id in manager.conversations && lib.addUserInput(manager.conversations[id], text).Ok? ==>
      var added := manager.conversations[id := lib.addUserInput(manager.conversations[id], text).value];
      && (modelRid !in models ==> r == (ConversationManager(added), Err(NoSuchResource)))
      && (modelRid in models && !models[modelRid].ConversationModel? ==>
            r == (ConversationManager(added), Err(WrongModel(modelRid))))
      && (modelRid in models && models[modelRid].ConversationModel? ==>
            && r.0 == ConversationManager(lib.generateResponses(added).0)
            && (id in lib.generateResponses(added).1 ==> r.1 == Ok(Encode(lib.generateResponses(added).1[id])))
            && (id !in lib.generateResponses(added).1 ==> r.1 == Err(NoResponse)))
  {
    var conversations := manager.conversations;
    if id !in conversations then (manager, Err(MissingConversation))
    else
      match lib.addUserInput(conversations[id], text)
      case Err(e) => (manager, Err(e))
      case Ok(c) =>
        var added := conversations[id := c];
        if modelRid !in models then (ConversationManager(added), Err(NoSuchResource))
        else if !models[modelRid].ConversationModel? then (ConversationManager(added), Err(WrongModel(modelRid)))
        else
          var (after, responses) := lib.generateResponses(added);
          (ConversationManager(after),
           if id in responses then Ok(Encode(responses[id])) else Err(NoResponse))
  }

  /** What `conversation_send` does to `model_resources` and what it answers:
      the accessor id is resolved first, then the manager id, then (inside
      `Send`) the conversation and the model id. */
  function SendOutcome(lib: Library, models: map<nat, Model>, accessors: map<nat, ModelResourceAccessor>,
                       resources: map<nat, ModelResource>, modelRid: nat, managerRid: nat, convoRid: nat,
                       text: string): (r: (map<nat, ModelResource>, Result<seq<byte>, string>))
    ensures convoRid !in accessors ==> r == (resources, Err(NoSuchResource))
    ensures convoRid in accessors && managerRid !in resources ==> r == (resources, Err(NoSuchResource))
    ensures convoRid in accessors && managerRid in resources ==>
      var (manager, out) := Send(lib, models, modelRid, accessors[convoRid].id, text, resources[managerRid]);
      r == (resources[managerRid := manager], out)
    ensures r.0.Keys == resources.Keys
    ensures forall k :: k in resources && k != managerRid ==> r.0[k] == resources[k]
  {
    if convoRid !in accessors || managerRid !in resources then (resources, Err(NoSuchResource))
    else
      var (manager, out) := Send(lib, models, modelRid, accessors[convoRid].id, text, resources[managerRid]);
      (resources[managerRid := manager], out)
  }

  /** A send whose model id is wrong still leaves the user input in the
      conversation: the failure does not roll the manager back. */
  lemma {:induction false} FailedSendKeepsInput(lib: Library, models: map<nat, Model>,
      accessors: map<nat, ModelResourceAccessor>, resources: map<nat, ModelResource>,
      modelRid: nat, managerRid: nat, convoRid: nat, text: string)
    requires convoRid in accessors && managerRid in resources
    requires accessors[convoRid].id in resources[managerRid].conversations
    requires lib.addUserInput(resources[managerRid].conversations[accessors[convoRid].id], text).Ok?
    requires modelRid !in models || !models[modelRid].ConversationModel?
    ensures SendOutcome(lib, models, accessors, resources, modelRid, managerRid, convoRid, text).1.Err?
    ensures
      var id := accessors[convoRid].id;
      var after := SendOutcome(lib, models, accessors, resources, modelRid, managerRid, convoRid, text).0;
      after[managerRid].conversations[id]
        == lib.addUserInput(resources[managerRid].conversations[id], text).value
  {
    var id := accessors[convoRid].id;
    var manager := resources[managerRid];
    var c := lib.addUserInput(manager.conversations[id], text).value;
    var sent := Send(lib, models, modelRid, id, text, manager);
    assert sent.0 == ConversationManager(manager.conversations[id := c]);
  }

  /** A successful send answers the encoding of the model's response for
      this conversation, so the host decodes it back losslessly. */
  lemma {:induction false} SendAnswerIsResponse(lib: Library, models: map<nat, Model>,
      accessors: map<nat, ModelResourceAccessor>, resources: map<nat, ModelResource>,
      modelRid: nat, managerRid: nat, convoRid: nat, text: string)
    requires SendOutcome(lib, models, accessors, resources, modelRid, managerRid, convoRid, text).1.Ok?
    ensures IsWellFormed(SendOutcome(lib, models, accessors, resources, modelRid, managerRid, convoRid, text).1.value)
  {
    var id := accessors[convoRid].id;
    var manager := resources[managerRid];
    var added := manager.conversations[id := lib.addUserInput(manager.conversations[id], text).value];
    EncodeIsWellFormed(lib.generateResponses(added).1[id]);
  }

  /** `conversation_send(model_rid, manager_rid, convo_rid, text, text_len)`.
      The bytes must be well-formed UTF-8 (`from_utf8_unchecked`). */
  method ConversationSend(n: Native, modelRid: nat, managerRid: nat, convoRid: nat, text: seq<byte>, textLen: nat)
    returns (code: int)
    requires n.Valid() && textLen <= |text| && IsWellFormed(text[..textLen])
    modifies n.resources, n.accessors, n`lastResult, n`lastError, n`log
    ensures n.Valid()
    ensures n.accessors.items == old(n.accessors.items) && n.accessors.counter == old(n.accessors.counter)
    ensures n.resources.counter == old(n.resources.counter)
    ensures
      var outcome := SendOutcome(n.lib, old(n.models.items), old(n.accessors.items), old(n.resources.items),
                                 modelRid, managerRid, convoRid, Decode(text[..textLen]));
      n.resources.items == outcome.0 && n.Replied(outcome.1, code)
    ensures n.log == old(n.log) + [EntryCall("conversation_send", code)]
  {
    var lib := n.lib;
    var models := n.models.items;
    var s := Decode(text[..textLen]);
    var out: Result<seq<byte>, string>;
    var id := n.accessors.WithAccess(convoRid, (a: ModelResourceAccessor) => (a, Ok(a.id)));
    if id.Err? {
      out := Err(id.error);
    } else {
      var cid := id.value;
      out := n.resources.WithAccess(managerRid, (m: ModelResource) => Send(lib, models, modelRid, cid, s, m));
    }
    code := n.Reply("conversation_send", out);
  }
}
