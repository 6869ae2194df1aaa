/** A notification about a message thread (ChatThreadEvent.cs): who did what to which thread. */
module ChatThreadEventModel {
  import opened Wrappers
  import opened Json
  import opened Enumerations
  import opened MessageModel
  import opened ChatThreadModel

  datatype ChatThreadEventValue = ChatThreadEventValue(
    from: NString,
    operation: ChatThreadOperation,
    chatThread: Option<ChatThreadValue>)

  /**
   * `ModelHelper.CreateWithJsonObject<ChatThread>` on `thread.AsObject`: an absent `thread`
   * reads as a new empty object and so still gives a thread; a null or non-object `thread` gives null.
   */
  function ThreadOf(n: Node): (t: Option<ChatThreadValue>)
    ensures n.None? ==> t == Some(NewChatThread())
    ensures IsNull(n) ==> t.None?
  {
    match AsObject(n)
    case Some(o) => Some(DecodeChatThread(NewChatThread(), o))
    case None => None
  }

  /** `FromJsonObject`: the operation comes from the code under `type`. */
  function DecodeChatThreadEvent(jo: JsonObject): ChatThreadEventValue
  {
    ChatThreadEventValue(
      Str(Get(jo, "from")),
      ToChatThreadOperation(AsNum(Get(jo, "type"))),
      ThreadOf(Get(jo, "thread")))
  }

  /** The event's thread is dereferenced when it is written, so it must be there (and writable). */
  predicate EventEncodable(e: ChatThreadEventValue)
  {
    e.chatThread.Some? && Encodable(e.chatThread.value)
  }

  function EncodeChatThreadEvent(e: ChatThreadEventValue): JsonObject
    requires EventEncodable(e)
  {
    PutStr(map[], "from", e.from)
      ["type" := JNum(e.operation.Code())]
      ["thread" := JObj(EncodeChatThread(e.chatThread.value))]
  }

  /** The sender and the operation round-trip; the thread comes back as a new thread read from its JSON form. */
  lemma ChatThreadEventRoundTrip(e: ChatThreadEventValue)
    requires EventEncodable(e)
    ensures DecodeChatThreadEvent(EncodeChatThreadEvent(e)) ==
      e.(chatThread := Some(AfterChatThreadRoundTrip(e.chatThread.value, NewChatThread())))
  {
    var t := e.chatThread.value;
    var jo := EncodeChatThreadEvent(e);
    assert Get(jo, "thread") == Some(JObj(EncodeChatThread(t)));
    assert ThreadOf(Get(jo, "thread")) == Some(DecodeChatThread(NewChatThread(), EncodeChatThread(t)));
    ChatThreadRoundTrip(t, NewChatThread());
    ChatThreadOperationCodeRoundTrip(e.operation);
  }

  /** The setters are internal: callers only read an event after it is decoded. */
  class ChatThreadEvent {
    var from: NString
    var operation: ChatThreadOperation
    var chatThread: Option<ChatThreadValue>

    function Value(): ChatThreadEventValue
      reads this
    {
      ChatThreadEventValue(from, operation, chatThread)
    }

    constructor ()
      ensures Value() == ChatThreadEventValue(None, ToChatThreadOperation(0), None)
    {
      from, operation, chatThread := None, ToChatThreadOperation(0), None;
    }

    method FromJsonObject(jo: JsonObject)
      modifies this
      ensures Value() == DecodeChatThreadEvent(jo)
    {
      from := Str(Get(jo, "from"));
      operation := ToChatThreadOperation(AsNum(Get(jo, "type")));
      chatThread := ThreadOf(Get(jo, "thread"));
    }

    function ToJsonObject(): JsonObject
      reads this
      requires EventEncodable(Value())
    {
      EncodeChatThreadEvent(Value())
    }
  }
}
