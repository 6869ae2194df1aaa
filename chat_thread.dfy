/** A message thread under a group message (ChatThread.cs). */
module ChatThreadModel {
  import opened Wrappers
  import opened Json
  import opened MessageModel

  datatype ChatThreadValue = ChatThreadValue(
    tid: NString,
    messageId: NString,
    parentId: NString,
    owner: NString,
    name: NString,
    messageCount: int,
    membersCount: int,
    createAt: int,
    lastMessage: Option<MessageValue>)

  /** A thread as `new ChatThread()` leaves it. */
  function NewChatThread(): ChatThreadValue
  {
    ChatThreadValue(None, None, None, None, None, 0, 0, 0, None)
  }

  /**
   * The last message after a decode: a `lastMsg` that is not null replaces it (with null when it
   * is not an object); an absent or null `lastMsg` leaves it as it was.
   */
  function LastMessageOf(prev: Option<MessageValue>, n: Node): Option<MessageValue>
  {
    if !IsNullish(n) then MessageOfNode(n) else prev
  }

  /** `FromJsonObject` over the current thread: `threadId`, `msgId`, `memberCount` and `msgCount` name the id, parent message and counters. */
  function DecodeChatThread(prev: ChatThreadValue, jo: JsonObject): ChatThreadValue
  {
    ChatThreadValue(
      Str(Get(jo, "threadId")),
      Str(Get(jo, "msgId")),
      Str(Get(jo, "parentId")),
      Str(Get(jo, "owner")),
      Str(Get(jo, "name")),
      AsNum(Get(jo, "msgCount")),
      AsNum(Get(jo, "memberCount")),
      AsNum(Get(jo, "createAt")),
      LastMessageOf(prev.lastMessage, Get(jo, "lastMsg")))
  }

  /** A thread can be written only if its last message, when present, has a body. */
  predicate Encodable(t: ChatThreadValue)
  {
    t.lastMessage.Some? ==> t.lastMessage.value.body.Some?
  }

  /** Every key but `lastMsg`. */
  function EncodeScalars(t: ChatThreadValue): JsonObject
  {
    PutStr(PutStr(PutStr(PutStr(PutStr(map[], "threadId", t.tid), "owner", t.owner), "name", t.name), "msgId", t.messageId), "parentId", t.parentId)
      ["memberCount" := JNum(t.membersCount)]
      ["msgCount" := JNum(t.messageCount)]
      ["createAt" := JNum(t.createAt)]
  }

  /** `ToJsonObject`: a null last message writes no `lastMsg`. */
  function EncodeChatThread(t: ChatThreadValue): JsonObject
    requires Encodable(t)
  {
    var jo := EncodeScalars(t);
    if t.lastMessage.Some? then jo["lastMsg" := JObj(EncodeMessage(t.lastMessage.value))] else jo
  }

  /** What a thread read back from its JSON form over `prev` holds. */
  function AfterChatThreadRoundTrip(t: ChatThreadValue, prev: ChatThreadValue): ChatThreadValue
    requires Encodable(t)
  {
    t.(lastMessage := if t.lastMessage.Some? then Some(AfterMessageRoundTrip(t.lastMessage.value, NewMessage(None, "", 0))) else prev.lastMessage)
  }

  /**
   * Writing a thread and reading it back over `prev` restores every scalar; the last message
   * comes back as a message read from its JSON form, and a null one leaves `prev`'s.
   */
  lemma ChatThreadRoundTrip(t: ChatThreadValue, prev: ChatThreadValue)
    requires Encodable(t)
    ensures DecodeChatThread(prev, EncodeChatThread(t)) == AfterChatThreadRoundTrip(t, prev)
  {
    var jo := EncodeChatThread(t);
    ScalarsKept(t, "threadId");
    ScalarsKept(t, "msgId");
    ScalarsKept(t, "parentId");
    ScalarsKept(t, "owner");
    ScalarsKept(t, "name");
    ScalarsKept(t, "msgCount");
    ScalarsKept(t, "memberCount");
    ScalarsKept(t, "createAt");
    EncodedScalars(t);
    LastMessageRoundTrip(t, prev);
  }

  /** The last message does not overwrite any other key. */
  lemma ScalarsKept(t: ChatThreadValue, k: string)
    requires Encodable(t)
    requires k != "lastMsg"
    ensures Get(EncodeChatThread(t), k) == Get(EncodeScalars(t), k)
  {
  }

  lemma EncodedScalars(t: ChatThreadValue)
    ensures Str(Get(EncodeScalars(t), "threadId")) == t.tid
    ensures Str(Get(EncodeScalars(t), "msgId")) == t.messageId
    ensures Str(Get(EncodeScalars(t), "parentId")) == t.parentId
    ensures Str(Get(EncodeScalars(t), "owner")) == t.owner
    ensures Str(Get(EncodeScalars(t), "name")) == t.name
    ensures AsNum(Get(EncodeScalars(t), "msgCount")) == t.messageCount
    ensures AsNum(Get(EncodeScalars(t), "memberCount")) == t.membersCount
    ensures AsNum(Get(EncodeScalars(t), "createAt")) == t.createAt
    ensures "lastMsg" !in EncodeScalars(t)
  {
    var strs := PutStr(PutStr(PutStr(PutStr(PutStr(map[], "threadId", t.tid), "owner", t.owner), "name", t.name), "msgId", t.messageId), "parentId", t.parentId);
    EncodedThreadStrings(t);
    assert EncodeScalars(t) == strs["memberCount" := JNum(t.membersCount)]["msgCount" := JNum(t.messageCount)]["createAt" := JNum(t.createAt)];
    assert Get(EncodeScalars(t), "threadId") == Get(strs, "threadId");
    assert Get(EncodeScalars(t), "msgId") == Get(strs, "msgId");
    assert Get(EncodeScalars(t), "parentId") == Get(strs, "parentId");
    assert Get(EncodeScalars(t), "owner") == Get(strs, "owner");
    assert Get(EncodeScalars(t), "name") == Get(strs, "name");
  }

  lemma EncodedThreadStrings(t: ChatThreadValue)
    ensures var strs := PutStr(PutStr(PutStr(PutStr(PutStr(map[], "threadId", t.tid), "owner", t.owner), "name", t.name), "msgId", t.messageId), "parentId", t.parentId);
      Str(Get(strs, "threadId")) == t.tid && Str(Get(strs, "msgId")) == t.messageId && Str(Get(strs, "parentId")) == t.parentId
      && Str(Get(strs, "owner")) == t.owner && Str(Get(strs, "name")) == t.name && "lastMsg" !in strs
  {
  }

  /** `lastMsg` is written exactly when there is a last message. */
  lemma LastMessageWritten(t: ChatThreadValue)
    requires Encodable(t)
    ensures t.lastMessage.Some? ==> Get(EncodeChatThread(t), "lastMsg") == Some(JObj(EncodeMessage(t.lastMessage.value)))
    ensures t.lastMessage.None? ==> "lastMsg" !in EncodeChatThread(t)
  {
    EncodedScalars(t);
  }

  lemma LastMessageRoundTrip(t: ChatThreadValue, prev: ChatThreadValue)
    requires Encodable(t)
    ensures DecodeChatThread(prev, EncodeChatThread(t)).lastMessage == AfterChatThreadRoundTrip(t, prev).lastMessage
  {
    var jo := EncodeChatThread(t);
    LastMessageWritten(t);
    if t.lastMessage.Some? {
      var m := t.lastMessage.value;
      assert LastMessageOf(prev.lastMessage, Get(jo, "lastMsg")) == Some(MessageFromObject(EncodeMessage(m)));
      MessageFromObjectRoundTrip(m);
    }
  }

  /** A `lastMsg` that is present but not an object clears the last message; a JSON null keeps it. */
  lemma LastMessageClearedOnlyByNonObjects(prev: ChatThreadValue, jo: JsonObject, s: string)
    requires prev.lastMessage.Some?
    ensures DecodeChatThread(prev, jo["lastMsg" := JStr(s)]).lastMessage.None?
    ensures DecodeChatThread(prev, jo["lastMsg" := JNull]).lastMessage == prev.lastMessage
    ensures "lastMsg" !in jo ==> DecodeChatThread(prev, jo).lastMessage == prev.lastMessage
  {
  }

  class ChatThread {
    var tid: NString
    var messageId: NString
    var parentId: NString
    var owner: NString
    var name: NString
    var messageCount: int
    var membersCount: int
    var createAt: int
    var lastMessage: Option<MessageValue>

    function Value(): ChatThreadValue
      reads this
    {
      ChatThreadValue(tid, messageId, parentId, owner, name, messageCount, membersCount, createAt, lastMessage)
    }

    constructor ()
      ensures Value() == NewChatThread()
    {
      tid, messageId, parentId, owner, name := None, None, None, None, None;
      messageCount, membersCount, createAt, lastMessage := 0, 0, 0, None;
    }

    method FromJsonObject(jo: JsonObject)
      modifies this
      ensures Value() == DecodeChatThread(old(Value()), jo)
    {
      tid := Str(Get(jo, "threadId"));
      owner := Str(Get(jo, "owner"));
      name := Str(Get(jo, "name"));
      messageId := Str(Get(jo, "msgId"));
      parentId := Str(Get(jo, "parentId"));
      membersCount := AsNum(Get(jo, "memberCount"));
      messageCount := AsNum(Get(jo, "msgCount"));
      createAt := AsNum(Get(jo, "createAt"));
      if !IsNullish(Get(jo, "lastMsg")) {
        lastMessage := MessageOfNode(Get(jo, "lastMsg"));
      }
    }

    function ToJsonObject(): JsonObject
      reads this
      requires Encodable(Value())
    {
      EncodeChatThread(Value())
    }
  }
}
