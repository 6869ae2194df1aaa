/**
 * A change to the reactions of a message (MessageReactionChange.cs): the reactions as they now
 * stand and the operations that led there.
 */
module MessageReactionChangeModel {
  import opened Wrappers
  import opened Json
  import opened Enumerations
  import opened MessageReactionModel

  datatype MessageReactionOperationValue = MessageReactionOperationValue(userId: NString, reaction: NString, operate: MessageReactionOperate)

  function DecodeMessageReactionOperation(jo: JsonObject): MessageReactionOperationValue
  {
    MessageReactionOperationValue(
      Str(Get(jo, "userId")),
      Str(Get(jo, "reaction")),
      ToMessageReactionOperate(AsNum(Get(jo, "operate"))))
  }

  function EncodeMessageReactionOperation(op: MessageReactionOperationValue): JsonObject
  {
    PutStr(PutStr(map[], "userId", op.userId), "reaction", op.reaction)["operate" := JNum(op.operate.Code())]
  }

  /** An operation is written under the keys it is read from and decodes back to itself. */
  lemma MessageReactionOperationRoundTrip(op: MessageReactionOperationValue)
    ensures DecodeMessageReactionOperation(EncodeMessageReactionOperation(op)) == op
    ensures EncodeMessageReactionOperation(op).Keys ==
      {"operate"} + (if op.userId.Some? then {"userId"} else {}) + (if op.reaction.Some? then {"reaction"} else {})
  {
    MessageReactionOperateCodeRoundTrip(op.operate);
  }

  datatype MessageReactionChangeValue = MessageReactionChangeValue(
    conversationId: NString,
    messageId: NString,
    reactionList: seq<MessageReactionValue>,
    operationList: seq<MessageReactionOperationValue>)

  /** `FromJsonObject`: `convId` and `msgId` are the ids; `reactions` and `operations` are decoded item by item. */
  function DecodeMessageReactionChange(jo: JsonObject): MessageReactionChangeValue
  {
    MessageReactionChangeValue(
      Str(Get(jo, "convId")),
      Str(Get(jo, "msgId")),
      ModelList(Get(jo, "reactions"), DecodeMessageReaction),
      ModelList(Get(jo, "operations"), DecodeMessageReactionOperation))
  }

  function EncodeMessageReactionChange(c: MessageReactionChangeValue): JsonObject
  {
    PutStr(PutStr(map[], "convId", c.conversationId), "msgId", c.messageId)
      ["reactions" := ModelArray(c.reactionList, EncodeMessageReaction)]
      ["operations" := ModelArray(c.operationList, EncodeMessageReactionOperation)]
  }

  /** A change record decodes back to itself, both lists in their order. */
  lemma MessageReactionChangeRoundTrip(c: MessageReactionChangeValue)
    ensures DecodeMessageReactionChange(EncodeMessageReactionChange(c)) == c
  {
    var jo := EncodeMessageReactionChange(c);
    ReactionListRoundTrip(c.reactionList);
    OperationListRoundTrip(c.operationList);
    assert Get(jo, "reactions") == Some(ModelArray(c.reactionList, EncodeMessageReaction));
    assert Get(jo, "operations") == Some(ModelArray(c.operationList, EncodeMessageReactionOperation));
    assert Get(jo, "convId") == Get(PutStr(map[], "convId", c.conversationId), "convId");
    assert Get(jo, "msgId") == Get(PutStr(PutStr(map[], "convId", c.conversationId), "msgId", c.messageId), "msgId");
  }

  lemma ReactionListRoundTrip(rs: seq<MessageReactionValue>)
    ensures ModelList(Some(ModelArray(rs, EncodeMessageReaction)), DecodeMessageReaction) == rs
  {
    forall i | 0 <= i < |rs|
      ensures DecodeMessageReaction(EncodeMessageReaction(rs[i])) == rs[i]
    {
      MessageReactionRoundTrip(rs[i]);
    }
    ModelListRoundTrip(rs, EncodeMessageReaction, DecodeMessageReaction);
  }

  lemma OperationListRoundTrip(ops: seq<MessageReactionOperationValue>)
    ensures ModelList(Some(ModelArray(ops, EncodeMessageReactionOperation)), DecodeMessageReactionOperation) == ops
  {
    forall i | 0 <= i < |ops|
      ensures DecodeMessageReactionOperation(EncodeMessageReactionOperation(ops[i])) == ops[i]
    {
      MessageReactionOperationRoundTrip(ops[i]);
    }
    ModelListRoundTrip(ops, EncodeMessageReactionOperation, DecodeMessageReactionOperation);
  }

  class MessageReactionOperation {
    var userId: NString
    var reaction: NString
    var operate: MessageReactionOperate

    function Value(): MessageReactionOperationValue
      reads this
    {
      MessageReactionOperationValue(userId, reaction, operate)
    }

    constructor ()
      ensures Value() == MessageReactionOperationValue(None, None, MessageReactionOperateRemove)
    {
      userId, reaction, operate := None, None, MessageReactionOperateRemove;
    }

    method FromJsonObject(jo: JsonObject)
      modifies this
      ensures Value() == DecodeMessageReactionOperation(jo)
    {
      userId := Str(Get(jo, "userId"));
      reaction := Str(Get(jo, "reaction"));
      operate := ToMessageReactionOperate(AsNum(Get(jo, "operate")));
    }

    function ToJsonObject(): JsonObject
      reads this
    {
      EncodeMessageReactionOperation(Value())
    }
  }

  class MessageReactionChange {
    var conversationId: NString
    var messageId: NString
    var reactionList: seq<MessageReactionValue>
    var operationList: seq<MessageReactionOperationValue>

    function Value(): MessageReactionChangeValue
      reads this
    {
      MessageReactionChangeValue(conversationId, messageId, reactionList, operationList)
    }

    constructor ()
      ensures Value() == MessageReactionChangeValue(None, None, [], [])
    {
      conversationId, messageId, reactionList, operationList := None, None, [], [];
    }

    method FromJsonObject(jo: JsonObject)
      modifies this
      ensures Value() == DecodeMessageReactionChange(jo)
    {
      conversationId := Str(Get(jo, "convId"));
      messageId := Str(Get(jo, "msgId"));
      reactionList := ModelList(Get(jo, "reactions"), DecodeMessageReaction);
      operationList := ModelList(Get(jo, "operations"), DecodeMessageReactionOperation);
    }

    function ToJsonObject(): JsonObject
      reads this
    {
      EncodeMessageReactionChange(Value())
    }
  }
}
