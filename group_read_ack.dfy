/** A read receipt for a group message (GroupReadAck.cs). */
module GroupReadAckModel {
  import opened Wrappers
  import opened Json

  datatype GroupReadAckValue = GroupReadAckValue(
    ackId: NString,
    msgId: NString,
    from: NString,
    content: NString,
    count: int,
    timestamp: int)

  function DecodeGroupReadAck(jo: JsonObject): GroupReadAckValue
  {
    GroupReadAckValue(
      Str(Get(jo, "ackId")),
      Str(Get(jo, "msgId")),
      Str(Get(jo, "from")),
      Str(Get(jo, "content")),
      AsNum(Get(jo, "count")),
      AsNum(Get(jo, "timestamp")))
  }

  function EncodeGroupReadAck(a: GroupReadAckValue): JsonObject
  {
    PutStr(PutStr(PutStr(PutStr(map[], "ackId", a.ackId), "msgId", a.msgId), "from", a.from), "content", a.content)
      ["count" := JNum(a.count)]
      ["timestamp" := JNum(a.timestamp)]
  }

  /** The encoding holds the six keys the decoding reads (the strings only when not null), and decodes back to the same receipt. */
  lemma GroupReadAckRoundTrip(a: GroupReadAckValue)
    ensures DecodeGroupReadAck(EncodeGroupReadAck(a)) == a
    ensures EncodeGroupReadAck(a).Keys ==
      {"count", "timestamp"}
      + (if a.ackId.Some? then {"ackId"} else {})
      + (if a.msgId.Some? then {"msgId"} else {})
      + (if a.from.Some? then {"from"} else {})
      + (if a.content.Some? then {"content"} else {})
  {
  }

  class GroupReadAck {
    var ackId: NString
    var msgId: NString
    var from: NString
    var content: NString
    var count: int
    var timestamp: int

    function Value(): GroupReadAckValue
      reads this
    {
      GroupReadAckValue(ackId, msgId, from, content, count, timestamp)
    }

    constructor ()
      ensures Value() == GroupReadAckValue(None, None, None, None, 0, 0)
    {
      ackId, msgId, from, content, count, timestamp := None, None, None, None, 0, 0;
    }

    method FromJsonObject(jo: JsonObject)
      modifies this
      ensures Value() == DecodeGroupReadAck(jo)
    {
      ackId := Str(Get(jo, "ackId"));
      msgId := Str(Get(jo, "msgId"));
      from := Str(Get(jo, "from"));
      content := Str(Get(jo, "content"));
      count := AsNum(Get(jo, "count"));
      timestamp := AsNum(Get(jo, "timestamp"));
    }

    function ToJsonObject(): JsonObject
      reads this
    {
      EncodeGroupReadAck(Value())
    }
  }
}
