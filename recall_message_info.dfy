/** What the recall notification carries (RecallMessageInfo.cs): who recalled which message, and possibly the message itself. */
module RecallMessageInfoModel {
  import opened Wrappers
  import opened Json
  import opened MessageModel

  datatype RecallMessageInfoValue = RecallMessageInfoValue(
    recallBy: NString,
    recallMessageId: NString,
    ext: NString,
    recallMessage: Option<MessageValue>,
    conversationId: NString)

  /**
   * `FromJsonObject` over the current record: the four strings are replaced, and the recalled
   * message only when `recallMessage` holds an object; otherwise the previous one stays.
   */
  function DecodeRecallMessageInfo(prev: RecallMessageInfoValue, jo: JsonObject): (r: RecallMessageInfoValue)
    ensures !IsObject(Get(jo, "recallMessage")) ==> r.recallMessage == prev.recallMessage
    ensures IsObject(Get(jo, "recallMessage")) ==> r.recallMessage.Some?
  {
    RecallMessageInfoValue(
      Str(Get(jo, "recallBy")),
      Str(Get(jo, "recallMessageId")),
      Str(Get(jo, "ext")),
      RecalledMessage(prev.recallMessage, Get(jo, "recallMessage")),
      Str(Get(jo, "conversationId")))
  }

  /** The recalled message an object node yields; any other node keeps the previous one. */
  function RecalledMessage(prev: Option<MessageValue>, n: Node): Option<MessageValue>
  {
    if IsObject(n) then Some(MessageFromObject(n.value.fields)) else prev
  }

  /** A record can be written only if its recalled message, when present, has a body. */
  predicate Encodable(r: RecallMessageInfoValue)
  {
    r.recallMessage.Some? ==> r.recallMessage.value.body.Some?
  }

  /** `ToJsonObject`: the recalled message is written only when there is one. */
  function EncodeRecallMessageInfo(r: RecallMessageInfoValue): JsonObject
    requires Encodable(r)
  {
    var jo := EncodeStrings(r);
    if r.recallMessage.Some? then jo["recallMessage" := JObj(EncodeMessage(r.recallMessage.value))] else jo
  }

  /** The four strings of the record sit under their own keys, which the recalled message does not touch. */
  function EncodeStrings(r: RecallMessageInfoValue): JsonObject
  {
    PutStr(PutStr(PutStr(PutStr(map[], "recallBy", r.recallBy), "recallMessageId", r.recallMessageId), "ext", r.ext), "conversationId", r.conversationId)
  }

  /** Writing a record and reading it back over `prev` restores the four strings. */
  lemma RecallStringsRoundTrip(r: RecallMessageInfoValue, prev: RecallMessageInfoValue)
    requires Encodable(r)
    ensures var d := DecodeRecallMessageInfo(prev, EncodeRecallMessageInfo(r));
      d.recallBy == r.recallBy && d.recallMessageId == r.recallMessageId && d.ext == r.ext && d.conversationId == r.conversationId
  {
    var jo := EncodeRecallMessageInfo(r);
    StringsKept(r, "recallBy");
    StringsKept(r, "recallMessageId");
    StringsKept(r, "ext");
    StringsKept(r, "conversationId");
    EncodedStrings(r);
  }

  /** The recalled message does not overwrite any of the strings. */
  lemma StringsKept(r: RecallMessageInfoValue, k: string)
    requires Encodable(r)
    requires k != "recallMessage"
    ensures Get(EncodeRecallMessageInfo(r), k) == Get(EncodeStrings(r), k)
  {
  }

  lemma EncodedStrings(r: RecallMessageInfoValue)
    ensures Str(Get(EncodeStrings(r), "recallBy")) == r.recallBy
    ensures Str(Get(EncodeStrings(r), "recallMessageId")) == r.recallMessageId
    ensures Str(Get(EncodeStrings(r), "ext")) == r.ext
    ensures Str(Get(EncodeStrings(r), "conversationId")) == r.conversationId
  {
  }

  /** The recalled message is written exactly when there is one. */
  lemma RecalledMessageWritten(r: RecallMessageInfoValue)
    requires Encodable(r)
    ensures r.recallMessage.Some? ==> Get(EncodeRecallMessageInfo(r), "recallMessage") == Some(JObj(EncodeMessage(r.recallMessage.value)))
    ensures r.recallMessage.None? ==> "recallMessage" !in EncodeRecallMessageInfo(r)
  {
    assert "recallMessage" !in EncodeStrings(r);
  }

  /**
   * A recalled message comes back as a fresh message read from its JSON form, and without one
   * the previous message is kept.
   */
  lemma RecalledMessageRoundTrip(r: RecallMessageInfoValue, prev: RecallMessageInfoValue)
    requires Encodable(r)
    ensures DecodeRecallMessageInfo(prev, EncodeRecallMessageInfo(r)).recallMessage ==
      if r.recallMessage.Some? then Some(AfterMessageRoundTrip(r.recallMessage.value, NewMessage(None, "", 0))) else prev.recallMessage
  {
    var jo := EncodeRecallMessageInfo(r);
    RecalledMessageWritten(r);
    if r.recallMessage.Some? {
      var m := r.recallMessage.value;
      assert RecalledMessage(prev.recallMessage, Get(jo, "recallMessage")) == Some(MessageFromObject(EncodeMessage(m)));
      MessageFromObjectRoundTrip(m);
    }
  }

  /** The setters are private: after construction only a decode changes the record. */
  class RecallMessageInfo {
    var recallBy: NString
    var recallMessageId: NString
    var ext: NString
    var recallMessage: Option<MessageValue>
    var conversationId: NString

    function Value(): RecallMessageInfoValue
      reads this
    {
      RecallMessageInfoValue(recallBy, recallMessageId, ext, recallMessage, conversationId)
    }

    constructor ()
      ensures Value() == RecallMessageInfoValue(None, None, None, None, None)
    {
      recallBy, recallMessageId, ext, recallMessage, conversationId := None, None, None, None, None;
    }

    method FromJsonObject(jo: JsonObject)
      modifies this
      ensures Value() == DecodeRecallMessageInfo(old(Value()), jo)
    {
      recallBy := Str(Get(jo, "recallBy"));
      recallMessageId := Str(Get(jo, "recallMessageId"));
      ext := Str(Get(jo, "ext"));
      conversationId := Str(Get(jo, "conversationId"));
      var rm := Get(jo, "recallMessage");
      if rm.Some? && rm.value.JObj? {
        recallMessage := Some(MessageFromObject(rm.value.fields));
      }
    }

    function ToJsonObject(): JsonObject
      reads this
      requires Encodable(Value())
    {
      EncodeRecallMessageInfo(Value())
    }
  }
}
