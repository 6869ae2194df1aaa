/**
 * Conversations (Conversation.cs): the local handle on a conversation. Everything but the
 * identity, the pin state and the cached extension is asked of the conversation manager, which
 * is not part of this model.
 */
module ConversationModel {
  import opened Wrappers
  import opened Json
  import opened Enumerations

  datatype ConversationValue = ConversationValue(
    id: NString,
    convType: ConversationType,
    isThread: bool,
    isPinned: bool,
    pinnedTime: int,
    ext: Option<map<string, string>>)

  /** `FromJsonObject`: every field is read from the object (the object itself is never a JSON null). */
  function DecodeConversation(jo: JsonObject): (c: ConversationValue)
    ensures c.ext.Some?
    ensures c.id.None? <==> IsNullish(Get(jo, "convId"))
  {
    ConversationValue(
      Str(Get(jo, "convId")),
      ToConversationType(AsNum(Get(jo, "type"))),
      AsBool(Get(jo, "isThread")),
      AsBool(Get(jo, "isPinned")),
      AsNum(Get(jo, "pinnedTime")),
      Some(StringDict(Get(jo, "ext"))))
  }

  /** `ToJsonObject`: only the identity of the conversation is written. */
  function EncodeConversation(c: ConversationValue): JsonObject
  {
    PutStr(map[], "convId", c.id)["type" := JNum(c.convType.Code())]["isThread" := JBool(c.isThread)]
  }

  /**
   * Writing a conversation and reading it back keeps its identity; the pin state and the
   * extension are not written, so they come back unpinned, at time 0, with an empty extension.
   */
  lemma ConversationRoundTrip(c: ConversationValue)
    ensures DecodeConversation(EncodeConversation(c)) == c.(isPinned := false, pinnedTime := 0, ext := Some(map[]))
  {
    ConversationTypeCodeRoundTrip(c.convType);
  }

  /**
   * An unpinned conversation is documented to carry pin time 0, but decoding copies both keys
   * as they come: any object holding `isPinned: false` and a pin time decodes to an unpinned
   * conversation with that time, and changing `pinnedTime` never changes the pin state.
   */
  lemma PinTimeNotTiedToPinState(jo: JsonObject, t: int)
    ensures Get(jo, "isPinned") == Some(JBool(false)) && Get(jo, "pinnedTime") == Some(JNum(t)) ==>
      !DecodeConversation(jo).isPinned && DecodeConversation(jo).pinnedTime == t
    ensures DecodeConversation(jo["pinnedTime" := JNum(t)]).pinnedTime == t
    ensures DecodeConversation(jo["pinnedTime" := JNum(t)]).isPinned == DecodeConversation(jo).isPinned
  {
    assert Get(jo["pinnedTime" := JNum(t)], "isPinned") == Get(jo, "isPinned");
  }

  /** The extension cached after the `Ext` setter as written: `_Ext = Ext` assigns the cache to itself. */
  function ExtAfterSetAsWritten(cached: Option<map<string, string>>, value: Option<map<string, string>>, accepted: bool): Option<map<string, string>>
  {
    if accepted then cached else cached
  }

  /** The extension cached after the `Ext` setter as intended: the new value once the native layer accepts it. */
  function ExtAfterSet(cached: Option<map<string, string>>, value: Option<map<string, string>>, accepted: bool): Option<map<string, string>>
  {
    if accepted then value else cached
  }

  /** Even when the native layer accepts an extension, the getter keeps returning the old one. */
  lemma ExtSetterAsWrittenLosesValue(cached: Option<map<string, string>>, value: Option<map<string, string>>)
    requires value != cached
    ensures ExtAfterSetAsWritten(cached, value, true) != value
  {
  }

  /** Reading the extension after setting it gives what was set when the native layer accepted it, and the old one otherwise. */
  lemma ExtGetAfterSet(cached: Option<map<string, string>>, value: Option<map<string, string>>, accepted: bool)
    ensures accepted ==> ExtAfterSet(cached, value, accepted) == value
    ensures !accepted ==> ExtAfterSet(cached, value, accepted) == cached
    ensures ExtAfterSet(ExtAfterSet(cached, value, accepted), value, accepted) == ExtAfterSet(cached, value, accepted)
  {
  }

  /** `LoadMessages`: a null start id is passed on as "". */
  function LoadMessagesStartId(startMessageId: NString): (s: string)
    ensures startMessageId.Some? ==> s == startMessageId.value
    ensures startMessageId.None? ==> s == ""
  {
    startMessageId.GetOr("")
  }

  class Conversation {
    var id: NString
    var convType: ConversationType
    var isThread: bool
    var isPinned: bool
    var pinnedTime: int
    var ext: Option<map<string, string>>

    function Value(): ConversationValue
      reads this
    {
      ConversationValue(id, convType, isThread, isPinned, pinnedTime, ext)
    }

    /** `new Conversation()`: no id, a one-to-one chat, unpinned, no cached extension. */
    constructor ()
      ensures Value() == ConversationValue(None, ConversationType.Chat, false, false, 0, None)
    {
      id, convType, isThread, isPinned, pinnedTime, ext := None, ConversationType.Chat, false, false, 0, None;
    }

    method FromJsonObject(jo: JsonObject)
      modifies this
      ensures Value() == DecodeConversation(jo)
    {
      var c := DecodeConversation(jo);
      id, convType, isThread, isPinned, pinnedTime, ext := c.id, c.convType, c.isThread, c.isPinned, c.pinnedTime, c.ext;
    }

    function ToJsonObject(): JsonObject
      reads this
    {
      EncodeConversation(Value())
    }

    /** The `Ext` setter as written; `accepted` is what the native `SetExt` answered. */
    method SetExtAsWritten(value: Option<map<string, string>>, accepted: bool)
      modifies this`ext
      ensures ext == ExtAfterSetAsWritten(old(ext), value, accepted)
      ensures ext == old(ext)
    {
      if accepted {
        ext := ext;
      }
    }

    /** The `Ext` setter as intended: the cache follows what the native layer accepted. */
    method SetExt(value: Option<map<string, string>>, accepted: bool)
      modifies this`ext
      ensures ext == ExtAfterSet(old(ext), value, accepted)
      ensures accepted ==> ext == value
    {
      if accepted {
        ext := value;
      }
    }
  }
}
