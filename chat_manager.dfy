/**
 * The chat manager (ChatManager.cs): its listeners and the delivery of message events to them,
 * the table of messages whose send is in flight (`msgMap`, keyed by callback id), `SendMessage`,
 * and the request rules of the history fetches.
 */
module ChatManagerModel {
  import opened Wrappers
  import opened Collections
  import opened Json
  import opened Enumerations
  import opened Registry
  import opened MessageModel
  import opened RecallMessageInfoModel
  import opened GroupReadAckModel
  import opened MessageReactionChangeModel
  import opened FetchServerMessagesOptionModel

  /** The message events the native layer reports (the cases of the `switch`). */
  datatype ChatEvent =
    | MessagesReceived | CmdMessagesReceived | MessagesRead | MessagesDelivered | MessagesRecalled
    | ReadAckForGroupMessageUpdated | GroupMessageRead | ConversationsUpdate | ConversationRead
    | MessageReactionChanged | MessageContentChanged | MessagePinChanged | MessageIdChanged

  /** The `SDKMethod` name each event arrives under. */
  function ChatMethodName(e: ChatEvent): string
  {
    match e
    case MessagesReceived => "onMessagesReceived"
    case CmdMessagesReceived => "onCmdMessagesReceived"
    case MessagesRead => "onMessagesRead"
    case MessagesDelivered => "onMessagesDelivered"
    case MessagesRecalled => "onMessagesRecalledByExt"
    case ReadAckForGroupMessageUpdated => "onReadAckForGroupMessageUpdated"
    case GroupMessageRead => "onGroupMessageRead"
    case ConversationsUpdate => "onConversationsUpdate"
    case ConversationRead => "onConversationRead"
    case MessageReactionChanged => "onMessageReactionDidChange"
    case MessageContentChanged => "onMessageContentChanged"
    case MessagePinChanged => "onMessagePinChanged"
    case MessageIdChanged => "onMessageIdChanged"
  }

  /** Every case of the switch, in the source's order. */
  const AllChatEvents: seq<ChatEvent> := [
    MessagesReceived, CmdMessagesReceived, MessagesRead, MessagesDelivered, MessagesRecalled,
    ReadAckForGroupMessageUpdated, GroupMessageRead, ConversationsUpdate, ConversationRead,
    MessageReactionChanged, MessageContentChanged, MessagePinChanged, MessageIdChanged]

  /** The position of each event in the switch. */
  function ChatEventIndex(e: ChatEvent): (i: nat)
    ensures i < |AllChatEvents| && AllChatEvents[i] == e
  {
    match e
    case MessagesReceived => 0
    case CmdMessagesReceived => 1
    case MessagesRead => 2
    case MessagesDelivered => 3
    case MessagesRecalled => 4
    case ReadAckForGroupMessageUpdated => 5
    case GroupMessageRead => 6
    case ConversationsUpdate => 7
    case ConversationRead => 8
    case MessageReactionChanged => 9
    case MessageContentChanged => 10
    case MessagePinChanged => 11
    case MessageIdChanged => 12
  }

  /** A name that no case of the switch matches is the name of no event at all. */
  lemma NoChatEventNamed(methodName: string)
    requires forall i :: 0 <= i < |AllChatEvents| ==> ChatMethodName(AllChatEvents[i]) != methodName
    ensures forall k :: ChatMethodName(k) != methodName
  {
    forall k ensures ChatMethodName(k) != methodName {
      assert AllChatEvents[ChatEventIndex(k)] == k;
    }
  }

  /** The `switch (method)`: the event a method name stands for, if it names one. */
  function ChatEventOf(methodName: string): (e: Option<ChatEvent>)
    ensures e.Some? ==> ChatMethodName(e.value) == methodName
    ensures e.None? ==> forall k :: ChatMethodName(k) != methodName
  {
    var e := Lookup(AllChatEvents, ChatMethodName, methodName);
    if e.None? then NoChatEventNamed(methodName); e else e
  }

  /** The callbacks of `IChatManagerDelegate` and their arguments. */
  datatype ChatCallback =
    | OnMessagesReceived(messages: seq<MessageValue>)
    | OnCmdMessagesReceived(messages: seq<MessageValue>)
    | OnMessagesRead(messages: seq<MessageValue>)
    | OnMessagesDelivered(messages: seq<MessageValue>)
    | OnMessagesRecalled(recalls: seq<RecallMessageInfoValue>)
    | OnReadAckForGroupMessageUpdated
    | OnGroupMessageRead(acks: seq<GroupReadAckValue>)
    | OnConversationsUpdate
    | OnConversationRead(from: NString, to: NString)
    | MessageReactionDidChange(changes: seq<MessageReactionChangeValue>)
    | OnMessageContentChanged(msg: MessageValue, operatorId: NString, operationTime: int)
    | OnMessagePinChanged(messageId: NString, conversationId: NString, isPinned: bool, operatorId: NString, operationTime: int)
  {
    /** The event whose case of the switch makes this call. */
    function Event(): ChatEvent
    {
      match this
      case OnMessagesReceived(_) => MessagesReceived
      case OnCmdMessagesReceived(_) => CmdMessagesReceived
      case OnMessagesRead(_) => MessagesRead
      case OnMessagesDelivered(_) => MessagesDelivered
      case OnMessagesRecalled(_) => MessagesRecalled
      case OnReadAckForGroupMessageUpdated => ReadAckForGroupMessageUpdated
      case OnGroupMessageRead(_) => GroupMessageRead
      case OnConversationsUpdate => ConversationsUpdate
      case OnConversationRead(_, _) => ConversationRead
      case MessageReactionDidChange(_) => MessageReactionChanged
      case OnMessageContentChanged(_, _, _) => MessageContentChanged
      case OnMessagePinChanged(_, _, _, _, _) => MessagePinChanged
    }
  }

  /** The events whose callback takes a decoded list, and is made only when that list is not empty. */
  predicate IsListEvent(e: ChatEvent)
  {
    e in {MessagesReceived, CmdMessagesReceived, MessagesRead, MessagesDelivered, MessagesRecalled,
          GroupMessageRead, MessageReactionChanged}
  }

  /** The models of an event payload array, in order. */
  function PayloadMessages(payload: Json): seq<MessageValue>
  {
    ModelList(Some(payload), MessageFromObject)
  }

  function PayloadRecalls(payload: Json): seq<RecallMessageInfoValue>
  {
    ModelList(Some(payload), (jo: JsonObject) => DecodeRecallMessageInfo(RecallMessageInfoValue(None, None, None, None, None), jo))
  }

  function PayloadAcks(payload: Json): seq<GroupReadAckValue>
  {
    ModelList(Some(payload), DecodeGroupReadAck)
  }

  function PayloadReactionChanges(payload: Json): seq<MessageReactionChangeValue>
  {
    ModelList(Some(payload), DecodeMessageReactionChange)
  }

  /** How many items a list event decoded; 1 for the events that decode no list. */
  function DecodedCount(e: ChatEvent, payload: Json): nat
  {
    match e
    case MessagesReceived => |PayloadMessages(payload)|
    case CmdMessagesReceived => |PayloadMessages(payload)|
    case MessagesRead => |PayloadMessages(payload)|
    case MessagesDelivered => |PayloadMessages(payload)|
    case MessagesRecalled => |PayloadRecalls(payload)|
    case GroupMessageRead => |PayloadAcks(payload)|
    case MessageReactionChanged => |PayloadReactionChanges(payload)|
    case _ => 1
  }

  /** `new Message(jsonNode["msg"].AsObject)`: a node that is not an object leaves a new message as it is. */
  function ContentChangedMessage(n: Node): MessageValue
  {
    match AsObject(n)
    case Some(o) => MessageFromObject(o)
    case None => NewMessage(None, "", 0)
  }

  /** Wraps a list callback: `if (list.Count > 0)` in the source's loop. */
  function WhenNonEmpty<T>(list: seq<T>, cb: ChatCallback): (r: Option<ChatCallback>)
    ensures r.Some? <==> |list| > 0
    ensures r.Some? ==> r.value == cb
  {
    if |list| > 0 then Some(cb) else None
  }

  /**
   * One case of the switch: the callback event `e` makes, if any. A list event makes none for an
   * empty list, and `onMessageIdChanged` makes none at all (its body is commented out).
   */
  function ChatCallbackFor(e: ChatEvent, payload: Json): (cb: Option<ChatCallback>)
    ensures cb.None? <==> e == MessageIdChanged || (IsListEvent(e) && DecodedCount(e, payload) == 0)
    ensures cb.Some? ==> cb.value.Event() == e
  {
    match e
    case MessagesReceived => WhenNonEmpty(PayloadMessages(payload), OnMessagesReceived(PayloadMessages(payload)))
    case CmdMessagesReceived => WhenNonEmpty(PayloadMessages(payload), OnCmdMessagesReceived(PayloadMessages(payload)))
    case MessagesRead => WhenNonEmpty(PayloadMessages(payload), OnMessagesRead(PayloadMessages(payload)))
    case MessagesDelivered => WhenNonEmpty(PayloadMessages(payload), OnMessagesDelivered(PayloadMessages(payload)))
    case MessagesRecalled => WhenNonEmpty(PayloadRecalls(payload), OnMessagesRecalled(PayloadRecalls(payload)))
    case ReadAckForGroupMessageUpdated => Some(OnReadAckForGroupMessageUpdated)
    case GroupMessageRead => WhenNonEmpty(PayloadAcks(payload), OnGroupMessageRead(PayloadAcks(payload)))
    case ConversationsUpdate => Some(OnConversationsUpdate)
    case ConversationRead => Some(OnConversationRead(Str(Field(payload, "from")), Str(Field(payload, "to"))))
    case MessageReactionChanged =>
      WhenNonEmpty(PayloadReactionChanges(payload), MessageReactionDidChange(PayloadReactionChanges(payload)))
    case MessageContentChanged =>
      Some(OnMessageContentChanged(ContentChangedMessage(Field(payload, "msg")),
        Str(Field(payload, "operatorId")), AsNum(Field(payload, "operationTime"))))
    case MessagePinChanged =>
      Some(OnMessagePinChanged(Str(Field(payload, "msgId")), Str(Field(payload, "convId")),
        AsBool(Field(payload, "isPinned")), Str(Field(payload, "operatorId")), AsNum(Field(payload, "ts"))))
    case MessageIdChanged => None
  }

  /** The callback one native event selects. */
  function ChatSelection(methodName: string, payload: Json): Option<ChatCallback>
  {
    match ChatEventOf(methodName)
    case None => None
    case Some(e) => ChatCallbackFor(e, payload)
  }

  /** What `NativeEventHandle` delivers to the delegates `ds`. */
  function ChatDispatch<D>(ds: seq<D>, methodName: string, payload: Json): seq<Invocation<D, ChatCallback>>
  {
    if |ds| == 0 then [] else Dispatched(ds, ChatSelection(methodName, payload))
  }

  /**
   * Nothing is delivered without delegates, for an unknown method, for `onMessageIdChanged`, or for
   * a list event whose list decodes empty; otherwise every delegate, in order, receives the one
   * callback of the event.
   */
  lemma ChatDispatchSpec<D>(ds: seq<D>, methodName: string, payload: Json)
    ensures ChatDispatch(ds, methodName, payload) == [] <==>
      |ds| == 0 || ChatEventOf(methodName).None? || ChatEventOf(methodName) == Some(MessageIdChanged) ||
      (IsListEvent(ChatEventOf(methodName).value) && DecodedCount(ChatEventOf(methodName).value, payload) == 0)
    ensures ChatDispatch(ds, methodName, payload) != [] ==>
      Targets(ChatDispatch(ds, methodName, payload)) == ds &&
      forall i :: 0 <= i < |ds| ==> Some(ChatDispatch(ds, methodName, payload)[i].callback) == ChatCallbackFor(ChatEventOf(methodName).value, payload)
    ensures forall i :: 0 <= i < |ChatDispatch(ds, methodName, payload)| ==>
      Some(ChatDispatch(ds, methodName, payload)[i].callback.Event()) == ChatEventOf(methodName)
  {
    DispatchedSpec(ds, ChatSelection(methodName, payload));
  }

  /** No two events arrive under the same name. */
  lemma ChatMethodNameInjective(a: ChatEvent, b: ChatEvent)
    ensures ChatMethodName(a) == ChatMethodName(b) ==> a == b
  {
    if a != b {
      assert ChatMethodName(a) != ChatMethodName(b);
    }
  }

  /** Each event is recognised under its own name. */
  lemma ChatMethodNameRoundTrip(e: ChatEvent)
    ensures ChatEventOf(ChatMethodName(e)) == Some(e)
  {
    ChatMethodNameInjective(ChatEventOf(ChatMethodName(e)).value, e);
  }

  /** A model list is empty exactly when the node is no array or the array holds no object. */
  lemma {:induction false} DecodesSomeObject<T>(items: seq<Json>, decode: JsonObject -> T)
    ensures FilterMap(items, DecodeObjects(decode)) != [] <==> exists i :: 0 <= i < |items| && items[i].JObj?
  {
    if items != [] {
      var last := |items| - 1;
      var init := items[..last];
      DecodesSomeObject(init, decode);
      assert forall i :: 0 <= i < |init| ==> init[i] == items[i];
      if items[last].JObj? {
        assert Keep(DecodeObjects(decode)(items[last])) != [];
      } else {
        assert Keep(DecodeObjects(decode)(items[last])) == [];
        if exists i :: 0 <= i < |items| && items[i].JObj? {
          var i :| 0 <= i < |items| && items[i].JObj?;
          assert i < last && init[i].JObj?;
        }
      }
    }
  }

  /**
   * A list event reaches the delegates exactly when there is one and the payload is an array with
   * at least one object in it: an array of nothing but non-objects, or a payload that is no array,
   * delivers nothing.
   */
  lemma ListEventDelivery<D>(ds: seq<D>, e: ChatEvent, payload: Json)
    requires IsListEvent(e)
    ensures ChatDispatch(ds, ChatMethodName(e), payload) != [] <==>
      |ds| > 0 && payload.JArr? && exists i :: 0 <= i < |payload.items| && payload.items[i].JObj?
  {
    ChatMethodNameRoundTrip(e);
    ChatDispatchSpec(ds, ChatMethodName(e), payload);
    if payload.JArr? {
      match e
      case MessagesRecalled =>
        DecodesSomeObject(payload.items, (jo: JsonObject) => DecodeRecallMessageInfo(RecallMessageInfoValue(None, None, None, None, None), jo));
      case GroupMessageRead => DecodesSomeObject(payload.items, DecodeGroupReadAck);
      case MessageReactionChanged => DecodesSomeObject(payload.items, DecodeMessageReactionChange);
      case MessagesReceived => DecodesSomeObject(payload.items, MessageFromObject);
      case CmdMessagesReceived => DecodesSomeObject(payload.items, MessageFromObject);
      case MessagesRead => DecodesSomeObject(payload.items, MessageFromObject);
      case MessagesDelivered => DecodesSomeObject(payload.items, MessageFromObject);
      case _ =>
    }
  }

  /** The request `FetchHistoryMessagesFromServer` sends. */
  function FetchHistoryRequest(conversationId: NString, convType: ConversationType, startMessageId: NString,
                               count: int, direction: MessageSearchDirection): JsonObject
  {
    PutStr(map[], "convId", conversationId)
      ["convType" := JNum(convType.Code())]
      ["startMsgId" := JStr(startMessageId.GetOr(""))]
      ["direction" := JNum(if direction == MessageSearchDirection.UP then 0 else 1)]
      ["count" := JNum(count)]
  }

  /**
   * A null start id is sent as "", so `startMsgId` is always there; the direction is sent as its
   * code and the conversation type reads back as passed.
   */
  lemma FetchHistoryRequestSpec(conversationId: NString, convType: ConversationType, startMessageId: NString,
                                count: int, direction: MessageSearchDirection)
    ensures Get(FetchHistoryRequest(conversationId, convType, startMessageId, count, direction), "startMsgId") ==
      Some(JStr(if startMessageId.Some? then startMessageId.value else ""))
    ensures AsNum(Get(FetchHistoryRequest(conversationId, convType, startMessageId, count, direction), "direction")) == direction.Code()
    ensures ToConversationType(AsNum(Get(FetchHistoryRequest(conversationId, convType, startMessageId, count, direction), "convType"))) == convType
    ensures Str(Get(FetchHistoryRequest(conversationId, convType, startMessageId, count, direction), "convId")) == conversationId
    ensures AsNum(Get(FetchHistoryRequest(conversationId, convType, startMessageId, count, direction), "count")) == count
  {
    ConversationTypeCodeRoundTrip(convType);
  }

  /** The request `FetchHistoryMessagesFromServerBy` sends. */
  function FetchHistoryByRequest(conversationId: NString, convType: ConversationType, cursor: NString,
                                 pageSize: int, option: Option<FetchServerMessagesOptionValue>): JsonObject
  {
    var jo := PutStr(map[], "convId", conversationId)
      ["convType" := JNum(convType.Code())]
      ["cursor" := JStr(cursor.GetOr(""))]
      ["pageSize" := JNum(pageSize)];
    if option.Some? then jo["options" := JObj(EncodeFetchServerMessagesOption(option.value))] else jo
  }

  /** A null cursor is sent as ""; `options` is written exactly when an option is given, as its JSON form. */
  lemma FetchHistoryByRequestSpec(conversationId: NString, convType: ConversationType, cursor: NString,
                                  pageSize: int, option: Option<FetchServerMessagesOptionValue>)
    ensures Get(FetchHistoryByRequest(conversationId, convType, cursor, pageSize, option), "cursor") ==
      Some(JStr(if cursor.Some? then cursor.value else ""))
    ensures "options" in FetchHistoryByRequest(conversationId, convType, cursor, pageSize, option) <==> option.Some?
    ensures option.Some? ==>
      AsObject(Get(FetchHistoryByRequest(conversationId, convType, cursor, pageSize, option), "options")) ==
        Some(EncodeFetchServerMessagesOption(option.value))
    ensures AsNum(Get(FetchHistoryByRequest(conversationId, convType, cursor, pageSize, option), "pageSize")) == pageSize
  {
  }

  class ChatManager<D(==)> {
    /** The registered `IChatManagerDelegate`s, in registration order. */
    var delegater: seq<D>
    /** The messages whose send is in flight, by the id of the send's callback. */
    var msgMap: map<string, Message>

    constructor ()
      ensures delegater == [] && msgMap == map[]
    {
      delegater := [];
      msgMap := map[];
    }

    /** `AddChatManagerDelegate`: appends `d` unless it is registered already. */
    method AddChatManagerDelegate(d: D)
      modifies this`delegater
      ensures delegater == AddIfAbsent(old(delegater), d)
      ensures NoDup(old(delegater)) ==> NoDup(delegater)
    {
      if NoDup(delegater) {
        AddIfAbsentSpec(delegater, d);
      }
      if d !in delegater {
        delegater := delegater + [d];
      }
    }

    /** `RemoveChatManagerDelegate`: removes `d` if it is registered. */
    method RemoveChatManagerDelegate(d: D)
      modifies this`delegater
      ensures delegater == RemoveFirst(old(delegater), d)
      ensures NoDup(old(delegater)) ==> NoDup(delegater) && d !in delegater
    {
      if NoDup(delegater) {
        RemoveFirstSpec(delegater, d);
      }
      if d in delegater {
        delegater := RemoveFirst(delegater, d);
      } else {
        RemoveAbsent(delegater, d);
      }
    }

    method ClearDelegates()
      modifies this`delegater
      ensures delegater == []
    {
      delegater := [];
    }

    /** `NativeEventHandle`: returns the callbacks delivered, in the order they are made. */
    method NativeEventHandle(methodName: string, payload: Json) returns (fired: seq<Invocation<D, ChatCallback>>)
      ensures fired == ChatDispatch(delegater, methodName, payload)
    {
      if |delegater| == 0 {
        return [];
      }
      var e := ChatEventOf(methodName);
      fired := [];
      if e.Some? {
        fired := Deliver(delegater, ChatCallbackFor(e.value, payload));
      }
    }

    /** `AddMsgMap`: `Dictionary.Add` throws on a key it holds, so the id must be new. */
    method AddMsgMap(cbid: string, msg: Message)
      requires cbid !in msgMap
      modifies this`msgMap
      ensures msgMap == old(msgMap)[cbid := msg]
    {
      msgMap := msgMap[cbid := msg];
    }

    /** `UpdatedMsg`: the message under `cbid`, if any, is overwritten from the node when it is an object. */
    method UpdatedMsg(cbid: string, n: Node)
      modifies if cbid in msgMap then {msgMap[cbid]} else {}
      ensures msgMap == old(msgMap)
      ensures cbid in msgMap ==> msgMap[cbid].Value() == FromJson(old(msgMap[cbid].Value()), n)
    {
      if cbid in msgMap {
        var msg := msgMap[cbid];
        if !IsNullish(n) && IsObject(n) {
          msg.FromJsonObject(n);
        }
      }
    }

    /** `DeleteFromMsgMap`: drops `cbid` if present; the other entries stay. */
    method DeleteFromMsgMap(cbid: string)
      modifies this`msgMap
      ensures msgMap == old(msgMap) - {cbid}
    {
      if cbid in msgMap {
        msgMap := msgMap - {cbid};
      }
    }

    /**
     * `SendMessage`: registers the message under its callback's id (the callback is dereferenced,
     * so it must be given, and its id must be new), returns the request built from the message, and
     * overwrites the message from the `ret` of what the native call returns, if it returns anything.
     */
    method SendMessage(message: Message, callbackId: Option<string>, nativeReturn: Node) returns (request: JsonObject)
      requires callbackId.Some? && callbackId.value !in msgMap
      requires message.body.Some?
      modifies this`msgMap, message
      ensures msgMap == old(msgMap)[callbackId.value := message]
      ensures request == EncodeMessage(old(message.Value()))
      ensures message.Value() ==
        if IsNullish(nativeReturn) then old(message.Value())
        else FromJson(old(message.Value()), Field(nativeReturn.value, "ret"))
    {
      AddMsgMap(callbackId.value, message);
      request := message.ToJsonObject();
      if !IsNullish(nativeReturn) {
        UpdatedMsg(callbackId.value, Field(nativeReturn.value, "ret"));
      }
    }

    /** The completion `Process` of `SendMessage`: updates the message from the result, then forgets it. */
    method SendCompleted(cbid: string, result: Json)
      modifies this`msgMap, if cbid in msgMap then {msgMap[cbid]} else {}
      ensures msgMap == old(msgMap) - {cbid}
      ensures cbid !in msgMap
      ensures cbid in old(msgMap) ==> old(msgMap)[cbid].Value() == FromJson(old(msgMap[cbid].Value()), Field(result, "ret"))
    {
      UpdatedMsg(cbid, Field(result, "ret"));
      DeleteFromMsgMap(cbid);
    }
  }
}
