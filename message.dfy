/**
 * Messages (Message.cs): a message object whose fields the SDK and the native layer update in
 * place, its factories, its extension attributes, and its JSON form.
 *
 * `MessageValue` is the abstract value of a message (all fields, including the private
 * priority); `Message` is the class holding those fields. The codec and the lemmas are stated on
 * values, and the class's methods are tied to them.
 */
module MessageModel {
  import opened Wrappers
  import opened Json
  import opened Enumerations
  import opened MessageBodyModel

  // ----- extension attributes -----

  /** The value an attribute holds (floating-point attributes are not modelled). */
  datatype AttrPayload = BoolValue(b: bool) | NumberValue(n: int) | TextValue(s: string)

  /** An `AttributeValue`: its declared type and the value it holds, if any. */
  datatype AttributeValue = AttributeValue(kind: AttributeValueType, payload: Option<AttrPayload>)

  type Attributes = map<string, AttributeValue>

  /** The node of one attribute: its type code and its value. */
  function AttributeNode(a: AttributeValue): Json
  {
    var payload := match a.payload
      case None => JNull
      case Some(BoolValue(b)) => JBool(b)
      case Some(NumberValue(n)) => JNum(n)
      case Some(TextValue(s)) => JStr(s);
    JObj(map["type" := JNum(a.kind.Code()), "value" := payload])
  }

  /** Reading one attribute back; a node that is not an object is no attribute. */
  function AttributeOf(j: Json): Option<AttributeValue>
  {
    match j
    case JObj(o) =>
      var payload := match Get(o, "value")
        case Some(JBool(b)) => Some(BoolValue(b))
        case Some(JNum(n)) => Some(NumberValue(n))
        case Some(JStr(s)) => Some(TextValue(s))
        case _ => None;
      Some(AttributeValue(ToAttributeValueType(AsNum(Get(o, "type"))), payload))
    case _ => None
  }

  lemma AttributeRoundTrip(a: AttributeValue)
    ensures AttributeOf(AttributeNode(a)) == Some(a)
  {
    AttributeValueTypeCodeRoundTrip(a.kind);
  }

  /** `JsonObjectFromAttributes`: a null dictionary has no node. */
  function AttributesNode(attrs: Option<Attributes>): (n: Node)
    ensures n.None? <==> attrs.None?
  {
    match attrs
    case None => None
    case Some(m) => Some(JObj(map k | k in m :: AttributeNode(m[k])))
  }

  /** `DictFromJsonObject`: the entries that read as attributes; no object gives an empty dictionary. */
  function AttributesOf(o: Option<JsonObject>): Attributes
  {
    match o
    case None => map[]
    case Some(m) => map k | k in m && AttributeOf(m[k]).Some? :: AttributeOf(m[k]).value
  }

  /** An attribute dictionary survives its JSON form; a null one comes back empty. */
  lemma AttributesRoundTrip(attrs: Option<Attributes>)
    ensures AttributesOf(AsObject(AttributesNode(attrs))) == attrs.GetOr(map[])
  {
    if attrs.Some? {
      var m := attrs.value;
      var o := map k | k in m :: AttributeNode(m[k]);
      forall k | k in m ensures AttributeOf(o[k]) == Some(m[k]) {
        AttributeRoundTrip(m[k]);
      }
      assert AttributesOf(Some(o)) == m;
    }
  }

  /** `GetAttributeValueType`: a null attribute reads as NULLOBJ. */
  function GetAttributeValueType(value: Option<AttributeValue>): (t: AttributeValueType)
    ensures value.Some? ==> t == value.value.kind
    ensures value.None? ==> t == NULLOBJ
  {
    match value
    case None => NULLOBJ
    case Some(a) => a.kind
  }

  /**
   * `SetAttribute`: stores the attribute `AttributeValue.Of` built, into a non-null dictionary;
   * `attr` is None when that conversion failed.
   */
  function SetAttribute(arriMap: Option<Attributes>, key: string, attr: Option<AttributeValue>): (r: Option<Attributes>)
    ensures arriMap.None? ==> r.None?
    ensures arriMap.Some? && attr.Some? ==> r == Some(arriMap.value[key := attr.value])
    ensures attr.None? ==> r == arriMap
  {
    if arriMap.Some? && attr.Some? then Some(arriMap.value[key := attr.value]) else arriMap
  }

  /** `GetAttributeValue(value, out found)`: the held value; `found` is `r.Some?`. */
  function GetAttributeValue(value: Option<AttributeValue>): (r: Option<AttrPayload>)
    ensures r.Some? <==> value.Some? && value.value.payload.Some?
  {
    match value
    case None => None
    case Some(a) => a.payload
  }

  /** `GetAttributeValue(arriMap, key, out found)`: not found for a null dictionary or a missing key. */
  function GetAttributeValueAt(arriMap: Option<Attributes>, key: string): (r: Option<AttrPayload>)
    ensures arriMap.None? || key !in arriMap.value ==> r.None?
  {
    if arriMap.Some? && key in arriMap.value then GetAttributeValue(Some(arriMap.value[key])) else None
  }

  /** An attribute stored under a key is read back from that key; every other key reads as before. */
  lemma SetThenGetAttribute(arriMap: Attributes, key: string, other: string, a: AttributeValue)
    ensures GetAttributeValueAt(SetAttribute(Some(arriMap), key, Some(a)), key) == a.payload
    ensures other != key ==>
      GetAttributeValueAt(SetAttribute(Some(arriMap), key, Some(a)), other) == GetAttributeValueAt(Some(arriMap), other)
    ensures GetAttributeValueType(Some(SetAttribute(Some(arriMap), key, Some(a)).value[key])) == a.kind
  {
  }

  // ----- the message value -----

  datatype MessageValue = MessageValue(
    msgId: NString,
    conversationId: NString,
    from: NString,
    to: NString,
    messageType: MessageType,
    priority: RoomMessagePriority,
    deliverOnlineOnly: bool,
    direction: MessageDirection,
    status: MessageStatus,
    localTime: int,
    serverTime: int,
    hasDeliverAck: bool,
    hasReadAck: bool,
    isNeedGroupAck: bool,
    isRead: bool,
    messageOnlineState: bool,
    body: Option<Body>,
    attributes: Option<Attributes>,
    receiverList: Option<seq<string>>,
    isThread: bool,
    broadcast: bool,
    isContentReplaced: bool)

  /**
   * A new message with the field initialisers: the message id and the local time come from the
   * clock (and a random number) and are parameters here.
   */
  function NewMessage(body: Option<Body>, msgId: string, now: int): (v: MessageValue)
    ensures v.body == body && v.msgId == Some(msgId) && v.localTime == now
    ensures v.priority == Normal && v.status == CREATE && v.direction == SEND
    ensures v.attributes.None? && v.receiverList.None?
  {
    MessageValue(Some(msgId), Some(""), Some(""), Some(""), MessageType.Chat, Normal, false, SEND, CREATE,
      now, 0, false, false, false, false, false, body, None, None, false, false, false)
  }

  /** The `user_name` the factories use: the current user, or "" when there is none. */
  function UserOrEmpty(user: NString): string
  {
    if user.None? then "" else user.value
  }

  /** `CreateReceiveMessage`: a received message from the current user, not yet read-acknowledged. */
  function ReceiveMessage(currentUser: NString, msgId: string, now: int): (v: MessageValue)
    ensures v.direction == RECEIVE && !v.hasReadAck && v.body.None?
    ensures v.from == Some(UserOrEmpty(currentUser)) && v.from.value == (if currentUser.Some? then currentUser.value else "")
  {
    NewMessage(None, msgId, now).(direction := RECEIVE, hasReadAck := false, from := Some(UserOrEmpty(currentUser)))
  }

  /** `CreateSendMessage`: addressed to `to` (or ""), in the conversation named after the recipient, already read. */
  function SendMessage(to: NString, body: Option<Body>, direction: MessageDirection, hasRead: bool,
                       currentUser: NString, msgId: string, now: int): (v: MessageValue)
    ensures v.to == v.conversationId == Some(UserOrEmpty(to))
    ensures v.from == Some(UserOrEmpty(currentUser))
    ensures v.direction == direction && v.hasReadAck == hasRead && v.isRead && v.body == body
    ensures v.priority == Normal && v.status == CREATE && v.attributes.None?
  {
    NewMessage(body, msgId, now).(
      direction := direction, hasReadAck := hasRead, to := Some(UserOrEmpty(to)),
      from := Some(UserOrEmpty(currentUser)), conversationId := Some(UserOrEmpty(to)), isRead := true)
  }

  /** The body each typed factory (`CreateTextSendMessage` … `CreateCombineSendMessage`) sends. */
  datatype SendRequest =
    | TextRequest(content: NString)
    | FileRequest(localPath: NString, displayName: NString, fileSize: int)
    | ImageRequest(localPath: NString, displayName: NString, fileSize: int, original: bool)
    | VideoRequest(localPath: NString, displayName: NString, thumbnailLocalPath: NString, fileSize: int, duration: int)
    | VoiceRequest(localPath: NString, displayName: NString, fileSize: int, duration: int)
    | LocationRequest(address: NString, buildingName: NString)
    | CmdRequest(action: NString, deliverOnlineOnly: bool)
    | CustomRequest(customEvent: NString, customParams: Option<map<string, string>>)
    | CombineRequest(title: NString, summary: NString, compatibleText: NString, messageList: Option<seq<string>>)

  function RequestBody(req: SendRequest): (b: Body)
    ensures req.TextRequest? <==> b.Type() == TXT
    ensures req.ImageRequest? <==> b.Type() == IMAGE
    ensures req.VideoRequest? <==> b.Type() == VIDEO
    ensures req.FileRequest? <==> b.Type() == FILE
    ensures req.VoiceRequest? <==> b.Type() == VOICE
    ensures req.LocationRequest? <==> b.Type() == LOCATION
    ensures req.CmdRequest? <==> b.Type() == CMD
    ensures req.CustomRequest? <==> b.Type() == CUSTOM
    ensures req.CombineRequest? <==> b.Type() == COMBINE
  {
    match req
    case TextRequest(c) => NewTextBody(c)
    case FileRequest(p, n, s) => NewFileBody(p, n, s)
    case ImageRequest(p, n, s, o) => NewImageBody(p, n, s, o)
    case VideoRequest(p, n, t, s, d) => NewVideoBody(p, n, d, s, t)
    case VoiceRequest(p, n, s, d) => NewVoiceBody(p, n, d, s)
    case LocationRequest(a, bn) => NewLocationBody(a, bn)
    case CmdRequest(a, d) => NewCmdBody(a, d)
    case CustomRequest(e, p) => NewCustomBody(e, p)
    case CombineRequest(t, s, c, l) => NewCombineBody(t, s, c, l)
  }

  /** The typed factories: `CreateSendMessage` with the request's body, direction SEND and a read receipt requested. */
  function TypedSendMessage(userId: NString, req: SendRequest, currentUser: NString, msgId: string, now: int): (v: MessageValue)
    ensures v.body == Some(RequestBody(req)) && v.direction == SEND && v.hasReadAck
    ensures v.to == Some(UserOrEmpty(userId))
  {
    SendMessage(userId, Some(RequestBody(req)), SEND, true, currentUser, msgId, now)
  }

  /** `GroupAckCount`: the native count, asked for only when the message needs group read receipts. */
  function GroupAckCount(v: MessageValue, nativeCount: int): (n: int)
    ensures !v.isNeedGroupAck ==> n == 0
    ensures v.isNeedGroupAck ==> n == nativeCount
  {
    if v.isNeedGroupAck then nativeCount else 0
  }

  // ----- JSON -----

  // `Message.ToJsonObject` writes its keys in three runs; each run is a function of its own so
  // that the facts about each key can be proved one run at a time.

  function EncodeHeader(v: MessageValue): JsonObject
  {
    PutStr(PutStr(map[], "from", v.from), "to", v.to)[
      "hasReadAck" := JBool(v.hasReadAck)][
      "hasDeliverAck" := JBool(v.hasDeliverAck)][
      "localTime" := JNum(v.localTime)][
      "serverTime" := JNum(v.serverTime)]
  }

  function EncodeRouting(jo: JsonObject, v: MessageValue): JsonObject
  {
    PutStr(PutStr(jo, "convId", v.conversationId), "msgId", v.msgId)[
      "priority" := JNum(v.priority.Code())][
      "deliverOnlineOnly" := JBool(v.deliverOnlineOnly)][
      "status" := JNum(v.status.Code())][
      "chatType" := JNum(v.messageType.Code())][
      "direction" := JNum(v.direction.Code())]
  }

  function EncodeContent(jo: JsonObject, v: MessageValue): JsonObject
    requires v.body.Some?
  {
    PutNode(jo, "attr", AttributesNode(v.attributes))[
      "body" := JObj(EncodeBody(v.body.value))][
      "isNeedGroupAck" := JBool(v.isNeedGroupAck)][
      "isRead" := JBool(v.isRead)][
      "messageOnlineState" := JBool(v.messageOnlineState)][
      "isThread" := JBool(v.isThread)][
      "broadcast" := JBool(v.broadcast)][
      "isContentReplaced" := JBool(v.isContentReplaced)]
  }

  /**
   * `Message.ToJsonObject`. A message without a body cannot be written (the source dereferences
   * the body). The receiver list is written only when it is non-empty.
   */
  function EncodeMessage(v: MessageValue): JsonObject
    requires v.body.Some?
  {
    var jo := EncodeContent(EncodeRouting(EncodeHeader(v), v), v);
    if v.receiverList.Some? && |v.receiverList.value| > 0 then jo["receiverList" := StringArray(v.receiverList.value)] else jo
  }

  /**
   * `Message.FromJsonObject` on an object: every field but the priority and the receiver list is
   * replaced by what the object says; strings read as "" when absent.
   */
  function DecodeOnto(prev: MessageValue, jo: JsonObject): (v: MessageValue)
    ensures v.priority == prev.priority && v.receiverList == prev.receiverList
    ensures v.from.Some? && v.to.Some? && v.conversationId.Some? && v.msgId.Some? && v.attributes.Some?
  {
    prev.(
      from := Some(Value(Get(jo, "from"))),
      to := Some(Value(Get(jo, "to"))),
      hasReadAck := AsBool(Get(jo, "hasReadAck")),
      hasDeliverAck := AsBool(Get(jo, "hasDeliverAck")),
      localTime := AsNum(Get(jo, "localTime")),
      serverTime := AsNum(Get(jo, "serverTime")),
      conversationId := Some(Value(Get(jo, "convId"))),
      msgId := Some(Value(Get(jo, "msgId"))),
      status := ToMessageStatus(AsNum(Get(jo, "status"))),
      deliverOnlineOnly := AsBool(Get(jo, "deliverOnlineOnly")),
      messageType := ToMessageType(AsNum(Get(jo, "chatType"))),
      direction := ToMessageDirection(AsNum(Get(jo, "direction"))),
      attributes := Some(AttributesOf(AsObject(Get(jo, "attr")))),
      body := CreateBody(Get(jo, "body")),
      isNeedGroupAck := AsBool(Get(jo, "isNeedGroupAck")),
      isRead := AsBool(Get(jo, "isRead")),
      messageOnlineState := AsBool(Get(jo, "messageOnlineState")),
      isThread := AsBool(Get(jo, "isThread")),
      broadcast := AsBool(Get(jo, "broadcast")),
      isContentReplaced := AsBool(Get(jo, "isContentReplaced")))
  }

  /** `FromJsonObject` on any node: only a JSON object changes the message. */
  function FromJson(prev: MessageValue, n: Node): (v: MessageValue)
    ensures !IsObject(n) ==> v == prev
  {
    if IsObject(n) then DecodeOnto(prev, n.value.fields) else prev
  }

  /** `new Message(jsonObject)`: a fresh message overwritten from the object. */
  function MessageFromObject(jo: JsonObject): MessageValue
  {
    DecodeOnto(NewMessage(None, "", 0), jo)
  }

  /** A message built from JSON does not depend on the clock or the random id of the fresh message it starts from. */
  lemma MessageFromObjectIgnoresClock(jo: JsonObject, msgId: string, now: int)
    ensures DecodeOnto(NewMessage(None, msgId, now), jo) == MessageFromObject(jo)
  {
  }

  /** What the JSON form keeps of a message read back over `prev`. */
  function AfterMessageRoundTrip(v: MessageValue, prev: MessageValue): MessageValue
    requires v.body.Some?
  {
    v.(from := Some(OrEmpty(v.from)), to := Some(OrEmpty(v.to)),
       conversationId := Some(OrEmpty(v.conversationId)), msgId := Some(OrEmpty(v.msgId)),
       priority := prev.priority, receiverList := prev.receiverList,
       attributes := Some(v.attributes.GetOr(map[])),
       body := Some(AfterRoundTrip(v.body.value)))
  }

  /**
   * Writing a message and reading it back over `prev` restores every field, except that null
   * strings and a null attribute dictionary come back empty, the body loses its nulls as bodies
   * do, and the priority and the receiver list are not read back at all.
   */
  lemma MessageRoundTrip(v: MessageValue, prev: MessageValue)
    requires v.body.Some?
    ensures DecodeOnto(prev, EncodeMessage(v)) == AfterMessageRoundTrip(v, prev)
  {
    EncodedStrings(v);
    EncodedFlags(v);
    EncodedState(v);
    EncodedCodes(v);
    EncodedContent(v);
    DecodeFromFacts(prev, EncodeMessage(v), v);
  }

  /** `ModelHelper.CreateWithJsonObject<Message>`: a message for an object node, null for anything else. */
  function MessageOfNode(n: Node): (m: Option<MessageValue>)
    ensures m.Some? <==> IsObject(n)
  {
    if IsObject(n) then Some(MessageFromObject(n.value.fields)) else None
  }

  /** A message built from the JSON form of `v` (as the models embedding a message do) is `v` as the round trip keeps it. */
  lemma MessageFromObjectRoundTrip(v: MessageValue)
    requires v.body.Some?
    ensures MessageFromObject(EncodeMessage(v)) == AfterMessageRoundTrip(v, NewMessage(None, "", 0))
  {
    MessageRoundTrip(v, NewMessage(None, "", 0));
  }

  /** Reading back any object that carries `v`'s keys as the encoder writes them. */
  lemma DecodeFromFacts(prev: MessageValue, jo: JsonObject, v: MessageValue)
    requires v.body.Some?
    requires Value(Get(jo, "from")) == OrEmpty(v.from) && Value(Get(jo, "to")) == OrEmpty(v.to)
    requires Value(Get(jo, "convId")) == OrEmpty(v.conversationId) && Value(Get(jo, "msgId")) == OrEmpty(v.msgId)
    requires Get(jo, "hasReadAck") == Some(JBool(v.hasReadAck))
    requires Get(jo, "hasDeliverAck") == Some(JBool(v.hasDeliverAck))
    requires Get(jo, "deliverOnlineOnly") == Some(JBool(v.deliverOnlineOnly))
    requires Get(jo, "isNeedGroupAck") == Some(JBool(v.isNeedGroupAck))
    requires Get(jo, "isRead") == Some(JBool(v.isRead))
    requires Get(jo, "messageOnlineState") == Some(JBool(v.messageOnlineState))
    requires Get(jo, "isThread") == Some(JBool(v.isThread))
    requires Get(jo, "broadcast") == Some(JBool(v.broadcast))
    requires Get(jo, "isContentReplaced") == Some(JBool(v.isContentReplaced))
    requires Get(jo, "localTime") == Some(JNum(v.localTime))
    requires Get(jo, "serverTime") == Some(JNum(v.serverTime))
    requires Get(jo, "status") == Some(JNum(v.status.Code()))
    requires Get(jo, "chatType") == Some(JNum(v.messageType.Code()))
    requires Get(jo, "direction") == Some(JNum(v.direction.Code()))
    requires Get(jo, "attr") == AttributesNode(v.attributes)
    requires Get(jo, "body") == Some(JObj(EncodeBody(v.body.value)))
    ensures DecodeOnto(prev, jo) == AfterMessageRoundTrip(v, prev)
  {
    MessageStatusCodeRoundTrip(v.status);
    MessageTypeCodeRoundTrip(v.messageType);
    MessageDirectionCodeRoundTrip(v.direction);
    AttributesRoundTrip(v.attributes);
    BodyRoundTrip(v.body.value);
  }

  /** The keys a run does not write keep what the object had before it. */
  lemma RunsKeepOtherKeys(jo: JsonObject, v: MessageValue, k: string)
    requires v.body.Some?
    ensures k != "convId" && k != "msgId" && k != "priority" && k != "deliverOnlineOnly" &&
            k != "status" && k != "chatType" && k != "direction"
        ==> Get(EncodeRouting(jo, v), k) == Get(jo, k)
    ensures k != "attr" && k != "body" && k != "isNeedGroupAck" && k != "isRead" &&
            k != "messageOnlineState" && k != "isThread" && k != "broadcast" && k != "isContentReplaced"
        ==> Get(EncodeContent(jo, v), k) == Get(jo, k)
    ensures k != "receiverList" ==> Get(EncodeMessage(v), k) == Get(EncodeContent(EncodeRouting(EncodeHeader(v), v), v), k)
  {
    RoutingKeepsOtherKeys(jo, v, k);
    ContentKeepsOtherKeys(jo, v, k);
    ReceiverListKeepsOtherKeys(v, k);
  }

  lemma RoutingKeepsOtherKeys(jo: JsonObject, v: MessageValue, k: string)
    ensures k != "convId" && k != "msgId" && k != "priority" && k != "deliverOnlineOnly" &&
            k != "status" && k != "chatType" && k != "direction"
        ==> Get(EncodeRouting(jo, v), k) == Get(jo, k)
  {
  }

  lemma ContentKeepsOtherKeys(jo: JsonObject, v: MessageValue, k: string)
    requires v.body.Some?
    ensures k != "attr" && k != "body" && k != "isNeedGroupAck" && k != "isRead" &&
            k != "messageOnlineState" && k != "isThread" && k != "broadcast" && k != "isContentReplaced"
        ==> Get(EncodeContent(jo, v), k) == Get(jo, k)
  {
  }

  lemma ReceiverListKeepsOtherKeys(v: MessageValue, k: string)
    requires v.body.Some?
    ensures k != "receiverList" ==> Get(EncodeMessage(v), k) == Get(EncodeContent(EncodeRouting(EncodeHeader(v), v), v), k)
  {
  }

  lemma EncodedStrings(v: MessageValue)
    requires v.body.Some?
    ensures Value(Get(EncodeMessage(v), "from")) == OrEmpty(v.from)
    ensures Value(Get(EncodeMessage(v), "to")) == OrEmpty(v.to)
    ensures Value(Get(EncodeMessage(v), "convId")) == OrEmpty(v.conversationId)
    ensures Value(Get(EncodeMessage(v), "msgId")) == OrEmpty(v.msgId)
  {
    var h := EncodeHeader(v);
    var r := EncodeRouting(h, v);
    HeaderStrings(v);
    RoutingStrings(h, v);
    RunsKeepOtherKeys(h, v, "from");
    RunsKeepOtherKeys(r, v, "from");
    RunsKeepOtherKeys(h, v, "to");
    RunsKeepOtherKeys(r, v, "to");
    RunsKeepOtherKeys(r, v, "convId");
    RunsKeepOtherKeys(r, v, "msgId");
  }

  lemma HeaderStrings(v: MessageValue)
    ensures Value(Get(EncodeHeader(v), "from")) == OrEmpty(v.from)
    ensures Value(Get(EncodeHeader(v), "to")) == OrEmpty(v.to)
    ensures "convId" !in EncodeHeader(v) && "msgId" !in EncodeHeader(v)
  {
  }

  lemma RoutingStrings(jo: JsonObject, v: MessageValue)
    requires "convId" !in jo && "msgId" !in jo
    ensures Value(Get(EncodeRouting(jo, v), "convId")) == OrEmpty(v.conversationId)
    ensures Value(Get(EncodeRouting(jo, v), "msgId")) == OrEmpty(v.msgId)
  {
  }

  lemma EncodedFlags(v: MessageValue)
    requires v.body.Some?
    ensures Get(EncodeMessage(v), "hasReadAck") == Some(JBool(v.hasReadAck))
    ensures Get(EncodeMessage(v), "hasDeliverAck") == Some(JBool(v.hasDeliverAck))
    ensures Get(EncodeMessage(v), "localTime") == Some(JNum(v.localTime))
    ensures Get(EncodeMessage(v), "serverTime") == Some(JNum(v.serverTime))
  {
    var h := EncodeHeader(v);
    var r := EncodeRouting(h, v);
    RunsKeepOtherKeys(h, v, "hasReadAck");
    RunsKeepOtherKeys(r, v, "hasReadAck");
    RunsKeepOtherKeys(h, v, "hasDeliverAck");
    RunsKeepOtherKeys(r, v, "hasDeliverAck");
    RunsKeepOtherKeys(h, v, "localTime");
    RunsKeepOtherKeys(r, v, "localTime");
    RunsKeepOtherKeys(h, v, "serverTime");
    RunsKeepOtherKeys(r, v, "serverTime");
  }

  lemma EncodedCodes(v: MessageValue)
    requires v.body.Some?
    ensures Get(EncodeMessage(v), "deliverOnlineOnly") == Some(JBool(v.deliverOnlineOnly))
    ensures Get(EncodeMessage(v), "status") == Some(JNum(v.status.Code()))
    ensures Get(EncodeMessage(v), "chatType") == Some(JNum(v.messageType.Code()))
    ensures Get(EncodeMessage(v), "direction") == Some(JNum(v.direction.Code()))
  {
    var r := EncodeRouting(EncodeHeader(v), v);
    RunsKeepOtherKeys(r, v, "deliverOnlineOnly");
    RunsKeepOtherKeys(r, v, "status");
    RunsKeepOtherKeys(r, v, "chatType");
    RunsKeepOtherKeys(r, v, "direction");
  }

  lemma EncodedState(v: MessageValue)
    requires v.body.Some?
    ensures Get(EncodeMessage(v), "isNeedGroupAck") == Some(JBool(v.isNeedGroupAck))
    ensures Get(EncodeMessage(v), "isRead") == Some(JBool(v.isRead))
    ensures Get(EncodeMessage(v), "messageOnlineState") == Some(JBool(v.messageOnlineState))
    ensures Get(EncodeMessage(v), "isThread") == Some(JBool(v.isThread))
    ensures Get(EncodeMessage(v), "broadcast") == Some(JBool(v.broadcast))
    ensures Get(EncodeMessage(v), "isContentReplaced") == Some(JBool(v.isContentReplaced))
  {
    var r := EncodeRouting(EncodeHeader(v), v);
    RunsKeepOtherKeys(r, v, "isNeedGroupAck");
    RunsKeepOtherKeys(r, v, "isRead");
    RunsKeepOtherKeys(r, v, "messageOnlineState");
    RunsKeepOtherKeys(r, v, "isThread");
    RunsKeepOtherKeys(r, v, "broadcast");
    RunsKeepOtherKeys(r, v, "isContentReplaced");
  }

  lemma EncodedContent(v: MessageValue)
    requires v.body.Some?
    ensures Get(EncodeMessage(v), "attr") == AttributesNode(v.attributes)
    ensures Get(EncodeMessage(v), "body") == Some(JObj(EncodeBody(v.body.value)))
  {
    var h := EncodeHeader(v);
    var r := EncodeRouting(h, v);
    assert "attr" !in h;
    RunsKeepOtherKeys(h, v, "attr");
    RunsKeepOtherKeys(r, v, "attr");
    RunsKeepOtherKeys(r, v, "body");
  }

  /** The encoder writes the priority; the decoder never reads it, so it cannot travel through JSON. */
  lemma PriorityIsWrittenButNotRead(v: MessageValue, prev: MessageValue)
    requires v.body.Some? && v.priority != prev.priority
    ensures Get(EncodeMessage(v), "priority") == Some(JNum(v.priority.Code()))
    ensures DecodeOnto(prev, EncodeMessage(v)).priority != v.priority
  {
    var r := EncodeRouting(EncodeHeader(v), v);
    RunsKeepOtherKeys(r, v, "priority");
  }

  /** A non-empty receiver list is written under `receiverList`; an empty or null one is not written. */
  lemma ReceiverListWritten(v: MessageValue)
    requires v.body.Some?
    ensures Get(EncodeMessage(v), "receiverList") ==
      if v.receiverList.Some? && |v.receiverList.value| > 0 then Some(StringArray(v.receiverList.value)) else None
  {
    var h := EncodeHeader(v);
    var r := EncodeRouting(h, v);
    var c := EncodeContent(r, v);
    assert "receiverList" !in h;
    RunsKeepOtherKeys(h, v, "receiverList");
    RunsKeepOtherKeys(r, v, "receiverList");
  }

  // ----- the message object -----

  class Message {
    var msgId: NString
    var conversationId: NString
    var from: NString
    var to: NString
    var messageType: MessageType
    var priority: RoomMessagePriority
    var deliverOnlineOnly: bool
    var direction: MessageDirection
    var status: MessageStatus
    var localTime: int
    var serverTime: int
    var hasDeliverAck: bool
    var hasReadAck: bool
    var isNeedGroupAck: bool
    var isRead: bool
    var messageOnlineState: bool
    var body: Option<Body>
    var attributes: Option<Attributes>
    var receiverList: Option<seq<string>>
    var isThread: bool
    var broadcast: bool
    var isContentReplaced: bool

    function Value(): MessageValue
      reads this
    {
      MessageValue(msgId, conversationId, from, to, messageType, priority, deliverOnlineOnly, direction,
        status, localTime, serverTime, hasDeliverAck, hasReadAck, isNeedGroupAck, isRead,
        messageOnlineState, body, attributes, receiverList, isThread, broadcast, isContentReplaced)
    }

    /** `new Message(body)`, with the clock-derived id and local time given. */
    constructor (body: Option<Body>, clockId: string, now: int)
      ensures Value() == NewMessage(body, clockId, now)
    {
      var v := NewMessage(body, clockId, now);
      msgId, conversationId, from, to := v.msgId, v.conversationId, v.from, v.to;
      messageType, priority, deliverOnlineOnly, direction := v.messageType, v.priority, v.deliverOnlineOnly, v.direction;
      status, localTime, serverTime := v.status, v.localTime, v.serverTime;
      hasDeliverAck, hasReadAck, isNeedGroupAck, isRead := v.hasDeliverAck, v.hasReadAck, v.isNeedGroupAck, v.isRead;
      messageOnlineState, this.body, attributes, receiverList := v.messageOnlineState, v.body, v.attributes, v.receiverList;
      isThread, broadcast, isContentReplaced := v.isThread, v.broadcast, v.isContentReplaced;
    }

    /** Overwrites every field with `v`. */
    method Assign(v: MessageValue)
      modifies this
      ensures Value() == v
    {
      AssignHead(v);
      AssignState(v);
      AssignContent(v);
    }

    method AssignHead(v: MessageValue)
      modifies this`msgId, this`conversationId, this`from, this`to, this`messageType, this`priority, this`deliverOnlineOnly, this`direction
      ensures msgId == v.msgId && conversationId == v.conversationId && from == v.from && to == v.to && messageType == v.messageType && priority == v.priority && deliverOnlineOnly == v.deliverOnlineOnly && direction == v.direction
    {
      msgId := v.msgId;
      conversationId := v.conversationId;
      from := v.from;
      to := v.to;
      messageType := v.messageType;
      priority := v.priority;
      deliverOnlineOnly := v.deliverOnlineOnly;
      direction := v.direction;
    }

    method AssignState(v: MessageValue)
      modifies this`status, this`localTime, this`serverTime, this`hasDeliverAck, this`hasReadAck, this`isNeedGroupAck, this`isRead
      ensures status == v.status && localTime == v.localTime && serverTime == v.serverTime && hasDeliverAck == v.hasDeliverAck && hasReadAck == v.hasReadAck && isNeedGroupAck == v.isNeedGroupAck && isRead == v.isRead
    {
      status := v.status;
      localTime := v.localTime;
      serverTime := v.serverTime;
      hasDeliverAck := v.hasDeliverAck;
      hasReadAck := v.hasReadAck;
      isNeedGroupAck := v.isNeedGroupAck;
      isRead := v.isRead;
    }

    method AssignContent(v: MessageValue)
      modifies this`messageOnlineState, this`body, this`attributes, this`receiverList, this`isThread, this`broadcast, this`isContentReplaced
      ensures messageOnlineState == v.messageOnlineState && body == v.body && attributes == v.attributes && receiverList == v.receiverList && isThread == v.isThread && broadcast == v.broadcast && isContentReplaced == v.isContentReplaced
    {
      messageOnlineState := v.messageOnlineState;
      body := v.body;
      attributes := v.attributes;
      receiverList := v.receiverList;
      isThread := v.isThread;
      broadcast := v.broadcast;
      isContentReplaced := v.isContentReplaced;
    }

    /** `SetRoomMessagePriority`: the only way to change the private priority. */
    method SetRoomMessagePriority(p: RoomMessagePriority)
      modifies this`priority
      ensures Value() == old(Value()).(priority := p)
    {
      priority := p;
    }

    /** `FromJsonObject`: an object overwrites the fields it carries; anything else changes nothing. */
    method FromJsonObject(jn: Node)
      modifies this
      ensures Value() == FromJson(old(Value()), jn)
    {
      if IsObject(jn) {
        Assign(DecodeOnto(Value(), jn.value.fields));
      }
    }

    function ToJsonObject(): (jo: JsonObject)
      reads this
      requires body.Some?
      ensures "receiverList" in jo ==> receiverList.Some?
    {
      EncodeMessage(Value())
    }
  }

  /** `CreateReceiveMessage`. */
  method CreateReceiveMessage(currentUser: NString, clockId: string, now: int) returns (m: Message)
    ensures fresh(m) && m.Value() == ReceiveMessage(currentUser, clockId, now)
  {
    m := new Message(None, clockId, now);
    m.Assign(ReceiveMessage(currentUser, clockId, now));
  }

  /** `CreateSendMessage` and, through `req`, each typed `CreateXxxSendMessage`. */
  method CreateSendMessage(to: NString, body: Option<Body>, direction: MessageDirection, hasRead: bool,
                           currentUser: NString, clockId: string, now: int) returns (m: Message)
    ensures fresh(m) && m.Value() == SendMessage(to, body, direction, hasRead, currentUser, clockId, now)
  {
    m := new Message(body, clockId, now);
    m.Assign(SendMessage(to, body, direction, hasRead, currentUser, clockId, now));
  }
}
