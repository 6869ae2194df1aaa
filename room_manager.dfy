/**
 * The chat room manager (RoomManager.cs): its listeners, the delivery of room events to them,
 * and the request and result rules of the calls that do more than forward their arguments.
 */
module RoomManagerModel {
  import opened Wrappers
  import opened Json
  import opened Registry
  import opened NativeResults
  import opened RoomModel

  /** The chat room events the native layer reports. */
  datatype RoomEvent =
    | DestroyedFromRoom | RemovedByOffline | MemberJoined | MemberExited | RemovedFromRoom
    | MuteListAdded | MuteListRemoved | AdminAdded | AdminRemoved | OwnerChanged
    | AnnouncementChanged | AttributesChanged | AttributesRemoved | SpecificationChanged | AllowListAdded
    | AllowListRemoved | AllMemberMuteChanged

  /** The `SDKMethod` name each event arrives under. */
  function RoomMethodName(e: RoomEvent): string
  {
    match e
    case DestroyedFromRoom => "onDestroyedFromRoom"
    case RemovedByOffline => "onRemoveFromRoomByOffline"
    case MemberJoined => "onMemberJoinedFromRoom"
    case MemberExited => "onMemberExitedFromRoom"
    case RemovedFromRoom => "onRemovedFromRoom"
    case MuteListAdded => "onMuteListAddedFromRoom"
    case MuteListRemoved => "onMuteListRemovedFromRoom"
    case AdminAdded => "onAdminAddedFromRoom"
    case AdminRemoved => "onAdminRemovedFromRoom"
    case OwnerChanged => "onOwnerChangedFromRoom"
    case AnnouncementChanged => "onAnnouncementChangedFromRoom"
    case AttributesChanged => "onAttributesChangedFromRoom"
    case AttributesRemoved => "onAttributesRemovedFromRoom"
    case SpecificationChanged => "onSpecificationChangedFromRoom"
    case AllowListAdded => "onAddAllowListMembersFromRoom"
    case AllowListRemoved => "onRemoveAllowListMembersFromRoom"
    case AllMemberMuteChanged => "onAllMemberMuteChangedFromRoom"
  }

  /** Every room event, in the order of the source's `switch`. */
  const AllRoomEvents: seq<RoomEvent> := [
    DestroyedFromRoom, RemovedByOffline, MemberJoined, MemberExited, RemovedFromRoom,
    MuteListAdded, MuteListRemoved, AdminAdded, AdminRemoved, OwnerChanged,
    AnnouncementChanged, AttributesChanged, AttributesRemoved, SpecificationChanged, AllowListAdded,
    AllowListRemoved, AllMemberMuteChanged]

  /** The position of each event in the switch. */
  function RoomEventIndex(e: RoomEvent): (i: nat)
    ensures i < |AllRoomEvents| && AllRoomEvents[i] == e
  {
    match e
    case DestroyedFromRoom => 0
    case RemovedByOffline => 1
    case MemberJoined => 2
    case MemberExited => 3
    case RemovedFromRoom => 4
    case MuteListAdded => 5
    case MuteListRemoved => 6
    case AdminAdded => 7
    case AdminRemoved => 8
    case OwnerChanged => 9
    case AnnouncementChanged => 10
    case AttributesChanged => 11
    case AttributesRemoved => 12
    case SpecificationChanged => 13
    case AllowListAdded => 14
    case AllowListRemoved => 15
    case AllMemberMuteChanged => 16
  }

  /** A name that no case of the switch matches is the name of no event at all. */
  lemma NoRoomEventNamed(methodName: string)
    requires forall i :: 0 <= i < |AllRoomEvents| ==> RoomMethodName(AllRoomEvents[i]) != methodName
    ensures forall k :: RoomMethodName(k) != methodName
  {
    forall k ensures RoomMethodName(k) != methodName {
      assert AllRoomEvents[RoomEventIndex(k)] == k;
    }
  }

  /** The `switch (method)`: the event a method name stands for, if it names one. */
  function RoomEventOf(methodName: string): (e: Option<RoomEvent>)
    ensures e.Some? ==> RoomMethodName(e.value) == methodName
    ensures e.None? ==> forall k :: RoomMethodName(k) != methodName
  {
    var e := Lookup(AllRoomEvents, RoomMethodName, methodName);
    if e.None? then NoRoomEventNamed(methodName); e else e
  }

  /** The callbacks of `IRoomManagerDelegate` and their arguments. */
  datatype RoomCallback =
    | OnDestroyedFromRoom(roomId: NString, roomName: NString)
    | OnRemoveFromRoomByOffline(roomId: NString, roomName: NString)
    | OnMemberJoinedFromRoom(roomId: NString, userId: NString, ext: NString)
    | OnMemberExitedFromRoom(roomId: NString, roomName: NString, userId: NString)
    | OnRemovedFromRoom(roomId: NString, roomName: NString, userId: NString)
    | OnMuteListAddedFromRoom(roomId: NString, members: seq<string>, muteExpire: int)
    | OnMuteListRemovedFromRoom(roomId: NString, members: seq<string>)
    | OnAdminAddedFromRoom(roomId: NString, userId: NString)
    | OnAdminRemovedFromRoom(roomId: NString, userId: NString)
    | OnOwnerChangedFromRoom(roomId: NString, newOwner: NString, oldOwner: NString)
    | OnAnnouncementChangedFromRoom(roomId: NString, announcement: NString)
    | OnChatroomAttributesChanged(roomId: NString, attributes: map<string, string>, userId: NString)
    | OnChatroomAttributesRemoved(roomId: NString, keys: seq<string>, userId: NString)
    | OnSpecificationChangedFromRoom(room: Option<RoomValue>)
    | OnAddAllowListMembersFromChatroom(roomId: NString, members: seq<string>)
    | OnRemoveAllowListMembersFromChatroom(roomId: NString, members: seq<string>)
    | OnAllMemberMuteChangedFromChatroom(roomId: NString, isAllMuted: bool)
  {
    /** The event whose case of the switch makes this call. */
    function Event(): RoomEvent
    {
      match this
      case OnDestroyedFromRoom(_, _) => DestroyedFromRoom
      case OnRemoveFromRoomByOffline(_, _) => RemovedByOffline
      case OnMemberJoinedFromRoom(_, _, _) => MemberJoined
      case OnMemberExitedFromRoom(_, _, _) => MemberExited
      case OnRemovedFromRoom(_, _, _) => RemovedFromRoom
      case OnMuteListAddedFromRoom(_, _, _) => MuteListAdded
      case OnMuteListRemovedFromRoom(_, _) => MuteListRemoved
      case OnAdminAddedFromRoom(_, _) => AdminAdded
      case OnAdminRemovedFromRoom(_, _) => AdminRemoved
      case OnOwnerChangedFromRoom(_, _, _) => OwnerChanged
      case OnAnnouncementChangedFromRoom(_, _) => AnnouncementChanged
      case OnChatroomAttributesChanged(_, _, _) => AttributesChanged
      case OnChatroomAttributesRemoved(_, _, _) => AttributesRemoved
      case OnSpecificationChangedFromRoom(_) => SpecificationChanged
      case OnAddAllowListMembersFromChatroom(_, _) => AllowListAdded
      case OnRemoveAllowListMembersFromChatroom(_, _) => AllowListRemoved
      case OnAllMemberMuteChangedFromChatroom(_, _) => AllMemberMuteChanged
    }
  }

  /** The callbacks that are handed the room name read before the loop. */
  predicate CarriesRoomName(cb: RoomCallback)
  {
    cb.OnDestroyedFromRoom? || cb.OnRemoveFromRoomByOffline? || cb.OnMemberExitedFromRoom? || cb.OnRemovedFromRoom?
  }

  /** One case of the switch: the callback for event `e`, with the id and name read once from the payload. */
  function RoomCallbackFor(e: RoomEvent, payload: Json, roomId: NString, roomName: NString): (cb: RoomCallback)
    ensures cb.Event() == e
    ensures cb.OnSpecificationChangedFromRoom? <==> e == SpecificationChanged
    ensures !cb.OnSpecificationChangedFromRoom? ==> cb.roomId == roomId
    ensures CarriesRoomName(cb) ==> cb.roomName == roomName
  {
    var userId := Str(Field(payload, "userId"));
    var members := StringList(Field(payload, "userIds"));
    match e
    case DestroyedFromRoom => OnDestroyedFromRoom(roomId, roomName)
    case RemovedByOffline => OnRemoveFromRoomByOffline(roomId, roomName)
    case MemberJoined => OnMemberJoinedFromRoom(roomId, userId, Str(Field(payload, "ext")))
    case MemberExited => OnMemberExitedFromRoom(roomId, roomName, userId)
    case RemovedFromRoom => OnRemovedFromRoom(roomId, roomName, userId)
    case MuteListAdded => OnMuteListAddedFromRoom(roomId, members, AsNum(Field(payload, "expireTime")))
    case MuteListRemoved => OnMuteListRemovedFromRoom(roomId, members)
    case AdminAdded => OnAdminAddedFromRoom(roomId, userId)
    case AdminRemoved => OnAdminRemovedFromRoom(roomId, userId)
    case OwnerChanged => OnOwnerChangedFromRoom(roomId, Str(Field(payload, "newOwner")), Str(Field(payload, "oldOwner")))
    case AnnouncementChanged => OnAnnouncementChangedFromRoom(roomId, Str(Field(payload, "announcement")))
    case AttributesChanged => OnChatroomAttributesChanged(roomId, StringDict(Field(payload, "kv")), userId)
    case AttributesRemoved => OnChatroomAttributesRemoved(roomId, StringList(Field(payload, "list")), userId)
    case SpecificationChanged => OnSpecificationChangedFromRoom(ModelOf(Field(payload, "room"), DecodeRoom))
    case AllowListAdded => OnAddAllowListMembersFromChatroom(roomId, members)
    case AllowListRemoved => OnRemoveAllowListMembersFromChatroom(roomId, members)
    case AllMemberMuteChanged => OnAllMemberMuteChangedFromChatroom(roomId, AsBool(Field(payload, "isAllMuted")))
  }

  /** The callback one native event selects, if its method names a room event. */
  function RoomSelection(methodName: string, payload: Json): Option<RoomCallback>
  {
    match RoomEventOf(methodName)
    case None => None
    case Some(e) => Some(RoomCallbackFor(e, payload, Str(Field(payload, "roomId")), Str(Field(payload, "name"))))
  }

  /** What `NativeEventcallback` delivers to the delegates `ds`. */
  function RoomDispatch<D>(ds: seq<D>, methodName: string, payload: Json): seq<Invocation<D, RoomCallback>>
  {
    if |ds| == 0 then [] else Dispatched(ds, RoomSelection(methodName, payload))
  }

  /**
   * Nothing is delivered without delegates or for an unknown method; otherwise every delegate,
   * in order, receives the one callback of the event, and every callback that takes the room's
   * id or name gets the `roomId` and `name` of the payload.
   */
  lemma RoomDispatchSpec<D>(ds: seq<D>, methodName: string, payload: Json)
    ensures RoomDispatch(ds, methodName, payload) == [] <==> |ds| == 0 || RoomEventOf(methodName).None?
    ensures RoomEventOf(methodName).Some? ==> Targets(RoomDispatch(ds, methodName, payload)) == ds
    ensures forall i, j :: 0 <= i < j < |RoomDispatch(ds, methodName, payload)| ==>
      RoomDispatch(ds, methodName, payload)[i].callback == RoomDispatch(ds, methodName, payload)[j].callback
    ensures forall i :: 0 <= i < |RoomDispatch(ds, methodName, payload)| ==>
      Some(RoomDispatch(ds, methodName, payload)[i].callback.Event()) == RoomEventOf(methodName)
    ensures forall i :: 0 <= i < |RoomDispatch(ds, methodName, payload)| ==>
      var cb := RoomDispatch(ds, methodName, payload)[i].callback;
      (!cb.OnSpecificationChangedFromRoom? ==> cb.roomId == Str(Field(payload, "roomId"))) &&
      (CarriesRoomName(cb) ==> cb.roomName == Str(Field(payload, "name")))
  {
    DispatchedSpec(ds, RoomSelection(methodName, payload));
  }

  /** `CheckIfInRoomAllowList`: the result node itself, not its `ret`, must be a JSON `true`. */
  function RoomAllowListCheckResult(payload: Json): (b: bool)
    ensures b <==> payload == JBool(true)
  {
    BooleanResult(Some(payload))
  }

  /** The request `FetchAttributes` sends: the key list only when one is given. */
  function FetchAttributesRequest(roomId: NString, keys: Option<seq<string>>): JsonObject
  {
    var jo := PutStr(map[], "roomId", roomId);
    if keys.Some? then jo["list" := StringArray(keys.value)] else jo
  }

  /** `list` is written exactly when keys are given, and then reads back as those keys; the room id reads back as passed. */
  lemma FetchAttributesRequestSpec(roomId: NString, keys: Option<seq<string>>)
    ensures "list" in FetchAttributesRequest(roomId, keys) <==> keys.Some?
    ensures keys.Some? ==> StringList(Get(FetchAttributesRequest(roomId, keys), "list")) == keys.value
    ensures Str(Get(FetchAttributesRequest(roomId, keys), "roomId")) == roomId
  {
    if keys.Some? {
      StringListRoundTrip(keys.value);
    }
  }

  /** The `FetchAttributes` result: the payload's entries as strings, whatever was asked for. */
  function FetchAttributesResult(payload: Json): (attributes: map<string, string>)
    ensures !payload.JObj? ==> attributes == map[]
    ensures payload.JObj? ==> attributes.Keys == payload.fields.Keys
    ensures payload.JObj? ==> forall k :: k in attributes ==> attributes[k] == Value(Some(payload.fields[k]))
    ensures payload.JObj? ==> forall k :: k in attributes && payload.fields[k].JStr? ==> attributes[k] == payload.fields[k].s
  {
    StringDict(Some(payload))
  }

  class RoomManager<D(==)> {
    /** The registered `IRoomManagerDelegate`s, in registration order. */
    var delegater: seq<D>

    constructor ()
      ensures delegater == []
    {
      delegater := [];
    }

    /** `AddRoomManagerDelegate`: appends `d` unless it is registered already. */
    method AddRoomManagerDelegate(d: D)
      modifies this
      ensures delegater == AddIfAbsent(old(delegater), d)
      ensures NoDup(old(delegater)) ==> NoDup(delegater)
    {
      if NoDup(delegater) {
        AddIfAbsentSpec(delegater, d);
      }
      if d !in delegater {
        delegater := delegater + [d];
      }
    }

    /** `RemoveRoomManagerDelegate`: `List.Remove`, a no-op for an unregistered delegate. */
    method RemoveRoomManagerDelegate(d: D)
      modifies this
      ensures delegater == RemoveFirst(old(delegater), d)
      ensures NoDup(old(delegater)) ==> NoDup(delegater) && d !in delegater
    {
      if NoDup(delegater) {
        RemoveFirstSpec(delegater, d);
      }
      delegater := RemoveFirst(delegater, d);
    }

    method ClearDelegates()
      modifies this
      ensures delegater == []
    {
      delegater := [];
    }

    /** `NativeEventcallback`: returns the callbacks delivered, in the order they are made. */
    method NativeEventcallback(methodName: string, payload: Json) returns (fired: seq<Invocation<D, RoomCallback>>)
      ensures fired == RoomDispatch(delegater, methodName, payload)
    {
      if |delegater| == 0 {
        return [];
      }
      var roomId := Str(Field(payload, "roomId"));
      var roomName := Str(Field(payload, "name"));
      var e := RoomEventOf(methodName);
      fired := Deliver(delegater, if e.Some? then Some(RoomCallbackFor(e.value, payload, roomId, roomName)) else None);
    }
  }
}
