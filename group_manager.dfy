/**
 * The group manager (GroupManager.cs): its listeners, the delivery of group events to them,
 * and the request and result rules of the calls that do more than forward their arguments.
 */
module GroupManagerModel {
  import opened Wrappers
  import opened Json
  import opened Registry
  import opened NativeResults
  import opened GroupOptionsModel
  import opened GroupModel
  import opened GroupSharedFileModel

  /** The group events the native layer reports. */
  datatype GroupEvent =
    | InvitationReceived | RequestToJoinReceived | RequestToJoinAccepted | RequestToJoinDeclined
    | InvitationAccepted | InvitationDeclined | UserRemoved | Destroyed | AutoAcceptInvitation
    | MuteListAdded | MuteListRemoved | AdminAdded | AdminRemoved | OwnerChanged
    | MemberJoined | MemberExited | AnnouncementChanged | SharedFileAdded | SharedFileDeleted
    | AllowListAdded | AllowListRemoved | AllMemberMuteChanged | StateChanged
    | SpecificationChanged | MemberAttributesUpdated

  /** The `SDKMethod` name each event arrives under. */
  function GroupMethodName(e: GroupEvent): string
  {
    match e
    case InvitationReceived => "onInvitationReceivedFromGroup"
    case RequestToJoinReceived => "onRequestToJoinReceivedFromGroup"
    case RequestToJoinAccepted => "onRequestToJoinAcceptedFromGroup"
    case RequestToJoinDeclined => "onRequestToJoinDeclinedFromGroup"
    case InvitationAccepted => "onInvitationAcceptedFromGroup"
    case InvitationDeclined => "onInvitationDeclinedFromGroup"
    case UserRemoved => "onUserRemovedFromGroup"
    case Destroyed => "onDestroyedFromGroup"
    case AutoAcceptInvitation => "onAutoAcceptInvitationFromGroup"
    case MuteListAdded => "onMuteListAddedFromGroup"
    case MuteListRemoved => "onMuteListRemovedFromGroup"
    case AdminAdded => "onAdminAddedFromGroup"
    case AdminRemoved => "onAdminRemovedFromGroup"
    case OwnerChanged => "onOwnerChangedFromGroup"
    case MemberJoined => "onMemberJoinedFromGroup"
    case MemberExited => "onMemberExitedFromGroup"
    case AnnouncementChanged => "onAnnouncementChangedFromGroup"
    case SharedFileAdded => "onSharedFileAddedFromGroup"
    case SharedFileDeleted => "onSharedFileDeletedFromGroup"
    case AllowListAdded => "onAddAllowListMembersFromGroup"
    case AllowListRemoved => "onRemoveAllowListMembersFromGroup"
    case AllMemberMuteChanged => "onAllMemberMuteChangedFromGroup"
    case StateChanged => "onStateChangedFromGroup"
    case SpecificationChanged => "onSpecificationChangedFromGroup"
    case MemberAttributesUpdated => "onUpdateMemberAttributesFromGroup"
  }

  /** Every group event, in the order of the source's `switch`. */
  const AllGroupEvents: seq<GroupEvent> := [
    InvitationReceived, RequestToJoinReceived, RequestToJoinAccepted, RequestToJoinDeclined,
    InvitationAccepted, InvitationDeclined, UserRemoved, Destroyed, AutoAcceptInvitation,
    MuteListAdded, MuteListRemoved, AdminAdded, AdminRemoved, OwnerChanged,
    MemberJoined, MemberExited, AnnouncementChanged, SharedFileAdded, SharedFileDeleted,
    AllowListAdded, AllowListRemoved, AllMemberMuteChanged, StateChanged,
    SpecificationChanged, MemberAttributesUpdated]

  /** The `switch (method)`: the event a method name stands for, if it names one. */
  function GroupEventOf(methodName: string): (e: Option<GroupEvent>)
    ensures e.Some? ==> GroupMethodName(e.value) == methodName
    ensures e.None? ==> forall k :: GroupMethodName(k) != methodName
  {
    var e := Lookup(AllGroupEvents, GroupMethodName, methodName);
    if e.None? then NoGroupEventNamed(methodName); e else e
  }

  /** A name that no case of the switch matches is the name of no event at all. */
  lemma NoGroupEventNamed(methodName: string)
    requires forall i :: 0 <= i < |AllGroupEvents| ==> GroupMethodName(AllGroupEvents[i]) != methodName
    ensures forall k :: GroupMethodName(k) != methodName
  {
    forall k ensures GroupMethodName(k) != methodName {
      assert AllGroupEvents[GroupEventIndex(k)] == k;
    }
  }

  /** The position of each event in the switch. */
  function GroupEventIndex(e: GroupEvent): (i: nat)
    ensures i < |AllGroupEvents| && AllGroupEvents[i] == e
  {
    match e
    case InvitationReceived => 0
    case RequestToJoinReceived => 1
    case RequestToJoinAccepted => 2
    case RequestToJoinDeclined => 3
    case InvitationAccepted => 4
    case InvitationDeclined => 5
    case UserRemoved => 6
    case Destroyed => 7
    case AutoAcceptInvitation => 8
    case MuteListAdded => 9
    case MuteListRemoved => 10
    case AdminAdded => 11
    case AdminRemoved => 12
    case OwnerChanged => 13
    case MemberJoined => 14
    case MemberExited => 15
    case AnnouncementChanged => 16
    case SharedFileAdded => 17
    case SharedFileDeleted => 18
    case AllowListAdded => 19
    case AllowListRemoved => 20
    case AllMemberMuteChanged => 21
    case StateChanged => 22
    case SpecificationChanged => 23
    case MemberAttributesUpdated => 24
  }

  /** The callbacks of `IGroupManagerDelegate` and their arguments. */
  datatype GroupCallback =
    | OnInvitationReceivedFromGroup(groupId: NString, groupName: NString, userId: NString, reason: NString)
    | OnRequestToJoinReceivedFromGroup(groupId: NString, groupName: NString, userId: NString, reason: NString)
    | OnRequestToJoinAcceptedFromGroup(groupId: NString, groupName: NString, userId: NString)
    | OnRequestToJoinDeclinedFromGroup(groupId: NString, reason: NString, decliner: NString, applicant: NString)
    | OnInvitationAcceptedFromGroup(groupId: NString, userId: NString)
    | OnInvitationDeclinedFromGroup(groupId: NString, userId: NString, reason: NString)
    | OnUserRemovedFromGroup(groupId: NString, groupName: NString)
    | OnDestroyedFromGroup(groupId: NString, groupName: NString)
    | OnAutoAcceptInvitationFromGroup(groupId: NString, userId: NString, inviteMessage: NString)
    | OnMuteListAddedFromGroup(groupId: NString, members: seq<string>, muteExpire: int)
    | OnMuteListRemovedFromGroup(groupId: NString, members: seq<string>)
    | OnAdminAddedFromGroup(groupId: NString, userId: NString)
    | OnAdminRemovedFromGroup(groupId: NString, userId: NString)
    | OnOwnerChangedFromGroup(groupId: NString, newOwner: NString, oldOwner: NString)
    | OnMemberJoinedFromGroup(groupId: NString, userId: NString)
    | OnMemberExitedFromGroup(groupId: NString, userId: NString)
    | OnAnnouncementChangedFromGroup(groupId: NString, announcement: NString)
    | OnSharedFileAddedFromGroup(groupId: NString, file: Option<GroupSharedFileValue>)
    | OnSharedFileDeletedFromGroup(groupId: NString, fileId: NString)
    | OnAddAllowListMembersFromGroup(groupId: NString, members: seq<string>)
    | OnRemoveAllowListMembersFromGroup(groupId: NString, members: seq<string>)
    | OnAllMemberMuteChangedFromGroup(groupId: NString, isMuteAll: bool)
    | OnStateChangedFromGroup(groupId: NString, isDisabled: bool)
    | OnSpecificationChangedFromGroup(group: Option<GroupValue>)
    | OnUpdateMemberAttributesFromGroup(groupId: NString, userId: NString, attributes: map<string, string>, from: NString)
  {
    /** The event whose case of the switch makes this call. */
    function Event(): GroupEvent
    {
      match this
      case OnInvitationReceivedFromGroup(_, _, _, _) => InvitationReceived
      case OnRequestToJoinReceivedFromGroup(_, _, _, _) => RequestToJoinReceived
      case OnRequestToJoinAcceptedFromGroup(_, _, _) => RequestToJoinAccepted
      case OnRequestToJoinDeclinedFromGroup(_, _, _, _) => RequestToJoinDeclined
      case OnInvitationAcceptedFromGroup(_, _) => InvitationAccepted
      case OnInvitationDeclinedFromGroup(_, _, _) => InvitationDeclined
      case OnUserRemovedFromGroup(_, _) => UserRemoved
      case OnDestroyedFromGroup(_, _) => Destroyed
      case OnAutoAcceptInvitationFromGroup(_, _, _) => AutoAcceptInvitation
      case OnMuteListAddedFromGroup(_, _, _) => MuteListAdded
      case OnMuteListRemovedFromGroup(_, _) => MuteListRemoved
      case OnAdminAddedFromGroup(_, _) => AdminAdded
      case OnAdminRemovedFromGroup(_, _) => AdminRemoved
      case OnOwnerChangedFromGroup(_, _, _) => OwnerChanged
      case OnMemberJoinedFromGroup(_, _) => MemberJoined
      case OnMemberExitedFromGroup(_, _) => MemberExited
      case OnAnnouncementChangedFromGroup(_, _) => AnnouncementChanged
      case OnSharedFileAddedFromGroup(_, _) => SharedFileAdded
      case OnSharedFileDeletedFromGroup(_, _) => SharedFileDeleted
      case OnAddAllowListMembersFromGroup(_, _) => AllowListAdded
      case OnRemoveAllowListMembersFromGroup(_, _) => AllowListRemoved
      case OnAllMemberMuteChangedFromGroup(_, _) => AllMemberMuteChanged
      case OnStateChangedFromGroup(_, _) => StateChanged
      case OnSpecificationChangedFromGroup(_) => SpecificationChanged
      case OnUpdateMemberAttributesFromGroup(_, _, _, _) => MemberAttributesUpdated
    }
  }

  /** The callbacks that are handed the group name read before the loop. */
  predicate CarriesGroupName(cb: GroupCallback)
  {
    cb.OnInvitationReceivedFromGroup? || cb.OnRequestToJoinReceivedFromGroup? ||
    cb.OnRequestToJoinAcceptedFromGroup? || cb.OnUserRemovedFromGroup? || cb.OnDestroyedFromGroup?
  }

  /** `CreateWithJsonObject<Group>` on the `group` node: a group decoded over a new one. */
  function GroupOfNode(n: Node): Option<GroupValue>
  {
    ModelOf(n, (jo: JsonObject) => DecodeGroup(NewGroup(), jo))
  }

  /** One case of the switch: the callback for event `e`, with the id and name read once from the payload. */
  function GroupCallbackFor(e: GroupEvent, payload: Json, groupId: NString, groupName: NString): (cb: GroupCallback)
    ensures cb.Event() == e
    ensures cb.OnSpecificationChangedFromGroup? <==> e == SpecificationChanged
    ensures !cb.OnSpecificationChangedFromGroup? ==> cb.groupId == groupId
    ensures CarriesGroupName(cb) ==> cb.groupName == groupName
  {
    var userId := Str(Field(payload, "userId"));
    var reason := Str(Field(payload, "msg"));
    var members := StringList(Field(payload, "userIds"));
    match e
    case InvitationReceived => OnInvitationReceivedFromGroup(groupId, groupName, userId, reason)
    case RequestToJoinReceived => OnRequestToJoinReceivedFromGroup(groupId, groupName, userId, reason)
    case RequestToJoinAccepted => OnRequestToJoinAcceptedFromGroup(groupId, groupName, userId)
    case RequestToJoinDeclined =>
      OnRequestToJoinDeclinedFromGroup(groupId, reason, Str(Field(payload, "decliner")), Str(Field(payload, "applicant")))
    case InvitationAccepted => OnInvitationAcceptedFromGroup(groupId, userId)
    case InvitationDeclined => OnInvitationDeclinedFromGroup(groupId, userId, reason)
    case UserRemoved => OnUserRemovedFromGroup(groupId, groupName)
    case Destroyed => OnDestroyedFromGroup(groupId, groupName)
    case AutoAcceptInvitation => OnAutoAcceptInvitationFromGroup(groupId, userId, reason)
    case MuteListAdded => OnMuteListAddedFromGroup(groupId, members, AsNum(Field(payload, "expireTime")))
    case MuteListRemoved => OnMuteListRemovedFromGroup(groupId, members)
    case AdminAdded => OnAdminAddedFromGroup(groupId, userId)
    case AdminRemoved => OnAdminRemovedFromGroup(groupId, userId)
    case OwnerChanged => OnOwnerChangedFromGroup(groupId, Str(Field(payload, "newOwner")), Str(Field(payload, "oldOwner")))
    case MemberJoined => OnMemberJoinedFromGroup(groupId, userId)
    case MemberExited => OnMemberExitedFromGroup(groupId, userId)
    case AnnouncementChanged => OnAnnouncementChangedFromGroup(groupId, Str(Field(payload, "announcement")))
    case SharedFileAdded => OnSharedFileAddedFromGroup(groupId, ModelOf(Field(payload, "file"), DecodeGroupSharedFile))
    case SharedFileDeleted => OnSharedFileDeletedFromGroup(groupId, Str(Field(payload, "fileId")))
    case AllowListAdded => OnAddAllowListMembersFromGroup(groupId, members)
    case AllowListRemoved => OnRemoveAllowListMembersFromGroup(groupId, members)
    case AllMemberMuteChanged => OnAllMemberMuteChangedFromGroup(groupId, AsBool(Field(payload, "isMuteAll")))
    case StateChanged => OnStateChangedFromGroup(groupId, AsBool(Field(payload, "isDisabled")))
    case SpecificationChanged => OnSpecificationChangedFromGroup(GroupOfNode(Field(payload, "group")))
    case MemberAttributesUpdated =>
      OnUpdateMemberAttributesFromGroup(groupId, userId, StringDict(Field(payload, "attrs")), Str(Field(payload, "from")))
  }

  /** The callback one native event selects, if its method is one of the twenty-five. */
  function GroupSelection(methodName: string, payload: Json): Option<GroupCallback>
  {
    match GroupEventOf(methodName)
    case None => None
    case Some(e) => Some(GroupCallbackFor(e, payload, Str(Field(payload, "groupId")), Str(Field(payload, "name"))))
  }

  /** What `NativeEventHandle` delivers to the delegates `ds`. */
  function GroupDispatch<D>(ds: seq<D>, methodName: string, payload: Json): seq<Invocation<D, GroupCallback>>
  {
    if |ds| == 0 then [] else Dispatched(ds, GroupSelection(methodName, payload))
  }

  /**
   * Nothing is delivered without delegates or for an unknown method; otherwise every delegate,
   * in order, receives the one callback of the event, and every callback that takes the group's
   * id or name gets the `groupId` and `name` of the payload.
   */
  lemma GroupDispatchSpec<D>(ds: seq<D>, methodName: string, payload: Json)
    ensures GroupDispatch(ds, methodName, payload) == [] <==> |ds| == 0 || GroupEventOf(methodName).None?
    ensures GroupEventOf(methodName).Some? ==> Targets(GroupDispatch(ds, methodName, payload)) == ds
    ensures forall i, j :: 0 <= i < j < |GroupDispatch(ds, methodName, payload)| ==>
      GroupDispatch(ds, methodName, payload)[i].callback == GroupDispatch(ds, methodName, payload)[j].callback
    ensures forall i :: 0 <= i < |GroupDispatch(ds, methodName, payload)| ==>
      Some(GroupDispatch(ds, methodName, payload)[i].callback.Event()) == GroupEventOf(methodName)
    ensures forall i :: 0 <= i < |GroupDispatch(ds, methodName, payload)| ==>
      var cb := GroupDispatch(ds, methodName, payload)[i].callback;
      (!cb.OnSpecificationChangedFromGroup? ==> cb.groupId == Str(Field(payload, "groupId"))) &&
      (CarriesGroupName(cb) ==> cb.groupName == Str(Field(payload, "name")))
  {
    DispatchedSpec(ds, GroupSelection(methodName, payload));
  }

  /** `CheckIfInGroupAllowList` and `CheckIfInGroupMuteList`: true only for a JSON `true` under `ret`. */
  function GroupMembershipCheckResult(payload: Json): (b: bool)
    ensures b <==> Field(payload, "ret") == Some(JBool(true))
  {
    BooleanResult(Field(payload, "ret"))
  }

  /** `FetchMyGroupsCount`: the number under `ret`, or -1 when `ret` holds anything else. */
  function MyGroupsCountResult(payload: Json): (count: int)
    ensures IsNumber(Field(payload, "ret")) ==> count == Field(payload, "ret").value.n
    ensures !IsNumber(Field(payload, "ret")) ==> count == -1
  {
    NumberResult(Field(payload, "ret"))
  }

  /** The request `CreateGroup` sends; the invitee list is written as a string array. */
  function CreateGroupRequest(groupName: NString, options: Option<GroupOptionsValue>, desc: NString,
                              inviteMembers: seq<string>, inviteReason: NString): JsonObject
  {
    var named := PutStr(map[], "name", groupName);
    var withOptions := if options.Some? then named["options" := JObj(EncodeGroupOptions(options.value))] else named;
    PutStr(PutStr(withOptions, "desc", desc)["userIds" := StringArray(inviteMembers)], "msg", inviteReason)
  }

  /**
   * `options` is written exactly when options are given, and they read back as given; the name,
   * description, invitees and reason read back as passed.
   */
  lemma CreateGroupRequestSpec(groupName: NString, options: Option<GroupOptionsValue>, desc: NString,
                               inviteMembers: seq<string>, inviteReason: NString, prev: GroupOptionsValue)
    ensures "options" in CreateGroupRequest(groupName, options, desc, inviteMembers, inviteReason) <==> options.Some?
    ensures options.Some? ==>
      AsObject(Get(CreateGroupRequest(groupName, options, desc, inviteMembers, inviteReason), "options")) == Some(EncodeGroupOptions(options.value)) &&
      DecodeGroupOptions(prev, EncodeGroupOptions(options.value)) == options.value
    ensures Str(Get(CreateGroupRequest(groupName, options, desc, inviteMembers, inviteReason), "name")) == groupName
    ensures Str(Get(CreateGroupRequest(groupName, options, desc, inviteMembers, inviteReason), "desc")) == desc
    ensures StringList(Get(CreateGroupRequest(groupName, options, desc, inviteMembers, inviteReason), "userIds")) == inviteMembers
    ensures Str(Get(CreateGroupRequest(groupName, options, desc, inviteMembers, inviteReason), "msg")) == inviteReason
  {
    StringListRoundTrip(inviteMembers);
    if options.Some? {
      GroupOptionsRoundTrip(prev, options.value);
    }
  }

  class GroupManager<D(==)> {
    /** The registered `IGroupManagerDelegate`s, in registration order. */
    var delegater: seq<D>

    constructor ()
      ensures delegater == []
    {
      delegater := [];
    }

    /** `AddGroupManagerDelegate`: appends `d` unless it is registered already. */
    method AddGroupManagerDelegate(d: D)
      modifies this
      ensures delegater == AddIfAbsent(old(delegater), d)
      ensures NoDup(old(delegater)) ==> NoDup(delegater)
    {
      if NoDup(delegater) {
        AddIfAbsentSpec(delegater, d);
      }
      if d !in delegater {
        delegater := delegater + [d];
      }
    }

    /** `RemoveGroupManagerDelegate`: `List.Remove`, a no-op for an unregistered delegate. */
    method RemoveGroupManagerDelegate(d: D)
      modifies this
      ensures delegater == RemoveFirst(old(delegater), d)
      ensures NoDup(old(delegater)) ==> NoDup(delegater) && d !in delegater
    {
      if NoDup(delegater) {
        RemoveFirstSpec(delegater, d);
      }
      delegater := RemoveFirst(delegater, d);
    }

    method ClearDelegates()
      modifies this
      ensures delegater == []
    {
      delegater := [];
    }

    /** `NativeEventHandle`: returns the callbacks delivered, in the order they are made. */
    method NativeEventHandle(methodName: string, payload: Json) returns (fired: seq<Invocation<D, GroupCallback>>)
      ensures fired == GroupDispatch(delegater, methodName, payload)
    {
      if |delegater| == 0 {
        return [];
      }
      var groupId := Str(Field(payload, "groupId"));
      var groupName := Str(Field(payload, "name"));
      var e := GroupEventOf(methodName);
      fired := Deliver(delegater, if e.Some? then Some(GroupCallbackFor(e.value, payload, groupId, groupName)) else None);
    }
  }
}
