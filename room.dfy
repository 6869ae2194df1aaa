/** A chat room as the SDK describes it (Room.cs). */
module RoomModel {
  import opened Wrappers
  import opened Json
  import opened Enumerations

  datatype RoomValue = RoomValue(
    roomId: NString,
    name: NString,
    description: NString,
    announcement: NString,
    memberCount: int,
    adminList: seq<string>,
    memberList: seq<string>,
    blockList: seq<string>,
    muteList: seq<string>,
    maxUsers: int,
    owner: NString,
    isAllMemberMuted: bool,
    permissionType: RoomPermissionType,
    createTimeStamp: int,
    isInAllowList: bool,
    muteUntilTimeStamp: int)

  /** A number that falls back to `default` when the key is absent or null. */
  function NumOr(n: Node, default: int): int
  {
    if IsNullish(n) then default else AsNum(n)
  }

  /** A boolean that falls back to false when the key is absent or null. */
  function BoolOrFalse(n: Node): bool
  {
    if IsNullish(n) then false else AsBool(n)
  }

  /**
   * `FromJsonObject`: `desc` is the description and `isMuteAll` the all-muted flag; a missing
   * `createTimestamp` is 0, a missing `isInAllowList` false and a missing `muteUntilTimeStamp` -1.
   */
  function DecodeRoom(jo: JsonObject): RoomValue
  {
    RoomValue(
      Str(Get(jo, "roomId")),
      Str(Get(jo, "name")),
      Str(Get(jo, "desc")),
      Str(Get(jo, "announcement")),
      AsNum(Get(jo, "memberCount")),
      StringList(Get(jo, "adminList")),
      StringList(Get(jo, "memberList")),
      StringList(Get(jo, "blockList")),
      StringList(Get(jo, "muteList")),
      AsNum(Get(jo, "maxUsers")),
      Str(Get(jo, "owner")),
      AsBool(Get(jo, "isMuteAll")),
      ToPermissionType(AsNum(Get(jo, "permissionType"))),
      NumOr(Get(jo, "createTimestamp"), 0),
      BoolOrFalse(Get(jo, "isInAllowList")),
      NumOr(Get(jo, "muteUntilTimeStamp"), -1))
  }

  /** The defaults a room gets for the three keys the native layer may leave out, absent or null alike. */
  lemma RoomDefaults(jo: JsonObject)
    ensures IsNullish(Get(jo, "createTimestamp")) ==> DecodeRoom(jo).createTimeStamp == 0
    ensures IsNullish(Get(jo, "isInAllowList")) ==> !DecodeRoom(jo).isInAllowList
    ensures IsNullish(Get(jo, "muteUntilTimeStamp")) ==> DecodeRoom(jo).muteUntilTimeStamp == -1
    ensures "muteUntilTimeStamp" in jo && jo["muteUntilTimeStamp"].JNum? ==> DecodeRoom(jo).muteUntilTimeStamp == jo["muteUntilTimeStamp"].n
  {
  }

  /** The four strings `ToJsonObject` writes first. */
  function EncodeRoomNames(r: RoomValue): JsonObject
  {
    PutStr(PutStr(PutStr(PutStr(map[], "roomId", r.roomId), "name", r.name), "desc", r.description), "announcement", r.announcement)
  }

  /** The keys up to `maxUsers`, in the order `ToJsonObject` writes them. */
  function EncodeRoomHead(r: RoomValue): JsonObject
  {
    EncodeRoomNames(r)
      ["memberCount" := JNum(r.memberCount)]
      ["adminList" := StringArray(r.adminList)]
      ["memberList" := StringArray(r.memberList)]
      ["blockList" := StringArray(r.blockList)]
      ["muteList" := StringArray(r.muteList)]
      ["maxUsers" := JNum(r.maxUsers)]
  }

  /** `ToJsonObject`: every key `FromJsonObject` reads, the strings only when not null. */
  function EncodeRoom(r: RoomValue): JsonObject
  {
    PutStr(EncodeRoomHead(r), "owner", r.owner)
      ["isMuteAll" := JBool(r.isAllMemberMuted)]
      ["permissionType" := JNum(r.permissionType.Code())]
      ["createTimestamp" := JNum(r.createTimeStamp)]
      ["isInAllowList" := JBool(r.isInAllowList)]
      ["muteUntilTimeStamp" := JNum(r.muteUntilTimeStamp)]
  }

  /** Decoding an encoded room gives the room back: every field, null strings included. */
  lemma RoomRoundTrip(r: RoomValue)
    ensures DecodeRoom(EncodeRoom(r)) == r
  {
    RoomHeadFacts(r);
    RoomTailFacts(r);
    TailKeepsHead(r, "roomId");
    TailKeepsHead(r, "name");
    TailKeepsHead(r, "desc");
    TailKeepsHead(r, "announcement");
    TailKeepsHead(r, "memberCount");
    TailKeepsHead(r, "adminList");
    TailKeepsHead(r, "memberList");
    TailKeepsHead(r, "blockList");
    TailKeepsHead(r, "muteList");
    TailKeepsHead(r, "maxUsers");
    DecodeRoomFromFacts(EncodeRoom(r), r);
  }

  lemma TailKeepsHead(r: RoomValue, k: string)
    requires k !in {"owner", "isMuteAll", "permissionType", "createTimestamp", "isInAllowList", "muteUntilTimeStamp"}
    ensures Get(EncodeRoom(r), k) == Get(EncodeRoomHead(r), k)
  {
  }

  lemma RoomHeadFacts(r: RoomValue)
    ensures Str(Get(EncodeRoomHead(r), "roomId")) == r.roomId
    ensures Str(Get(EncodeRoomHead(r), "name")) == r.name
    ensures Str(Get(EncodeRoomHead(r), "desc")) == r.description
    ensures Str(Get(EncodeRoomHead(r), "announcement")) == r.announcement
    ensures Get(EncodeRoomHead(r), "memberCount") == Some(JNum(r.memberCount))
    ensures Get(EncodeRoomHead(r), "adminList") == Some(StringArray(r.adminList))
    ensures Get(EncodeRoomHead(r), "memberList") == Some(StringArray(r.memberList))
    ensures Get(EncodeRoomHead(r), "blockList") == Some(StringArray(r.blockList))
    ensures Get(EncodeRoomHead(r), "muteList") == Some(StringArray(r.muteList))
    ensures Get(EncodeRoomHead(r), "maxUsers") == Some(JNum(r.maxUsers))
  {
    RoomNamesFacts(r);
    var names := EncodeRoomNames(r);
    assert Get(EncodeRoomHead(r), "roomId") == Get(names, "roomId");
    assert Get(EncodeRoomHead(r), "name") == Get(names, "name");
    assert Get(EncodeRoomHead(r), "desc") == Get(names, "desc");
    assert Get(EncodeRoomHead(r), "announcement") == Get(names, "announcement");
  }

  lemma RoomNamesFacts(r: RoomValue)
    ensures Str(Get(EncodeRoomNames(r), "roomId")) == r.roomId
    ensures Str(Get(EncodeRoomNames(r), "name")) == r.name
    ensures Str(Get(EncodeRoomNames(r), "desc")) == r.description
    ensures Str(Get(EncodeRoomNames(r), "announcement")) == r.announcement
  {
  }

  lemma RoomTailFacts(r: RoomValue)
    ensures Str(Get(EncodeRoom(r), "owner")) == r.owner
    ensures Get(EncodeRoom(r), "isMuteAll") == Some(JBool(r.isAllMemberMuted))
    ensures Get(EncodeRoom(r), "permissionType") == Some(JNum(r.permissionType.Code()))
    ensures Get(EncodeRoom(r), "createTimestamp") == Some(JNum(r.createTimeStamp))
    ensures Get(EncodeRoom(r), "isInAllowList") == Some(JBool(r.isInAllowList))
    ensures Get(EncodeRoom(r), "muteUntilTimeStamp") == Some(JNum(r.muteUntilTimeStamp))
  {
  }

  /** Any object holding `r`'s keys as the encoder writes them decodes to `r`. */
  lemma DecodeRoomFromFacts(jo: JsonObject, r: RoomValue)
    requires Str(Get(jo, "roomId")) == r.roomId
    requires Str(Get(jo, "name")) == r.name
    requires Str(Get(jo, "desc")) == r.description
    requires Str(Get(jo, "announcement")) == r.announcement
    requires Get(jo, "memberCount") == Some(JNum(r.memberCount))
    requires Get(jo, "adminList") == Some(StringArray(r.adminList))
    requires Get(jo, "memberList") == Some(StringArray(r.memberList))
    requires Get(jo, "blockList") == Some(StringArray(r.blockList))
    requires Get(jo, "muteList") == Some(StringArray(r.muteList))
    requires Get(jo, "maxUsers") == Some(JNum(r.maxUsers))
    requires Str(Get(jo, "owner")) == r.owner
    requires Get(jo, "isMuteAll") == Some(JBool(r.isAllMemberMuted))
    requires Get(jo, "permissionType") == Some(JNum(r.permissionType.Code()))
    requires Get(jo, "createTimestamp") == Some(JNum(r.createTimeStamp))
    requires Get(jo, "isInAllowList") == Some(JBool(r.isInAllowList))
    requires Get(jo, "muteUntilTimeStamp") == Some(JNum(r.muteUntilTimeStamp))
    ensures DecodeRoom(jo) == r
  {
    StringListRoundTrip(r.adminList);
    StringListRoundTrip(r.memberList);
    StringListRoundTrip(r.blockList);
    StringListRoundTrip(r.muteList);
    PermissionTypeCodeRoundTrip(r.permissionType);
  }

  class Room {
    var roomId: NString
    var name: NString
    var description: NString
    var announcement: NString
    var memberCount: int
    var adminList: seq<string>
    var memberList: seq<string>
    var blockList: seq<string>
    var muteList: seq<string>
    var maxUsers: int
    var owner: NString
    var isAllMemberMuted: bool
    var permissionType: RoomPermissionType
    var createTimeStamp: int
    var isInAllowList: bool
    var muteUntilTimeStamp: int

    function Value(): RoomValue
      reads this
    {
      RoomValue(roomId, name, description, announcement, memberCount, adminList, memberList, blockList, muteList,
        maxUsers, owner, isAllMemberMuted, permissionType, createTimeStamp, isInAllowList, muteUntilTimeStamp)
    }

    constructor ()
      ensures Value() == RoomValue(None, None, None, None, 0, [], [], [], [], 0, None, false, Member, 0, false, 0)
    {
      roomId, name, description, announcement, memberCount := None, None, None, None, 0;
      adminList, memberList, blockList, muteList, maxUsers := [], [], [], [], 0;
      owner, isAllMemberMuted, permissionType := None, false, Member;
      createTimeStamp, isInAllowList, muteUntilTimeStamp := 0, false, 0;
    }

    /** `FromJsonObject`: the plain fields, then the three with defaults. */
    method FromJsonObject(jo: JsonObject)
      modifies this
      ensures Value() == DecodeRoom(jo)
    {
      var r := DecodeRoom(jo);
      AssignNames(r);
      AssignMembers(r);
      AssignTail(jo);
    }

    method AssignNames(r: RoomValue)
      modifies this`roomId, this`name, this`description, this`announcement, this`memberCount, this`adminList
      ensures roomId == r.roomId && name == r.name && description == r.description && announcement == r.announcement
      ensures memberCount == r.memberCount && adminList == r.adminList
    {
      roomId := r.roomId;
      name := r.name;
      description := r.description;
      announcement := r.announcement;
      memberCount := r.memberCount;
      adminList := r.adminList;
    }

    method AssignMembers(r: RoomValue)
      modifies this`memberList, this`blockList, this`muteList, this`maxUsers, this`owner, this`isAllMemberMuted, this`permissionType
      ensures memberList == r.memberList && blockList == r.blockList && muteList == r.muteList && maxUsers == r.maxUsers
      ensures owner == r.owner && isAllMemberMuted == r.isAllMemberMuted && permissionType == r.permissionType
    {
      memberList := r.memberList;
      blockList := r.blockList;
      muteList := r.muteList;
      maxUsers := r.maxUsers;
      owner := r.owner;
      isAllMemberMuted := r.isAllMemberMuted;
      permissionType := r.permissionType;
    }

    method AssignTail(jo: JsonObject)
      modifies this`createTimeStamp, this`isInAllowList, this`muteUntilTimeStamp
      ensures createTimeStamp == DecodeRoom(jo).createTimeStamp
      ensures isInAllowList == DecodeRoom(jo).isInAllowList
      ensures muteUntilTimeStamp == DecodeRoom(jo).muteUntilTimeStamp
    {
      if !IsNullish(Get(jo, "createTimestamp")) {
        createTimeStamp := AsNum(Get(jo, "createTimestamp"));
      } else {
        createTimeStamp := 0;
      }
      if !IsNullish(Get(jo, "isInAllowList")) {
        isInAllowList := AsBool(Get(jo, "isInAllowList"));
      } else {
        isInAllowList := false;
      }
      if !IsNullish(Get(jo, "muteUntilTimeStamp")) {
        muteUntilTimeStamp := AsNum(Get(jo, "muteUntilTimeStamp"));
      } else {
        muteUntilTimeStamp := -1;
      }
    }

    function ToJsonObject(): JsonObject
      reads this
    {
      EncodeRoom(Value())
    }
  }
}
