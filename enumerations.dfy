/**
 * The SDK's enumerations with the integer each member carries on the wire (`ToInt()`),
 * and the converters that turn a decoded integer back into a member (`AsInt.ToXxx()`).
 * A code no member carries decodes to the enumeration's `Unknown` member where it has
 * one, and to its member with code 0 otherwise. Two converters return an `Option`
 * instead, `None` for such a code. `ToMessageBodyType` does so because a message whose
 * `type` names no body class gets no body. `ToMultiDevicesOperation` does so because it
 * stands for the C# cast, which keeps any integer, including one no operation declares.
 */
module Enumerations {
  import opened Wrappers

  /** Data-centre areas: a bit per area, and `GLOB` for all of them. */
  datatype AreaCode = CN | NA | EU | AS | JP | IN | GLOB
  {
    function Code(): int
    {
      match this
      case CN => 1
      case NA => 2
      case EU => 4
      case AS => 8
      case JP => 16
      case IN => 32
      case GLOB => -1
    }
  }

  predicate IsPowerOfTwo(k: int)
    decreases if k < 0 then 0 else k
  {
    k == 1 || (k > 1 && k % 2 == 0 && IsPowerOfTwo(k / 2))
  }

  /** Every area but `GLOB` is a single bit, no two areas share a code, and `GLOB` is -1. */
  lemma AreaCodesAreBits(a: AreaCode, b: AreaCode)
    ensures a != GLOB ==> IsPowerOfTwo(a.Code())
    ensures a != b ==> a.Code() != b.Code()
    ensures GLOB.Code() == -1
  {
    assert IsPowerOfTwo(1) && IsPowerOfTwo(2) && IsPowerOfTwo(4) && IsPowerOfTwo(8);
    assert IsPowerOfTwo(16) && IsPowerOfTwo(32);
  }

  datatype DisconnectReason =
    | Reason_Disconnected
    | Reason_AuthenticationFailed
    | Reason_LoginFromOtherDevice
    | Reason_RemoveFromServer
    | Reason_LoginTooManyDevice
    | Reason_ChangePassword
    | Reason_KickedByOtherDevice
    | Reason_ForbidByServer
  {
    function Code(): int
    {
      match this
      case Reason_Disconnected => 0
      case Reason_AuthenticationFailed => 1
      case Reason_LoginFromOtherDevice => 2
      case Reason_RemoveFromServer => 3
      case Reason_LoginTooManyDevice => 4
      case Reason_ChangePassword => 5
      case Reason_KickedByOtherDevice => 6
      case Reason_ForbidByServer => 7
    }
  }

  datatype ChatThreadOperation = UnKnown | Create | Update | Delete | Update_Msg
  {
    function Code(): int
    {
      match this
      case UnKnown => 0
      case Create => 1
      case Update => 2
      case Delete => 3
      case Update_Msg => 4
    }
  }

  function ToChatThreadOperation(i: int): (op: ChatThreadOperation)
    ensures op.Code() == i || (op == UnKnown && !(0 <= i <= 4))
  {
    if i == 1 then Create
    else if i == 2 then Update
    else if i == 3 then Delete
    else if i == 4 then Update_Msg
    else UnKnown
  }

  /** Group and room member roles share these codes; `Default` and `None` are aliases of `Unknown`. */
  datatype PermissionType = Member | Admin | Owner | Unknown
  {
    function Code(): int
    {
      match this
      case Member => 0
      case Admin => 1
      case Owner => 2
      case Unknown => -1
    }
  }

  type GroupPermissionType = PermissionType
  type RoomPermissionType = PermissionType

  const Default: PermissionType := Unknown
  const NonePermission: PermissionType := Unknown

  function ToPermissionType(i: int): (p: PermissionType)
    ensures p.Code() == i || (p == Unknown && !(-1 <= i <= 2))
  {
    if i == 0 then Member
    else if i == 1 then Admin
    else if i == 2 then Owner
    else Unknown
  }

  datatype GroupStyle = PrivateOnlyOwnerInvite | PrivateMemberCanInvite | PublicJoinNeedApproval | PublicOpenJoin
  {
    function Code(): int
    {
      match this
      case PrivateOnlyOwnerInvite => 0
      case PrivateMemberCanInvite => 1
      case PublicJoinNeedApproval => 2
      case PublicOpenJoin => 3
    }
  }

  function ToGroupStyle(i: int): (s: GroupStyle)
    ensures s.Code() == i || (s == PrivateOnlyOwnerInvite && !(0 <= i <= 3))
  {
    if i == 1 then PrivateMemberCanInvite
    else if i == 2 then PublicJoinNeedApproval
    else if i == 3 then PublicOpenJoin
    else PrivateOnlyOwnerInvite
  }

  datatype ConversationType = Chat | Group | Room
  {
    function Code(): int
    {
      match this
      case Chat => 0
      case Group => 1
      case Room => 2
    }
  }

  function ToConversationType(i: int): (t: ConversationType)
    ensures t.Code() == i || (t == ConversationType.Chat && !(0 <= i <= 2))
  {
    if i == 1 then ConversationType.Group else if i == 2 then ConversationType.Room else ConversationType.Chat
  }

  datatype MessageBodyType = TXT | IMAGE | VIDEO | LOCATION | VOICE | FILE | CMD | CUSTOM | COMBINE
  {
    function Code(): int
    {
      match this
      case TXT => 0
      case IMAGE => 1
      case VIDEO => 2
      case LOCATION => 3
      case VOICE => 4
      case FILE => 5
      case CMD => 6
      case CUSTOM => 7
      case COMBINE => 8
    }
  }

  /** The body type for a wire code; codes outside 0..8 name no body type. */
  function ToMessageBodyType(i: int): (t: Option<MessageBodyType>)
    ensures t.Some? <==> 0 <= i <= 8
    ensures t.Some? ==> t.value.Code() == i
  {
    if i == 0 then Some(TXT)
    else if i == 1 then Some(IMAGE)
    else if i == 2 then Some(VIDEO)
    else if i == 3 then Some(LOCATION)
    else if i == 4 then Some(VOICE)
    else if i == 5 then Some(FILE)
    else if i == 6 then Some(CMD)
    else if i == 7 then Some(CUSTOM)
    else if i == 8 then Some(COMBINE)
    else None
  }

  datatype RoomMessagePriority = High | Normal | Low
  {
    function Code(): int
    {
      match this
      case High => 0
      case Normal => 1
      case Low => 2
    }
  }

  datatype MessageSearchDirection = UP | DOWN
  {
    function Code(): int
    {
      match this
      case UP => 0
      case DOWN => 1
    }
  }

  datatype MessageSearchScope = CONTENT | EXT | ALL
  {
    function Code(): int
    {
      match this
      case CONTENT => 0
      case EXT => 1
      case ALL => 2
    }
  }

  datatype MessageStatus = CREATE | PROGRESS | SUCCESS | FAIL
  {
    function Code(): int
    {
      match this
      case CREATE => 0
      case PROGRESS => 1
      case SUCCESS => 2
      case FAIL => 3
    }
  }

  function ToMessageStatus(i: int): (s: MessageStatus)
    ensures s.Code() == i || (s == CREATE && !(0 <= i <= 3))
  {
    if i == 1 then PROGRESS else if i == 2 then MessageStatus.SUCCESS else if i == 3 then FAIL else CREATE
  }

  datatype MessageType = Chat | Group | Room
  {
    function Code(): int
    {
      match this
      case Chat => 0
      case Group => 1
      case Room => 2
    }
  }

  function ToMessageType(i: int): (t: MessageType)
    ensures t.Code() == i || (t == MessageType.Chat && !(0 <= i <= 2))
  {
    if i == 1 then MessageType.Group else if i == 2 then MessageType.Room else MessageType.Chat
  }

  datatype MessageDirection = SEND | RECEIVE
  {
    function Code(): int
    {
      match this
      case SEND => 0
      case RECEIVE => 1
    }
  }

  function ToMessageDirection(i: int): (d: MessageDirection)
    ensures d.Code() == i || (d == SEND && i != 1)
  {
    if i == 1 then RECEIVE else SEND
  }

  datatype AttributeValueType = BOOL | INT32 | UINT32 | INT64 | FLOAT | DOUBLE | STRING | JSONSTRING | NULLOBJ
  {
    function Code(): int
    {
      match this
      case BOOL => 0
      case INT32 => 1
      case UINT32 => 2
      case INT64 => 3
      case FLOAT => 4
      case DOUBLE => 5
      case STRING => 6
      case JSONSTRING => 7
      case NULLOBJ => 8
    }
  }

  function ToAttributeValueType(i: int): (t: AttributeValueType)
    ensures t.Code() == i || (t == BOOL && !(0 <= i <= 8))
  {
    if i == 1 then INT32
    else if i == 2 then UINT32
    else if i == 3 then INT64
    else if i == 4 then FLOAT
    else if i == 5 then DOUBLE
    else if i == 6 then STRING
    else if i == 7 then JSONSTRING
    else if i == 8 then NULLOBJ
    else BOOL
  }

  datatype DownLoadStatus = DOWNLOADING | SUCCESS | FAILED | PENDING
  {
    function Code(): int
    {
      match this
      case DOWNLOADING => 0
      case SUCCESS => 1
      case FAILED => 2
      case PENDING => 3
    }
  }

  function ToDownLoadStatus(i: int): (s: DownLoadStatus)
    ensures s.Code() == i || (s == DOWNLOADING && !(0 <= i <= 3))
  {
    if i == 1 then DownLoadStatus.SUCCESS else if i == 2 then FAILED else if i == 3 then PENDING else DOWNLOADING
  }

  datatype MessageReactionOperate = MessageReactionOperateRemove | MessageReactionOperateAdd
  {
    function Code(): int
    {
      match this
      case MessageReactionOperateRemove => 0
      case MessageReactionOperateAdd => 1
    }
  }

  function ToMessageReactionOperate(i: int): (o: MessageReactionOperate)
    ensures o.Code() == i || (o == MessageReactionOperateRemove && i != 1)
  {
    if i == 1 then MessageReactionOperateAdd else MessageReactionOperateRemove
  }

  /** Conversation marks: `MarkTypeN` carries the value N. */
  newtype MarkType = k: int | 0 <= k < 20

  datatype MultiDevicesOperation =
    | UNKNOWN
    | CONTACT_REMOVE | CONTACT_ACCEPT | CONTACT_DECLINE | CONTACT_BAN | CONTACT_ALLOW
    | GROUP_CREATE | GROUP_DESTROY | GROUP_JOIN | GROUP_LEAVE | GROUP_APPLY
    | GROUP_APPLY_ACCEPT | GROUP_APPLY_DECLINE | GROUP_INVITE | GROUP_INVITE_ACCEPT | GROUP_INVITE_DECLINE
    | GROUP_KICK | GROUP_BAN | GROUP_ALLOW | GROUP_BLOCK | GROUP_UNBLOCK
    | GROUP_ASSIGN_OWNER | GROUP_ADD_ADMIN | GROUP_REMOVE_ADMIN | GROUP_ADD_MUTE | GROUP_REMOVE_MUTE
    | GROUP_ADD_USER_WHITE_LIST | GROUP_REMOVE_USER_WHITE_LIST | GROUP_ALL_BAN | GROUP_REMOVE_ALL_BAN
    | THREAD_CREATE | THREAD_DESTROY | THREAD_JOIN | THREAD_LEAVE | THREAD_UPDATE | THREAD_KICK
    | SET_METADATA | DELETE_METADATA | GROUP_MEMBER_METADATA_CHANGED
    | CONVERSATION_PINNED | CONVERSATION_UNPINNED | CONVERSATION_DELETED | CONVERSATION_MARK
    | CONVERSATION_MUTE_INFO_CHANGED
  {
    function Code(): int
    {
      match this
      case UNKNOWN => -1
      case CONTACT_REMOVE => 2
      case CONTACT_ACCEPT => 3
      case CONTACT_DECLINE => 4
      case CONTACT_BAN => 5
      case CONTACT_ALLOW => 6
      case GROUP_CREATE => 10
      case GROUP_DESTROY => 11
      case GROUP_JOIN => 12
      case GROUP_LEAVE => 13
      case GROUP_APPLY => 14
      case GROUP_APPLY_ACCEPT => 15
      case GROUP_APPLY_DECLINE => 16
      case GROUP_INVITE => 17
      case GROUP_INVITE_ACCEPT => 18
      case GROUP_INVITE_DECLINE => 19
      case GROUP_KICK => 20
      case GROUP_BAN => 21
      case GROUP_ALLOW => 22
      case GROUP_BLOCK => 23
      case GROUP_UNBLOCK => 24
      case GROUP_ASSIGN_OWNER => 25
      case GROUP_ADD_ADMIN => 26
      case GROUP_REMOVE_ADMIN => 27
      case GROUP_ADD_MUTE => 28
      case GROUP_REMOVE_MUTE => 29
      case GROUP_ADD_USER_WHITE_LIST => 30
      case GROUP_REMOVE_USER_WHITE_LIST => 31
      case GROUP_ALL_BAN => 32
      case GROUP_REMOVE_ALL_BAN => 33
      case THREAD_CREATE => 40
      case THREAD_DESTROY => 41
      case THREAD_JOIN => 42
      case THREAD_LEAVE => 43
      case THREAD_UPDATE => 44
      case THREAD_KICK => 45
      case SET_METADATA => 50
      case DELETE_METADATA => 51
      case GROUP_MEMBER_METADATA_CHANGED => 52
      case CONVERSATION_PINNED => 60
      case CONVERSATION_UNPINNED => 61
      case CONVERSATION_DELETED => 62
      case CONVERSATION_MARK => 63
      case CONVERSATION_MUTE_INFO_CHANGED => 64
    }

    /** The operations come in families: contacts 2..6, groups 10..33, threads 40..45, metadata 50..52, conversations 60..64. */
    predicate IsContactOperation() { 2 <= Code() <= 6 }
    predicate IsGroupOperation() { 10 <= Code() <= 33 }
    predicate IsThreadOperation() { 40 <= Code() <= 45 }
    predicate IsConversationOperation() { 60 <= Code() <= 64 }
  }

  /**
   * The operation a wire code stands for, as the enum cast reads it; `None` for a code no
   * operation declares. The codes are looked up family by family.
   */
  function ToMultiDevicesOperation(code: int): (op: Option<MultiDevicesOperation>)
    ensures op.Some? ==> op.value.Code() == code
  {
    if code == -1 then Some(UNKNOWN)
    else if code < 10 then ContactOperationOf(code)
    else if code < 20 then GroupOperationOf(code)
    else if code < 40 then GroupAdminOperationOf(code)
    else if code < 60 then ThreadOrMetadataOperationOf(code)
    else ConversationOperationOf(code)
  }

  /** The contact operations, codes 2..6. */
  function ContactOperationOf(code: int): (op: Option<MultiDevicesOperation>)
    ensures op.Some? ==> op.value.Code() == code
  {
    match code
    case 2 => Some(CONTACT_REMOVE)
    case 3 => Some(CONTACT_ACCEPT)
    case 4 => Some(CONTACT_DECLINE)
    case 5 => Some(CONTACT_BAN)
    case 6 => Some(CONTACT_ALLOW)
    case _ => None
  }

  /** The group membership operations, codes 10..19. */
  function GroupOperationOf(code: int): (op: Option<MultiDevicesOperation>)
    ensures op.Some? ==> op.value.Code() == code
  {
    match code
    case 10 => Some(GROUP_CREATE)
    case 11 => Some(GROUP_DESTROY)
    case 12 => Some(GROUP_JOIN)
    case 13 => Some(GROUP_LEAVE)
    case 14 => Some(GROUP_APPLY)
    case 15 => Some(GROUP_APPLY_ACCEPT)
    case 16 => Some(GROUP_APPLY_DECLINE)
    case 17 => Some(GROUP_INVITE)
    case 18 => Some(GROUP_INVITE_ACCEPT)
    case 19 => Some(GROUP_INVITE_DECLINE)
    case _ => None
  }

  /** The group administration operations, codes 20..33. */
  function GroupAdminOperationOf(code: int): (op: Option<MultiDevicesOperation>)
    ensures op.Some? ==> op.value.Code() == code
  {
    match code
    case 20 => Some(GROUP_KICK)
    case 21 => Some(GROUP_BAN)
    case 22 => Some(GROUP_ALLOW)
    case 23 => Some(GROUP_BLOCK)
    case 24 => Some(GROUP_UNBLOCK)
    case 25 => Some(GROUP_ASSIGN_OWNER)
    case 26 => Some(GROUP_ADD_ADMIN)
    case 27 => Some(GROUP_REMOVE_ADMIN)
    case 28 => Some(GROUP_ADD_MUTE)
    case 29 => Some(GROUP_REMOVE_MUTE)
    case 30 => Some(GROUP_ADD_USER_WHITE_LIST)
    case 31 => Some(GROUP_REMOVE_USER_WHITE_LIST)
    case 32 => Some(GROUP_ALL_BAN)
    case 33 => Some(GROUP_REMOVE_ALL_BAN)
    case _ => None
  }

  /** The thread operations, codes 40..45, and the metadata operations, codes 50..52. */
  function ThreadOrMetadataOperationOf(code: int): (op: Option<MultiDevicesOperation>)
    ensures op.Some? ==> op.value.Code() == code
  {
    match code
    case 40 => Some(THREAD_CREATE)
    case 41 => Some(THREAD_DESTROY)
    case 42 => Some(THREAD_JOIN)
    case 43 => Some(THREAD_LEAVE)
    case 44 => Some(THREAD_UPDATE)
    case 45 => Some(THREAD_KICK)
    case 50 => Some(SET_METADATA)
    case 51 => Some(DELETE_METADATA)
    case 52 => Some(GROUP_MEMBER_METADATA_CHANGED)
    case _ => None
  }

  /** The conversation operations, codes 60..64. */
  function ConversationOperationOf(code: int): (op: Option<MultiDevicesOperation>)
    ensures op.Some? ==> op.value.Code() == code
  {
    match code
    case 60 => Some(CONVERSATION_PINNED)
    case 61 => Some(CONVERSATION_UNPINNED)
    case 62 => Some(CONVERSATION_DELETED)
    case 63 => Some(CONVERSATION_MARK)
    case 64 => Some(CONVERSATION_MUTE_INFO_CHANGED)
    case _ => None
  }

  lemma MultiDevicesOperationCodeRoundTrip(op: MultiDevicesOperation)
    ensures ToMultiDevicesOperation(op.Code()) == Some(op)
  {
    match op
    case UNKNOWN =>
    case CONTACT_REMOVE =>
    case CONTACT_ACCEPT =>
    case CONTACT_DECLINE =>
    case CONTACT_BAN =>
    case CONTACT_ALLOW =>
    case GROUP_CREATE =>
    case GROUP_DESTROY =>
    case GROUP_JOIN =>
    case GROUP_LEAVE =>
    case GROUP_APPLY =>
    case GROUP_APPLY_ACCEPT =>
    case GROUP_APPLY_DECLINE =>
    case GROUP_INVITE =>
    case GROUP_INVITE_ACCEPT =>
    case GROUP_INVITE_DECLINE =>
    case GROUP_KICK =>
    case GROUP_BAN =>
    case GROUP_ALLOW =>
    case GROUP_BLOCK =>
    case GROUP_UNBLOCK =>
    case GROUP_ASSIGN_OWNER =>
    case GROUP_ADD_ADMIN =>
    case GROUP_REMOVE_ADMIN =>
    case GROUP_ADD_MUTE =>
    case GROUP_REMOVE_MUTE =>
    case GROUP_ADD_USER_WHITE_LIST =>
    case GROUP_REMOVE_USER_WHITE_LIST =>
    case GROUP_ALL_BAN =>
    case GROUP_REMOVE_ALL_BAN =>
    case THREAD_CREATE =>
    case THREAD_DESTROY =>
    case THREAD_JOIN =>
    case THREAD_LEAVE =>
    case THREAD_UPDATE =>
    case THREAD_KICK =>
    case SET_METADATA =>
    case DELETE_METADATA =>
    case GROUP_MEMBER_METADATA_CHANGED =>
    case CONVERSATION_PINNED =>
    case CONVERSATION_UNPINNED =>
    case CONVERSATION_DELETED =>
    case CONVERSATION_MARK =>
    case CONVERSATION_MUTE_INFO_CHANGED =>
  }

  /** No two multi-device operations share a code. */
  lemma MultiDevicesCodesDistinct(a: MultiDevicesOperation, b: MultiDevicesOperation)
    ensures a.Code() == b.Code() ==> a == b
  {
    MultiDevicesOperationCodeRoundTrip(a);
    MultiDevicesOperationCodeRoundTrip(b);
  }

  // Each converter reads back the code its enumeration writes.

  lemma ChatThreadOperationCodeRoundTrip(op: ChatThreadOperation)
    ensures ToChatThreadOperation(op.Code()) == op
  {
  }

  lemma PermissionTypeCodeRoundTrip(p: PermissionType)
    ensures ToPermissionType(p.Code()) == p
  {
  }

  lemma GroupStyleCodeRoundTrip(s: GroupStyle)
    ensures ToGroupStyle(s.Code()) == s
  {
  }

  lemma ConversationTypeCodeRoundTrip(c: ConversationType)
    ensures ToConversationType(c.Code()) == c
  {
  }

  lemma MessageBodyTypeCodeRoundTrip(b: MessageBodyType)
    ensures ToMessageBodyType(b.Code()) == Some(b)
  {
  }

  lemma MessageStatusCodeRoundTrip(st: MessageStatus)
    ensures ToMessageStatus(st.Code()) == st
  {
  }

  lemma MessageTypeCodeRoundTrip(t: MessageType)
    ensures ToMessageType(t.Code()) == t
  {
  }

  lemma MessageDirectionCodeRoundTrip(d: MessageDirection)
    ensures ToMessageDirection(d.Code()) == d
  {
  }

  lemma AttributeValueTypeCodeRoundTrip(a: AttributeValueType)
    ensures ToAttributeValueType(a.Code()) == a
  {
  }

  lemma DownLoadStatusCodeRoundTrip(dl: DownLoadStatus)
    ensures ToDownLoadStatus(dl.Code()) == dl
  {
  }

  lemma MessageReactionOperateCodeRoundTrip(r: MessageReactionOperate)
    ensures ToMessageReactionOperate(r.Code()) == r
  {
  }
}
