# AgoraChat Unity SDK binding — a verified Dafny model

This project models the C# half of the AgoraChat Unity SDK. The native chat engine does the
persistence, delivery and networking; the C# code around it does four self-contained things:

1. **Delegate registries and event fan-out.** Each of the six managers (`ChatManager`,
   `GroupManager`, `RoomManager`, `ChatThreadManager`, `ContactManager`, `PresenceManager`)
   keeps an ordered list of listeners. `Add…Delegate` appends a listener unless it is
   registered already, `Remove…Delegate` drops its occurrence, and `ClearDelegates` empties
   the list. The native event handler returns at once when nobody listens; otherwise it
   picks a callback by the event's method name, decodes the payload, and calls that callback
   on every listener in registration order. Each manager is a generic class over the listener
   type, with a `seq` field. Its `NativeEventHandle` is a loop that returns the trace of calls
   it makes, and the loop is proved equal to a dispatch function. Lemmas about that function
   state the fan-out properties.
2. **ChatManager's in-flight send table** (`msgMap`, from callback id to the message being
   sent). It is a `map<string, Message>` field updated in place by `AddMsgMap`, `UpdatedMsg`,
   `DeleteFromMsgMap`, `SendMessage` and the completion step.
3. **The paged-result decoders** `CursorResult<T>` and `PageResult<T>`. Each copies a cursor
   or count, then builds `Data` by mapping the caller's item decoder over the `list` array
   and dropping the nulls. The loop is a method proved equal to a filter-map.
4. **The model serialisers**: `Message`, the message-body variants, `Conversation`, `Room`,
   `Group`, `UserInfo`, `Options`, `GroupOptions`, `FetchServerMessagesOption`,
   `ChatThread`, `ChatThreadEvent` and the small DTOs.
   - Each model is a datatype value with pure `Decode…`/`Encode…` functions and round-trip
     lemmas. The round-trip lemmas name exactly which fields a round trip loses.
   - A class carries the source's fields. Its `FromJsonObject` method is proved to set the
     fields to the decoded value.
   - The enumerations keep the integer codes they carry on the wire, and converters read
     the codes back.

JSON is a datatype (`Json.Json`). A lookup yields a `Node` (`Option<Json>`), where `None`
stands for SimpleJSON's "absent key" placeholder. The module spells out the SimpleJSON
conventions the C# code depends on:

- an absent key and a JSON null both compare equal to `null`, but only JSON null is `IsNull`;
- `Value` of an absent key is `""` and of JSON null is `"null"`;
- `AsObject` of an absent key is an empty object;
- `AddWithoutNull` omits a null value;
- the list and dictionary helpers read a non-array or non-object as empty.

## Model

Source paths are relative to the repository root.

| member | source | states |
|---|---|---|
| Registry.AddIfAbsentSpec | Assets/AgoraChat/AgoraChat/Managers/ChatManager.cs:1088-1094 | On a duplicate-free list, the conditional add keeps the list duplicate-free. The new delegate is then a member. Members are the old ones plus it, the old list is kept as a prefix, and a second add changes nothing. |
| Registry.RemoveAbsent | Assets/AgoraChat/AgoraChat/Managers/ChatManager.cs:1107-1113 | Removing a delegate that is not registered leaves the list unchanged. |
| Registry.RemovePresent | Assets/AgoraChat/AgoraChat/Managers/ChatManager.cs:1107-1113 | Removing a registered delegate cuts out exactly its first occurrence. What remains is the part before it followed by the part after it. |
| Registry.RemovePresentIndexes | Assets/AgoraChat/AgoraChat/Managers/ChatManager.cs:1107-1113 | After removing a registered delegate, the list is one shorter. Delegates before it keep their positions and those after it move up by one, so the others' relative order is kept. |
| Registry.RemoveFirstSpec | Assets/AgoraChat/AgoraChat/Managers/ChatManager.cs:1107-1113 | On a duplicate-free list, remove keeps the list duplicate-free. Its members are the old ones minus the removed delegate. The length drops by one exactly when the delegate was registered, and a second remove changes nothing. |
| Registry.FanOutReachesEachDelegateOnce | Assets/AgoraChat/AgoraChat/Managers/ChatManager.cs:1129-1132 | Fan-out over a duplicate-free list calls each delegate exactly once, in list order, and always with the same callback. |
| Registry.DispatchedSpec | Assets/AgoraChat/AgoraChat/Managers/ChatManager.cs:1124-1263 | A handler that selects no callback calls nobody. One that selects a callback calls every delegate in order, each with that callback. |
| Registry.Deliver | Assets/AgoraChat/AgoraChat/Managers/ChatManager.cs:1129-1132 | The `foreach` over the delegates returns exactly the specified fan-out trace. |
| Registry.Lookup | Assets/AgoraChat/AgoraChat/Managers/ChatManager.cs:1124-1263 | The `switch` on the method name. A match is an event of the table that carries that name; no match means no event of the table carries it. |
| ChatManagerModel.ChatEventOf | Assets/AgoraChat/AgoraChat/Managers/ChatManager.cs:1124-1263 | The event a method name selects is one named that way. When nothing is selected, no chat event has that name; an unknown method is in that case. |
| ChatManagerModel.ChatMethodNameRoundTrip | Assets/AgoraChat/AgoraChat/Managers/ChatManager.cs:1124-1263 | Every chat event, including the recall (`onMessagesRecalledByExt`) and reaction (`onMessageReactionDidChange`) events, is recognised under its own method name. |
| ChatManagerModel.ChatMethodNameInjective | Assets/AgoraChat/AgoraChat/Managers/ChatManager.cs:1124-1263 | No two chat events share a method name. |
| ChatManagerModel.WhenNonEmpty | Assets/AgoraChat/AgoraChat/Managers/ChatManager.cs:1126-1196 | A list callback is made exactly when the decoded list is non-empty, and it carries that list. |
| ChatManagerModel.ChatCallbackFor | Assets/AgoraChat/AgoraChat/Managers/ChatManager.cs:1126-1261 | An event yields no callback exactly in two cases. One is `onMessageIdChanged`, whose body is commented out. The other is a list event whose payload decodes to an empty list. Any callback made is the delegate method of that event's own case (`Event()` maps each callback back to its event). |
| ChatManagerModel.ChatDispatchSpec | Assets/AgoraChat/AgoraChat/Managers/ChatManager.cs:1120-1264 | Nothing is delivered exactly when there are no delegates, the method is unknown or `onMessageIdChanged`, or a list event decodes to nothing. Otherwise every delegate receives the event's callback, in order, and every call made is the delegate method of the event the method name selects. |
| ChatManagerModel.ListEventDelivery | Assets/AgoraChat/AgoraChat/Managers/ChatManager.cs:1126-1196 | A list event reaches the delegates exactly when at least one is registered, the payload is an array, and some array item is a JSON object. |
| ChatManagerModel.FetchHistoryRequestSpec | Assets/AgoraChat/AgoraChat/Managers/ChatManager.cs:129-136 | The request carries `startMsgId` as the start id, or `""` for null. `direction` is 0 for UP and 1 for DOWN. `convType` decodes back to the conversation type, and `convId` and `count` are as given. |
| ChatManagerModel.FetchHistoryByRequestSpec | Assets/AgoraChat/AgoraChat/Managers/ChatManager.cs:167-174 | The request carries `cursor` as given, or `""` for null. `options` is present exactly when an option is given, and then holds that option's encoding. `pageSize` is as given. |
| ChatManagerModel.ChatManager.constructor | Assets/AgoraChat/AgoraChat/Managers/ChatManager.cs:14-20 | A new manager has no delegates and an empty send table. |
| ChatManagerModel.ChatManager.AddChatManagerDelegate | Assets/AgoraChat/AgoraChat/Managers/ChatManager.cs:1088-1094 | The list becomes the conditional append of the delegate, and duplicate-freedom is preserved. |
| ChatManagerModel.ChatManager.RemoveChatManagerDelegate | Assets/AgoraChat/AgoraChat/Managers/ChatManager.cs:1107-1113 | The list loses the delegate's first occurrence, or stays the same if it has none. On a duplicate-free list the delegate is gone afterwards and the list stays duplicate-free. |
| ChatManagerModel.ChatManager.ClearDelegates | Assets/AgoraChat/AgoraChat/Managers/ChatManager.cs:1115-1118 | The list becomes empty. |
| ChatManagerModel.ChatManager.NativeEventHandle | Assets/AgoraChat/AgoraChat/Managers/ChatManager.cs:1120-1264 | The calls made are exactly the specified chat dispatch for the current delegates. |
| ChatManagerModel.ChatManager.AddMsgMap | Assets/AgoraChat/AgoraChat/Managers/ChatManager.cs:22-28 | Requires an unused callback id, because `Dictionary.Add` throws on a duplicate. Afterwards the id maps to the message and every other entry is unchanged. |
| ChatManagerModel.ChatManager.UpdatedMsg | Assets/AgoraChat/AgoraChat/Managers/ChatManager.cs:30-43 | The table itself is unchanged. Only the message under `cbid`, if there is one, is updated, by decoding the node; a null or non-object node leaves it as it was. |
| ChatManagerModel.ChatManager.DeleteFromMsgMap | Assets/AgoraChat/AgoraChat/Managers/ChatManager.cs:45-54 | The entry for `cbid` is dropped if present; other keys are untouched. |
| ChatManagerModel.ChatManager.SendMessage | Assets/AgoraChat/AgoraChat/Managers/ChatManager.cs:558-579 | Requires a callback, because line 569 dereferences it, and a message with a body, because `ToJsonObject` dereferences it. The message is entered under the callback id and the request is its encoding. When the native call returns a node, the message is refreshed from its `ret`. |
| ChatManagerModel.ChatManager.SendCompleted | Assets/AgoraChat/AgoraChat/Managers/ChatManager.cs:560-565 | The completion step refreshes the pending message from `ret`. Afterwards the callback id is no longer in the table, and the other entries are unchanged. |
| GroupManagerModel.GroupEventOf | Assets/AgoraChat/AgoraChat/Managers/GroupManager.cs:1049-1220 | The group event a method name selects is one named that way. When nothing is selected, no group event has that name. |
| GroupManagerModel.GroupCallbackFor | Assets/AgoraChat/AgoraChat/Managers/GroupManager.cs:1053-1219 | Each event selects the delegate method of its own case, and no other event selects it (`Event()` maps each callback back to its event). Every callback except the specification change carries the `groupId` read once from the payload. Callbacks that take a group name carry the `name` read once. |
| GroupManagerModel.GroupDispatchSpec | Assets/AgoraChat/AgoraChat/Managers/GroupManager.cs:1049-1220 | Nothing is delivered exactly when there are no delegates or the method is unknown. Otherwise every delegate is called once, in order, all with one and the same callback. That callback is the delegate method of the event the method name selects, and carries the payload's `groupId` and `name`. |
| GroupManagerModel.GroupMembershipCheckResult | Assets/AgoraChat/AgoraChat/Managers/GroupManager.cs:237-265 | The allow-list and mute-list checks are true exactly when `ret` is the boolean true. A non-boolean gives false. |
| GroupManagerModel.MyGroupsCountResult | Assets/AgoraChat/AgoraChat/Managers/GroupManager.cs:1001-1008 | A numeric `ret` is the count; anything else gives -1. |
| NativeResults.AnnouncementResult | Assets/AgoraChat/AgoraChat/Managers/GroupManager.cs:395-405 | A string `ret` is the announcement; anything else gives null. `FetchRoomAnnouncement` (RoomManager.cs lines 206-215) uses the same lambda. |
| GroupManagerModel.CreateGroupRequestSpec | Assets/AgoraChat/AgoraChat/Managers/GroupManager.cs:290-308 | `options` is present exactly when options are given, and then holds their encoding, which decodes back to them. `name`, `desc`, `userIds` and `msg` carry the arguments. |
| GroupManagerModel.GroupManager.AddGroupManagerDelegate | Assets/AgoraChat/AgoraChat/Managers/GroupManager.cs:1025-1031 | The list becomes the conditional append of the delegate, and duplicate-freedom is preserved. |
| GroupManagerModel.GroupManager.RemoveGroupManagerDelegate | Assets/AgoraChat/AgoraChat/Managers/GroupManager.cs:1039-1042 | The delegate's first occurrence is removed, or nothing if it has none. On a duplicate-free list the delegate is gone afterwards. |
| GroupManagerModel.GroupManager.ClearDelegates | Assets/AgoraChat/AgoraChat/Managers/GroupManager.cs:1044-1047 | The list becomes empty. |
| GroupManagerModel.GroupManager.NativeEventHandle | Assets/AgoraChat/AgoraChat/Managers/GroupManager.cs:1049-1220 | The calls made are exactly the specified group dispatch. |
| RoomManagerModel.RoomEventOf | Assets/AgoraChat/AgoraChat/Managers/RoomManager.cs:816-933 | The room event a method name selects is one named that way. When nothing is selected, no room event has that name. |
| RoomManagerModel.RoomCallbackFor | Assets/AgoraChat/AgoraChat/Managers/RoomManager.cs:820-933 | Each event selects the delegate method of its own case, and no other event selects it (`Event()` maps each callback back to its event). Every callback except the specification change carries the `roomId` read once. Callbacks that take a room name carry the `name` read once. |
| RoomManagerModel.RoomDispatchSpec | Assets/AgoraChat/AgoraChat/Managers/RoomManager.cs:816-933 | Nothing is delivered exactly when there are no delegates or the method is unknown. Otherwise every delegate is called once, in order, with the same callback. That callback is the delegate method of the event the method name selects, and carries the payload's `roomId` and `name`. |
| RoomManagerModel.RoomAllowListCheckResult | Assets/AgoraChat/AgoraChat/Managers/RoomManager.cs:649-658 | True exactly when the result node itself, not `ret`, is the boolean true. |
| RoomManagerModel.FetchAttributesRequestSpec | Assets/AgoraChat/AgoraChat/Managers/RoomManager.cs:740-747 | `list` is present exactly when keys are given, and then holds them in order. `roomId` is as given. |
| RoomManagerModel.FetchAttributesResult | Assets/AgoraChat/AgoraChat/Managers/RoomManager.cs:748-754 | A non-object result gives the empty dictionary. An object gives a dictionary with exactly its keys, each mapped to the `Value` of its node, so a string attribute maps to that string. |
| RoomManagerModel.RoomManager.AddRoomManagerDelegate | Assets/AgoraChat/AgoraChat/Managers/RoomManager.cs:791-797 | The list becomes the conditional append of the delegate, and duplicate-freedom is preserved. |
| RoomManagerModel.RoomManager.RemoveRoomManagerDelegate | Assets/AgoraChat/AgoraChat/Managers/RoomManager.cs:805-808 | The delegate's first occurrence is removed, or nothing if it has none. On a duplicate-free list the delegate is gone afterwards. |
| RoomManagerModel.RoomManager.ClearDelegates | Assets/AgoraChat/AgoraChat/Managers/RoomManager.cs:810-813 | The list becomes empty. |
| RoomManagerModel.RoomManager.NativeEventcallback | Assets/AgoraChat/AgoraChat/Managers/RoomManager.cs:816-933 | The calls made are exactly the specified room dispatch. |
| ChatThreadManagerModel.ThreadEventOf | Assets/AgoraChat/AgoraChat/Managers/ChatThreadManager.cs:349-367 | Only the four thread method names select an event, each selecting its own. Any other name selects nothing. |
| ChatThreadManagerModel.ThreadMethodNameRoundTrip | Assets/AgoraChat/AgoraChat/Managers/ChatThreadManager.cs:349-367 | Each thread event is recognised under its own name. |
| ChatThreadManagerModel.ThreadCallbackFor | Assets/AgoraChat/AgoraChat/Managers/ChatThreadManager.cs:349-367 | Each event selects the delegate method of its own case (`Event()` maps each callback back to its event). The callback carries the decoded event unchanged. |
| ChatThreadManagerModel.ThreadCallbackInjective | Assets/AgoraChat/AgoraChat/Managers/ChatThreadManager.cs:349-367 | The four events map one-to-one onto the callbacks: create to `OnChatThreadCreate`, update to `OnChatThreadUpdate`, destroy to `OnChatThreadDestroy`, and kick-out to `OnUserKickOutOfChatThread`. |
| ChatThreadManagerModel.ThreadDispatchSpec | Assets/AgoraChat/AgoraChat/Managers/ChatThreadManager.cs:342-367 | Nothing is delivered exactly when there are no delegates, the payload decodes to no event, or the method is not one of the four. Otherwise every delegate, in order, gets the callback with the one decoded event. Every call made is the delegate method of the event the method name selects. |
| ChatThreadManagerModel.ChatThreadManager.AddThreadManagerDelegate | Assets/AgoraChat/AgoraChat/Managers/ChatThreadManager.cs:317-323 | The list becomes the conditional append of the delegate, and duplicate-freedom is preserved. |
| ChatThreadManagerModel.ChatThreadManager.RemoveThreadManagerDelegate | Assets/AgoraChat/AgoraChat/Managers/ChatThreadManager.cs:332-335 | The delegate's first occurrence is removed, or nothing if it has none. On a duplicate-free list the delegate is gone afterwards. |
| ChatThreadManagerModel.ChatThreadManager.ClearDelegates | Assets/AgoraChat/AgoraChat/Managers/ChatThreadManager.cs:337-340 | The list becomes empty. |
| ChatThreadManagerModel.ChatThreadManager.NativeEventHandle | Assets/AgoraChat/AgoraChat/Managers/ChatThreadManager.cs:342-367 | The calls made are exactly the specified thread dispatch. |
| ContactManagerModel.ContactEventOf | Assets/AgoraChat/AgoraChat/Managers/ContactManager.cs:341-364 | Only the five contact method names select an event. Any other name selects nothing. |
| ContactManagerModel.ContactMethodNameRoundTrip | Assets/AgoraChat/AgoraChat/Managers/ContactManager.cs:341-362 | Each contact event is recognised under its own name. |
| ContactManagerModel.ContactCallbackFor | Assets/AgoraChat/AgoraChat/Managers/ContactManager.cs:341-362 | Each event selects the delegate method of its own case (`Event()` maps each callback back to its event). Every callback carries the `userId` read once. Only the invitation callback also carries the `msg` reason. |
| ContactManagerModel.ContactDispatchSpec | Assets/AgoraChat/AgoraChat/Managers/ContactManager.cs:337-364 | Nothing is delivered exactly when there are no delegates or the method is unknown. Otherwise every delegate is called in order with the delegate method of the selected event, carrying the payload's `userId`, and `msg` for invitations. |
| ContactManagerModel.ContactManager.AddContactManagerDelegate | Assets/AgoraChat/AgoraChat/Managers/ContactManager.cs:312-318 | The list becomes the conditional append of the delegate, and duplicate-freedom is preserved. |
| ContactManagerModel.ContactManager.RemoveContactManagerDelegate | Assets/AgoraChat/AgoraChat/Managers/ContactManager.cs:326-330 | The delegate's first occurrence is removed, or nothing if it has none. On a duplicate-free list the delegate is gone afterwards. |
| ContactManagerModel.ContactManager.ClearDelegates | Assets/AgoraChat/AgoraChat/Managers/ContactManager.cs:332-335 | The list becomes empty. |
| ContactManagerModel.ContactManager.NativeEventHandle | Assets/AgoraChat/AgoraChat/Managers/ContactManager.cs:337-364 | The calls made are exactly the specified contact dispatch. |
| PresenceManagerModel.PresenceDispatchSpec | Assets/AgoraChat/AgoraChat/Managers/PresenceManager.cs:135-153 | Only `onPresenceUpdated` reaches the delegates. It reaches every one of them in order, with the decoded presence list; any other method delivers nothing. |
| PresenceManagerModel.PresenceUpdateDeliversEncoded | Assets/AgoraChat/AgoraChat/Managers/PresenceManager.cs:140-153 | An update carrying encoded presences delivers exactly those presences, once to each delegate. |
| PresenceManagerModel.PresenceManager.AddPresenceManagerDelegate | Assets/AgoraChat/AgoraChat/Managers/PresenceManager.cs:112-118 | The list becomes the conditional append of the delegate, and duplicate-freedom is preserved. |
| PresenceManagerModel.PresenceManager.RemovePresenceManagerDelegate | Assets/AgoraChat/AgoraChat/Managers/PresenceManager.cs:125-128 | The delegate's first occurrence is removed, or nothing if it has none. On a duplicate-free list the delegate is gone afterwards. |
| PresenceManagerModel.PresenceManager.ClearDelegates | Assets/AgoraChat/AgoraChat/Managers/PresenceManager.cs:130-133 | The list becomes empty. |
| PresenceManagerModel.PresenceManager.NativeEventcallback | Assets/AgoraChat/AgoraChat/Managers/PresenceManager.cs:135-153 | The calls made are exactly the specified presence dispatch. |
| NativeResults.BooleanResult | Assets/AgoraChat/AgoraChat/Managers/GroupManager.cs:243 | `IsBoolean ? AsBool : false` is true exactly for a JSON true. |
| NativeResults.NumberResult | Assets/AgoraChat/AgoraChat/Managers/ChatManager.cs:343-351 | `IsNumber ? AsInt : -1`: a number is taken as it is, anything else gives -1. |
| NativeResults.StringResult | Assets/AgoraChat/AgoraChat/Managers/RoomManager.cs:212 | `IsString ? Value : null`: a string is taken as it is, anything else gives null. |
| NativeResults.ModelOf | Assets/AgoraChat/AgoraChat/Managers/ChatThreadManager.cs:345-348 | A model is decoded exactly from an object node; any other node gives null. |
| PagedResults.CollectItems | Assets/AgoraChat/AgoraChat/Models/CursorResult.cs:43-52 | The loop keeps the decoder's non-null results in array order, so there are at most as many as there are array items. |
| PagedResults.DecodedData | Assets/AgoraChat/AgoraChat/Models/CursorResult.cs:40-53 | `Data` is replaced only when `list` is an array; otherwise it keeps its previous value. |
| PagedResults.DecodedDataOfArray | Assets/AgoraChat/AgoraChat/Models/PageResult.cs:52-65 | For an array, `Data` is non-null and no longer than the array. Each element comes from some array item, and a decoder that never returns null keeps every item. |
| PagedResults.CursorRoundTrip | Assets/AgoraChat/AgoraChat/Models/CursorResult.cs:57-63 | The encoding writes only `cursor`, which reads back as the cursor. Decoding it leaves `Data` as it was. |
| PagedResults.CursorResult.constructor | Assets/AgoraChat/AgoraChat/Models/CursorResult.cs:26-35 | The constructors store only the item callback; the cursor and `Data` start null. |
| PagedResults.CursorResult.FromJsonObject | Assets/AgoraChat/AgoraChat/Models/CursorResult.cs:37-55 | `Cursor` is set from `cursor`. `Data` is the filtered decode of `list`, or unchanged when `list` is not an array. The callback is cleared afterwards. |
| PagedResults.PageResult.constructor | Assets/AgoraChat/AgoraChat/Models/PageResult.cs:38-47 | The constructors store only the item callback; the count is 0 and `Data` is null. |
| PagedResults.PageResult.FromJsonObject | Assets/AgoraChat/AgoraChat/Models/PageResult.cs:49-67 | `PageCount` is set from `count`. `Data` is the filtered decode of `list`, or unchanged. The callback is cleared. |
| PagedResults.PageResult.ToJsonObject | Assets/AgoraChat/AgoraChat/Models/PageResult.cs:69-72 | The encoding is always null. |
| MessageModel.AttributeRoundTrip | Assets/AgoraChat/AgoraChat/Models/Message.cs:613 | An attribute value reads back from its JSON form. |
| MessageModel.AttributesNode | Assets/AgoraChat/AgoraChat/Models/Message.cs:626-662 | `attr` is written exactly when the attribute map is non-null. |
| MessageModel.AttributesRoundTrip | Assets/AgoraChat/AgoraChat/Models/Message.cs:613 | The attribute map reads back from its encoding, with a null map read back as empty. |
| MessageModel.GetAttributeValueType | Assets/AgoraChat/AgoraChat/Models/Message.cs:495-500 | A null value has type NULLOBJ; any other value has its own type. |
| MessageModel.SetAttribute | Assets/AgoraChat/AgoraChat/Models/Message.cs:510-521 | A null map, or a value that builds to null, is left alone. Otherwise `key` is set to the value, overwriting any old one. |
| MessageModel.GetAttributeValue | Assets/AgoraChat/AgoraChat/Models/Message.cs:533-553 | `found` holds exactly when the value and its payload are both non-null. |
| MessageModel.GetAttributeValueAt | Assets/AgoraChat/AgoraChat/Models/Message.cs:567-583 | A null map or a missing key gives "not found". |
| MessageModel.SetThenGetAttribute | Assets/AgoraChat/AgoraChat/Models/Message.cs:510-583 | After setting `key`, reading `key` gives the new payload and the new type. Every other key reads as before. |
| MessageModel.NewMessage | Assets/AgoraChat/AgoraChat/Models/Message.cs:249-252 | A new message holds the given body, the clock-derived id and local time, Normal priority, status CREATE, direction SEND, and no attributes or receivers. |
| MessageModel.ReceiveMessage | Assets/AgoraChat/AgoraChat/Models/Message.cs:257-274 | A received message has direction RECEIVE, no read ack and no body. `From` is the current user, or `""` when there is none. |
| MessageModel.SendMessage | Assets/AgoraChat/AgoraChat/Models/Message.cs:292-317 | `To` and `ConversationId` are both the recipient, with `""` for null. `From` is the current user or `""`. The message is read, and direction and `HasReadAck` are as given. |
| MessageModel.RequestBody | Assets/AgoraChat/AgoraChat/Models/Message.cs:329-488 | Each of the nine `Create…SendMessage` factories builds a body whose type tag is its own kind: TXT, FILE, IMAGE, VIDEO, VOICE, LOCATION, CMD, CUSTOM or COMBINE. |
| MessageModel.TypedSendMessage | Assets/AgoraChat/AgoraChat/Models/Message.cs:329-488 | The typed factories send with direction SEND and a read ack, to the given user and with that body. |
| MessageModel.GroupAckCount | Assets/AgoraChat/AgoraChat/Models/Message.cs:147-160 | A message that needs no group ack has count 0; otherwise the count is the native one. |
| MessageModel.DecodeOnto | Assets/AgoraChat/AgoraChat/Models/Message.cs:594-624 | Decoding never touches `Priority` or `ReceiverList`. It always fills `From`, `To`, `ConversationId`, `MsgId` and the attribute map. |
| MessageModel.FromJson | Assets/AgoraChat/AgoraChat/Models/Message.cs:594-599 | A null node, or one that is not an object, leaves the message unchanged. |
| MessageModel.MessageFromObjectIgnoresClock | Assets/AgoraChat/AgoraChat/Models/Message.cs:586-624 | A message decoded into a fresh object does not depend on the clock defaults. |
| MessageModel.MessageRoundTrip | Assets/AgoraChat/AgoraChat/Models/Message.cs:594-662 | Decoding the encoding restores every shared key. It does not restore `Priority` or `ReceiverList`, and null strings come back as `""`. |
| MessageModel.MessageOfNode | Assets/AgoraChat/AgoraChat/Models/Message.cs:594-599 | A message is decoded exactly from an object node. |
| MessageModel.MessageFromObjectRoundTrip | Assets/AgoraChat/AgoraChat/Models/Message.cs:594-662 | The same round trip, for a message decoded into a fresh object. |
| MessageModel.PriorityIsWrittenButNotRead | Assets/AgoraChat/AgoraChat/Models/Message.cs:637 | `priority` is written, but a round trip does not restore it. |
| MessageModel.ReceiverListWritten | Assets/AgoraChat/AgoraChat/Models/Message.cs:626-662 | `receiverList` is written exactly when the list is non-null and non-empty. |
| MessageModel.Message.constructor | Assets/AgoraChat/AgoraChat/Models/Message.cs:249-252 | A new message is the default message with the given body. |
| MessageModel.Message.SetRoomMessagePriority | Assets/AgoraChat/AgoraChat/Models/Message.cs:54-57 | Only the priority changes. |
| MessageModel.Message.FromJsonObject | Assets/AgoraChat/AgoraChat/Models/Message.cs:594-624 | The fields become the decode of the node onto the previous state. |
| MessageModel.Message.ToJsonObject | Assets/AgoraChat/AgoraChat/Models/Message.cs:626-662 | `receiverList` is written only when there is a receiver list. |
| MessageModel.CreateReceiveMessage | Assets/AgoraChat/AgoraChat/Models/Message.cs:257-274 | Returns a fresh message with the received-message fields. |
| MessageModel.CreateSendMessage | Assets/AgoraChat/AgoraChat/Models/Message.cs:292-317 | Returns a fresh message with the send-message fields. |
| MessageBodyModel.NewTextBody | Assets/AgoraChat/AgoraChat/Models/MessageBody.cs:96-100 | A text body has tag TXT and the given text. Its target languages and translations are null. |
| MessageBodyModel.NewLocationBody | Assets/AgoraChat/AgoraChat/Models/MessageBody.cs:164-171 | A location body has tag LOCATION and the given address and building. |
| MessageBodyModel.NewFileInfo | Assets/AgoraChat/AgoraChat/Models/MessageBody.cs:247-263 | A new file part has download status PENDING and no remote path or secret. |
| MessageBodyModel.NewFileBody | Assets/AgoraChat/AgoraChat/Models/MessageBody.cs:257-263 | A file body has tag FILE and the given file part. |
| MessageBodyModel.NewImageBody | Assets/AgoraChat/AgoraChat/Models/MessageBody.cs:365-371 | An image body has tag IMAGE, not FILE, although it is file-backed. It keeps the given file part and original flag, and its thumbnail is PENDING. |
| MessageBodyModel.NewVoiceBody | Assets/AgoraChat/AgoraChat/Models/MessageBody.cs:445-449 | A voice body has tag VOICE, the file part and the duration. |
| MessageBodyModel.NewVideoBody | Assets/AgoraChat/AgoraChat/Models/MessageBody.cs:535-542 | A video body has tag VIDEO, the file part, the duration and the thumbnail path, and its thumbnail is PENDING. |
| MessageBodyModel.NewCmdBody | Assets/AgoraChat/AgoraChat/Models/MessageBody.cs:617-622 | A command body has tag CMD, the action and the online-only flag. |
| MessageBodyModel.NewCustomBody | Assets/AgoraChat/AgoraChat/Models/MessageBody.cs:685-690 | A custom body has tag CUSTOM, the event and the parameters, which are null unless given. |
| MessageBodyModel.NewCombineBody | Assets/AgoraChat/AgoraChat/Models/MessageBody.cs:767-775 | A combined body has tag COMBINE, the title, summary, compatible text and message list (possibly null), and no paths or secret. |
| MessageBodyModel.EncodeBody | Assets/AgoraChat/AgoraChat/Models/MessageBody.cs:21-30 | The envelope has exactly the keys `type`, which holds the tag's code, and `body`, which holds an object. |
| MessageBodyModel.DecodeFields | Assets/AgoraChat/AgoraChat/Models/MessageBody.cs:114-822 | Decoding a variant's fields yields a body of that variant's tag. |
| MessageBodyModel.CreateBody | Assets/AgoraChat/AgoraChat/Models/Message.cs:615 | An envelope decodes to a body whose tag is the code in `type`, and it decodes whenever the node is an object with a code from 0 to 8. |
| MessageBodyModel.DecodeEncodeFile | Assets/AgoraChat/AgoraChat/Models/MessageBody.cs:283-306 | The file part round-trips, with null strings written as `""`. |
| MessageBodyModel.BodyRoundTrip | Assets/AgoraChat/AgoraChat/Models/MessageBody.cs:21-822 | Every body round-trips through its envelope. Null strings are normalised as each variant's encoder writes them, and a null list or dictionary comes back empty. |
| MessageBodyModel.FieldsRoundTrip | Assets/AgoraChat/AgoraChat/Models/MessageBody.cs:114-822 | Every variant's fields round-trip. |
| MessageBodyModel.TextRoundTrip | Assets/AgoraChat/AgoraChat/Models/MessageBody.cs:114-131 | The text, the target languages and the translations round-trip. A null list or dictionary is not written and comes back empty. |
| MessageBodyModel.LocationRoundTrip | Assets/AgoraChat/AgoraChat/Models/MessageBody.cs:191-210 | The address and building round-trip, with null read back as `""`. |
| MessageBodyModel.VoiceRoundTrip | Assets/AgoraChat/AgoraChat/Models/MessageBody.cs:469-483 | The file part and the duration round-trip. |
| MessageBodyModel.CmdRoundTrip | Assets/AgoraChat/AgoraChat/Models/MessageBody.cs:642-657 | `action` round-trips, with null read back as `""`, and so does `deliverOnlineOnly`. |
| MessageBodyModel.CustomRoundTrip | Assets/AgoraChat/AgoraChat/Models/MessageBody.cs:710-725 | The event round-trips, with null read back as `""`. The parameters round-trip, with null read back as empty. |
| MessageBodyModel.CombineRoundTrip | Assets/AgoraChat/AgoraChat/Models/MessageBody.cs:795-822 | Title, summary, compatible text, remote path, secret and local path round-trip under the same keys. The message list round-trips, with null read back as empty. |
| MessageBodyModel.ImageRoundTrip | Assets/AgoraChat/AgoraChat/Models/MessageBody.cs:391-421 | The file part and the image fields round-trip. |
| MessageBodyModel.ImageFileRoundTrip | Assets/AgoraChat/AgoraChat/Models/MessageBody.cs:409-421 | The image decode starts from the file decode, which reads the file part back. |
| MessageBodyModel.VideoRoundTrip | Assets/AgoraChat/AgoraChat/Models/MessageBody.cs:562-588 | The file part and the video fields round-trip. |
| MessageBodyModel.VideoFileRoundTrip | Assets/AgoraChat/AgoraChat/Models/MessageBody.cs:578-588 | The video decode starts from the file decode, which reads the file part back. |
| MessageBodyModel.AfterRoundTripKeepsComplete | Assets/AgoraChat/AgoraChat/Models/MessageBody.cs:21-822 | A body without null strings, lists or dictionaries round-trips exactly. |
| MessageBodyModel.DecodeOperation | Assets/AgoraChat/AgoraChat/Models/MessageBody.cs:32-37 | `FromJsonObjectToIMessageBody` takes the edit time and count from numeric `operationTime` and `operationCount`. `OperatorId` is null exactly when `operatorId` is absent or null. |
| MessageBodyModel.OperationNotWritten | Assets/AgoraChat/AgoraChat/Models/MessageBody.cs:21-57 | `ToJsonObject` never writes the three edit keys, so a body read back from its own JSON has the edit record of an unmodified body: time 0, no operator, count 0. |
| ConversationModel.DecodeConversation | Assets/AgoraChat/AgoraChat/Models/Conversation.cs:381-392 | The cached `Ext` is always set. `Id` is null exactly when `convId` is absent or null. |
| ConversationModel.ConversationRoundTrip | Assets/AgoraChat/AgoraChat/Models/Conversation.cs:381-401 | Only `convId`, `type` and `isThread` are written, so a round trip keeps those and resets the pin state and `Ext`. |
| ConversationModel.PinTimeNotTiedToPinState | Assets/AgoraChat/AgoraChat/Models/Conversation.cs:381-392 | Whatever the documentation at lines 42-46 says, the pin time is read independently of the pin state. Any object with `isPinned: false` and a pin time decodes to an unpinned conversation with that time. Changing `pinnedTime` never changes `IsPinned`. |
| ConversationModel.ExtSetterAsWrittenLosesValue | Assets/AgoraChat/AgoraChat/Models/Conversation.cs:77-87 | The setter as written leaves the cached value unchanged even when the native call accepts the new one. |
| ConversationModel.ExtGetAfterSet | Assets/AgoraChat/AgoraChat/Models/Conversation.cs:77-87 | The corrected setter caches the value exactly when the native call accepts it, and setting twice is the same as once. |
| ConversationModel.LoadMessagesStartId | Assets/AgoraChat/AgoraChat/Models/Conversation.cs:273-276 | A null start id is passed as `""`; any other is passed unchanged. |
| ConversationModel.Conversation.constructor | Assets/AgoraChat/AgoraChat/Models/Conversation.cs:371 | A new conversation has the declared defaults. |
| ConversationModel.Conversation.FromJsonObject | Assets/AgoraChat/AgoraChat/Models/Conversation.cs:381-392 | The fields become the decoded conversation. |
| ConversationModel.Conversation.SetExtAsWritten | Assets/AgoraChat/AgoraChat/Models/Conversation.cs:77-87 | The cached `Ext` never changes. |
| ConversationModel.Conversation.SetExt | Assets/AgoraChat/AgoraChat/Models/Conversation.cs:77-87 | The cached `Ext` becomes the new value when the native call accepts it. |
| RoomModel.RoomDefaults | Assets/AgoraChat/AgoraChat/Models/Room.cs:146-171 | A missing `createTimestamp` decodes to 0, a missing `isInAllowList` to false, and a missing `muteUntilTimeStamp` to -1. A present number is taken as it is. |
| RoomModel.RoomRoundTrip | Assets/AgoraChat/AgoraChat/Models/Room.cs:130-194 | The encoding writes every key the decoder reads, so every room round-trips exactly. |
| RoomModel.Room.constructor | Assets/AgoraChat/AgoraChat/Models/Room.cs:122 | A new room has the declared defaults. |
| RoomModel.Room.FromJsonObject | Assets/AgoraChat/AgoraChat/Models/Room.cs:130-172 | The fields become the decoded room. |
| GroupModel.DecodeGroup | Assets/AgoraChat/AgoraChat/Models/Group.cs:174-195 | Decoding never touches `NoticeEnabled` or `Options`. |
| GroupModel.GroupKeys | Assets/AgoraChat/AgoraChat/Models/Group.cs:197-216 | The encoding writes only the keys the encoder lists. |
| GroupModel.GroupOmits | Assets/AgoraChat/AgoraChat/Models/Group.cs:197-216 | `maxUserCount`, `isMemberOnly`, `isMemberAllowToInvite`, `ext`, `isDisabled` and `options` are never written. |
| GroupModel.GroupRoundTrip | Assets/AgoraChat/AgoraChat/Models/Group.cs:174-216 | A round trip restores every key both directions share. The five unwritten fields come back at their absent-key values, and `NoticeEnabled` and `Options` stay as they were. |
| GroupModel.GroupRoundTripExact | Assets/AgoraChat/AgoraChat/Models/Group.cs:174-216 | A group whose unwritten fields already hold those values round-trips exactly. |
| GroupModel.NamedPermissionRoundTrip | Assets/AgoraChat/AgoraChat/Models/Group.cs:193 | A named permission type survives the round trip of its integer cast. |
| GroupModel.Group.constructor | Assets/AgoraChat/AgoraChat/Models/Group.cs:166 | A new group has the declared defaults. |
| GroupModel.Group.FromJsonObject | Assets/AgoraChat/AgoraChat/Models/Group.cs:174-195 | The fields become the decode onto the previous state. |
| UserInfoModel.Overwrite | Assets/AgoraChat/AgoraChat/Models/UserInfo.cs:66-112 | A JSON null keeps the previous value. Anything else, an absent key included, overwrites the field with the node's string value. |
| UserInfoModel.Filled | Assets/AgoraChat/AgoraChat/Models/UserInfo.cs:114-128 | A string written and read back is non-null, and it is unchanged when it was non-null. |
| UserInfoModel.UserInfoRoundTrip | Assets/AgoraChat/AgoraChat/Models/UserInfo.cs:78-125 | All nine keys are written and read under matching names (`mail`, `phone`, `sign`…). A round trip restores every field, with null strings as `""`. |
| UserInfoModel.UserInfoRoundTripExact | Assets/AgoraChat/AgoraChat/Models/UserInfo.cs:66-128 | A record without null strings round-trips exactly. |
| UserInfoModel.NullKeepsAbsentResets | Assets/AgoraChat/AgoraChat/Models/UserInfo.cs:18-112 | A JSON null keeps the prior field. Decoding the empty object gives the fresh record, with every string `""` and gender 0. |
| UserInfoModel.UserInfo.constructor | Assets/AgoraChat/AgoraChat/Models/UserInfo.cs:18-58 | A new record has every string `""` and gender 0. |
| UserInfoModel.UserInfo.FromJsonObject | Assets/AgoraChat/AgoraChat/Models/UserInfo.cs:66-112 | The fields become the null-preserving decode onto the previous state. |
| OptionsModel.NewOptions | Assets/AgoraChat/AgoraChat/Models/Options.cs:19-248 | The constructor sets the app key and leaves every other field at its declared default. |
| OptionsModel.DataPath | Assets/AgoraChat/AgoraChat/Models/Options.cs:316-325 | A non-empty `SDKDataPath` is used as it is. |
| OptionsModel.OptionsConditionalKeys | Assets/AgoraChat/AgoraChat/Models/Options.cs:316-345 | `imPort` is written exactly when it is non-zero. `restServer`, `imServer` and `dnsUrl` read back as given, and are omitted when null. `sdkDataPath` is `SDKDataPath` when that is non-empty, and the platform path otherwise. |
| OptionsModel.OptionsAreaCode | Assets/AgoraChat/AgoraChat/Models/Options.cs:304 | `areaCode` is the enum's integer, so GLOB is written as -1. |
| OptionsModel.DefaultOptionsEncoding | Assets/AgoraChat/AgoraChat/Models/Options.cs:245-345 | Default options write no `imPort` and an empty `restServer`, and take the platform data path. |
| OptionsModel.DecodeOptions | Assets/AgoraChat/AgoraChat/Models/Options.cs:285 | Decoding changes nothing. |
| GroupOptionsModel.DecodeGroupOptions | Assets/AgoraChat/AgoraChat/Models/GroupOptions.cs:75-84 | `Ext` is replaced only when `ext` is not a JSON null. |
| GroupOptionsModel.GroupOptionsKeys | Assets/AgoraChat/AgoraChat/Models/GroupOptions.cs:62-73 | `style`, `maxCount` and `inviteNeedConfirm` are always written; `ext` is written exactly when it is non-null. |
| GroupOptionsModel.GroupOptionsRoundTrip | Assets/AgoraChat/AgoraChat/Models/GroupOptions.cs:62-84 | Options round-trip exactly, with the style as its integer cast. |
| GroupOptionsModel.NamedStyleRoundTrip | Assets/AgoraChat/AgoraChat/Models/GroupOptions.cs:62-79 | A named style survives the round trip of its integer cast. |
| GroupOptionsModel.GroupOptions.constructor | Assets/AgoraChat/AgoraChat/Models/GroupOptions.cs:45-51 | The defaults are MaxCount 200, InviteNeedConfirm false and Ext null. |
| GroupOptionsModel.GroupOptions.FromJsonObject | Assets/AgoraChat/AgoraChat/Models/GroupOptions.cs:75-84 | The fields become the decode onto the previous state. |
| FetchServerMessagesOptionModel.TypeCodes | Assets/AgoraChat/AgoraChat/Models/FetchServerMessagesOption.cs:72-83 | Null types give the empty list; otherwise there is one code per type. |
| FetchServerMessagesOptionModel.TypeCodesDecode | Assets/AgoraChat/AgoraChat/Models/FetchServerMessagesOption.cs:72-83 | The codes decode back to the types, in the same order. |
| FetchServerMessagesOptionModel.FetchServerMessagesOptionEncoding | Assets/AgoraChat/AgoraChat/Models/FetchServerMessagesOption.cs:85-95 | The encoding writes only the six keys. `types` holds exactly the code list, and `direction` is 0 for UP and 1 otherwise. |
| FetchServerMessagesOptionModel.FetchServerMessagesOption.constructor | Assets/AgoraChat/AgoraChat/Models/FetchServerMessagesOption.cs:25-62 | The defaults are direction UP and start and end time -1. |
| FetchServerMessagesOptionModel.FetchServerMessagesOption.FromJsonObject | Assets/AgoraChat/AgoraChat/Models/FetchServerMessagesOption.cs:70 | Decoding changes nothing. |
| FetchServerMessagesOptionModel.FetchServerMessagesOption.GetListFromMsgTypes | Assets/AgoraChat/AgoraChat/Models/FetchServerMessagesOption.cs:72-83 | The loop returns exactly the specified code list. |
| ChatThreadModel.ChatThreadRoundTrip | Assets/AgoraChat/AgoraChat/Models/ChatThread.cs:92-125 | A thread round-trips: the scalars exactly, and the last message through its own round trip. |
| ChatThreadModel.EncodedScalars | Assets/AgoraChat/AgoraChat/Models/ChatThread.cs:94-120 | `threadId`, `msgId`, `parentId`, `owner`, `name`, `msgCount`, `memberCount` and `createAt` read back as the fields they came from. |
| ChatThreadModel.LastMessageWritten | Assets/AgoraChat/AgoraChat/Models/ChatThread.cs:122 | `lastMsg` holds the message's encoding, and is omitted when the message is null. |
| ChatThreadModel.LastMessageRoundTrip | Assets/AgoraChat/AgoraChat/Models/ChatThread.cs:105-122 | The last message comes back through the message round trip. |
| ChatThreadModel.LastMessageClearedOnlyByNonObjects | Assets/AgoraChat/AgoraChat/Models/ChatThread.cs:105-108 | A missing or null `lastMsg` keeps the previous last message. A present non-object clears it. |
| ChatThreadModel.ChatThread.constructor | Assets/AgoraChat/AgoraChat/Models/ChatThread.cs:84 | A new thread has the declared defaults. |
| ChatThreadModel.ChatThread.FromJsonObject | Assets/AgoraChat/AgoraChat/Models/ChatThread.cs:92-109 | The fields become the decode onto the previous state. |
| ChatThreadEventModel.ThreadOf | Assets/AgoraChat/AgoraChat/Models/ChatThreadEvent.cs:45 | A missing `thread` decodes to an empty thread and a JSON null to null. |
| ChatThreadEventModel.ChatThreadEventRoundTrip | Assets/AgoraChat/AgoraChat/Models/ChatThreadEvent.cs:41-56 | `from`, `type` and `thread` round-trip, the thread through its own round trip. Encoding requires a non-null thread. |
| ChatThreadEventModel.ChatThreadEvent.constructor | Assets/AgoraChat/AgoraChat/Models/ChatThreadEvent.cs:33 | A new event has the declared defaults. |
| ChatThreadEventModel.ChatThreadEvent.FromJsonObject | Assets/AgoraChat/AgoraChat/Models/ChatThreadEvent.cs:41-46 | The fields become the decoded event. |
| RecallMessageInfoModel.DecodeRecallMessageInfo | Assets/AgoraChat/AgoraChat/Models/RecallMessageInfo.cs:52-63 | The recalled message is replaced only when `recallMessage` is an object. |
| RecallMessageInfoModel.RecallStringsRoundTrip | Assets/AgoraChat/AgoraChat/Models/RecallMessageInfo.cs:54-71 | `recallBy`, `recallMessageId`, `ext` and `conversationId` round-trip. |
| RecallMessageInfoModel.RecalledMessageWritten | Assets/AgoraChat/AgoraChat/Models/RecallMessageInfo.cs:72-75 | `recallMessage` holds the message's encoding when there is one, and is omitted otherwise. |
| RecallMessageInfoModel.RecalledMessageRoundTrip | Assets/AgoraChat/AgoraChat/Models/RecallMessageInfo.cs:59-75 | The recalled message comes back through the message round trip, or stays as it was when none was written. |
| RecallMessageInfoModel.RecallMessageInfo.constructor | Assets/AgoraChat/AgoraChat/Models/RecallMessageInfo.cs:44 | A new record is all null. |
| RecallMessageInfoModel.RecallMessageInfo.FromJsonObject | Assets/AgoraChat/AgoraChat/Models/RecallMessageInfo.cs:52-63 | The fields become the decode onto the previous state. |
| MessageReactionChangeModel.MessageReactionOperationRoundTrip | Assets/AgoraChat/AgoraChat/Models/MessageReactionChange.cs:39-53 | `userId`, `reaction` and `operate` round-trip under the same keys. |
| MessageReactionChangeModel.MessageReactionChangeRoundTrip | Assets/AgoraChat/AgoraChat/Models/MessageReactionChange.cs:91-107 | A change record round-trips, with `convId`, `msgId`, the reactions and the operations. |
| MessageReactionChangeModel.ReactionListRoundTrip | Assets/AgoraChat/AgoraChat/Models/MessageReactionChange.cs:95-105 | The reactions list round-trips element by element, in order. |
| MessageReactionChangeModel.OperationListRoundTrip | Assets/AgoraChat/AgoraChat/Models/MessageReactionChange.cs:95-105 | The operations list round-trips element by element, in order. |
| MessageReactionChangeModel.MessageReactionOperation.constructor | Assets/AgoraChat/AgoraChat/Models/MessageReactionChange.cs:31 | A new operation has the declared defaults. |
| MessageReactionChangeModel.MessageReactionOperation.FromJsonObject | Assets/AgoraChat/AgoraChat/Models/MessageReactionChange.cs:39-44 | The fields become the decoded operation. |
| MessageReactionChangeModel.MessageReactionChange.constructor | Assets/AgoraChat/AgoraChat/Models/MessageReactionChange.cs:83 | A new change record has the declared defaults. |
| MessageReactionChangeModel.MessageReactionChange.FromJsonObject | Assets/AgoraChat/AgoraChat/Models/MessageReactionChange.cs:91-97 | The fields become the decoded change. |
| MessageReactionModel.MessageReactionRoundTrip | Assets/AgoraChat/AgoraChat/Models/MessageReaction.cs:56-72 | A reaction round-trips. `count`, `userList` and `isAddedBySelf` are always written, `reaction` exactly when it is non-null, and nothing else. |
| MessageReactionModel.MessageReaction.constructor | Assets/AgoraChat/AgoraChat/Models/MessageReaction.cs:48 | A new reaction has the declared defaults. |
| MessageReactionModel.MessageReaction.FromJsonObject | Assets/AgoraChat/AgoraChat/Models/MessageReaction.cs:56-62 | The fields become the decoded reaction. |
| GroupReadAckModel.GroupReadAckRoundTrip | Assets/AgoraChat/AgoraChat/Models/GroupReadAck.cs:56-76 | A read ack round-trips, and the encoding writes exactly the six keys the decoder reads, omitting null strings. |
| GroupReadAckModel.GroupReadAck.constructor | Assets/AgoraChat/AgoraChat/Models/GroupReadAck.cs:48 | A new ack has the declared defaults. |
| GroupReadAckModel.GroupReadAck.FromJsonObject | Assets/AgoraChat/AgoraChat/Models/GroupReadAck.cs:56-64 | The fields become the decoded ack. |
| PresenceModel.PresenceRoundTrip | Assets/AgoraChat/AgoraChat/Models/Presence.cs:65-83 | A presence round-trips, including its device statuses. |
| PresenceModel.StatusListRoundTrip | Assets/AgoraChat/AgoraChat/Models/Presence.cs:71-81 | `detail` round-trips element by element, in order. |
| PresenceModel.PresenceKeys | Assets/AgoraChat/AgoraChat/Models/Presence.cs:74-83 | The encoding writes the keys the decoder reads, and omits null strings. |
| PresenceModel.Presence.constructor | Assets/AgoraChat/AgoraChat/Models/Presence.cs:57 | A new presence has the declared defaults. |
| PresenceModel.Presence.FromJsonObject | Assets/AgoraChat/AgoraChat/Models/Presence.cs:65-72 | The fields become the decoded presence. |
| PresenceDeviceStatusModel.PresenceDeviceStatusRoundTrip | Assets/AgoraChat/AgoraChat/Models/PresenceDeviceStatus.cs:34-46 | A status round-trips. `status` is always written and `device` exactly when it is non-null. |
| PresenceDeviceStatusModel.PresenceDeviceStatus.constructor | Assets/AgoraChat/AgoraChat/Models/PresenceDeviceStatus.cs:26 | A new status has the declared defaults. |
| PresenceDeviceStatusModel.PresenceDeviceStatus.FromJsonObject | Assets/AgoraChat/AgoraChat/Models/PresenceDeviceStatus.cs:34-38 | The fields become the decoded status. |
| GroupSharedFileModel.GroupSharedFileRoundTrip | Assets/AgoraChat/AgoraChat/Models/GroupSharedFile.cs:51-69 | A shared file round-trips: `name` and `owner` map to FileName and FileOwner, and the encoding writes exactly the five keys, less null strings. |
| GroupSharedFileModel.GroupSharedFile.constructor | Assets/AgoraChat/AgoraChat/Models/GroupSharedFile.cs:43 | A new file record has the declared defaults. |
| GroupSharedFileModel.GroupSharedFile.FromJsonObject | Assets/AgoraChat/AgoraChat/Models/GroupSharedFile.cs:51-58 | The fields become the decoded file record. |
| GroupInfoModel.GroupInfoRoundTrip | Assets/AgoraChat/AgoraChat/Models/GroupInfo.cs:36-48 | A group info round-trips, and the encoding writes exactly `groupId` and `name`, less nulls. |
| GroupInfoModel.GroupInfo.constructor | Assets/AgoraChat/AgoraChat/Models/GroupInfo.cs:28 | A new record is all null. |
| GroupInfoModel.GroupInfo.FromJsonObject | Assets/AgoraChat/AgoraChat/Models/GroupInfo.cs:36-40 | The fields become the decoded record. |
| ContactModel.ContactRoundTrip | Assets/AgoraChat/AgoraChat/Models/Contact.cs:36-48 | A contact round-trips, and the encoding writes exactly `userId` and `remark`, less nulls. |
| ContactModel.Contact.constructor | Assets/AgoraChat/AgoraChat/Models/Contact.cs:28 | A new contact is all null. |
| ContactModel.Contact.FromJsonObject | Assets/AgoraChat/AgoraChat/Models/Contact.cs:36-40 | The fields become the decoded contact. |
| DeviceInfoModel.DeviceInfoRoundTrip | Assets/AgoraChat/AgoraChat/Models/DeviceInfo.cs:42-56 | A device info round-trips, and the encoding writes exactly `resource`, `deviceUUID` and `deviceName`, less nulls. |
| DeviceInfoModel.DeviceInfo.constructor | Assets/AgoraChat/AgoraChat/Models/DeviceInfo.cs:34 | A new record is all null. |
| DeviceInfoModel.DeviceInfo.FromJsonObject | Assets/AgoraChat/AgoraChat/Models/DeviceInfo.cs:42-47 | The fields become the decoded record. |
| SupportLanguageModel.SupportLanguageRoundTrip | Assets/AgoraChat/AgoraChat/Models/SupportLanguage.cs:41-56 | A language round-trips, and the encoding writes exactly `code`, `name` and `nativeName`, less nulls. |
| SupportLanguageModel.SupportLanguage.constructor | Assets/AgoraChat/AgoraChat/Models/SupportLanguage.cs:33 | A new record is all null. |
| SupportLanguageModel.SupportLanguage.FromJsonObject | Assets/AgoraChat/AgoraChat/Models/SupportLanguage.cs:41-46 | The fields become the decoded record. |
| PinnedInfoModel.PinnedInfoRoundTrip | Assets/AgoraChat/AgoraChat/Models/PinnedInfo.cs:38-52 | A pin record round-trips. The encoding writes `pinnedAt`, and `pinnedBy` when it is non-null, but never `isPinned`. |
| PinnedInfoModel.PinnedInfoIgnoresIsPinned | Assets/AgoraChat/AgoraChat/Models/PinnedInfo.cs:40 | Decoding does not read `isPinned`. |
| PinnedInfoModel.NoPinningInformation | Assets/AgoraChat/AgoraChat/Models/PinnedInfo.cs:14-27 | An object without pin data decodes to no pinner and time 0, the documented "no pinning information". |
| PinnedInfoModel.PinnedInfo.constructor | Assets/AgoraChat/AgoraChat/Models/PinnedInfo.cs:30 | A new record has no pinner and time 0. |
| PinnedInfoModel.PinnedInfo.FromJsonObject | Assets/AgoraChat/AgoraChat/Models/PinnedInfo.cs:38-43 | The fields become the decoded record. |
| Enumerations.AreaCodesAreBits | Assets/AgoraChat/AgoraChat/Enumerations.cs:8-23 | Every area but GLOB is a single bit, no two areas share a code, and GLOB is -1. |
| Enumerations.ToPermissionType | Assets/AgoraChat/AgoraChat/Enumerations.cs:99-122 | Member, Admin and Owner read back from 0, 1 and 2. Unknown, Default and None are one member with code -1, and it is also what any other code gives. |
| Enumerations.PermissionTypeCodeRoundTrip | Assets/AgoraChat/AgoraChat/Enumerations.cs:155-178 | Every permission type reads back from its code. |
| Enumerations.ToChatThreadOperation | Assets/AgoraChat/AgoraChat/Enumerations.cs:71-93 | The codes 0 to 4 read back as their operations; anything else gives UnKnown. |
| Enumerations.ChatThreadOperationCodeRoundTrip | Assets/AgoraChat/AgoraChat/Enumerations.cs:71-93 | Every thread operation reads back from its code. |
| Enumerations.ToGroupStyle | Assets/AgoraChat/AgoraChat/Enumerations.cs:127-150 | The codes 0 to 3 read back as their styles; anything else gives the code-0 style. |
| Enumerations.GroupStyleCodeRoundTrip | Assets/AgoraChat/AgoraChat/Enumerations.cs:127-150 | Every group style reads back from its code. |
| Enumerations.ToConversationType | Assets/AgoraChat/AgoraChat/Enumerations.cs:183-199 | The codes 0 to 2 read back as their types; anything else gives Chat. |
| Enumerations.ConversationTypeCodeRoundTrip | Assets/AgoraChat/AgoraChat/Enumerations.cs:183-199 | Every conversation type reads back from its code. |
| Enumerations.ToMessageBodyType | Assets/AgoraChat/AgoraChat/Enumerations.cs:204-250 | A body type is read exactly from the codes 0 to 8, TXT through COMBINE in declaration order. |
| Enumerations.MessageBodyTypeCodeRoundTrip | Assets/AgoraChat/AgoraChat/Enumerations.cs:204-250 | Every body type reads back from its code. |
| Enumerations.ToMessageStatus | Assets/AgoraChat/AgoraChat/Enumerations.cs:313-334 | CREATE, PROGRESS, SUCCESS and FAIL are 0 to 3; any other code gives CREATE. |
| Enumerations.MessageStatusCodeRoundTrip | Assets/AgoraChat/AgoraChat/Enumerations.cs:313-334 | Every status reads back from its code. |
| Enumerations.ToMessageType | Assets/AgoraChat/AgoraChat/Enumerations.cs:339-355 | The codes 0 to 2 read back as their chat types; anything else gives Chat. |
| Enumerations.MessageTypeCodeRoundTrip | Assets/AgoraChat/AgoraChat/Enumerations.cs:339-355 | Every chat type reads back from its code. |
| Enumerations.ToMessageDirection | Assets/AgoraChat/AgoraChat/Enumerations.cs:360-371 | 1 reads back as RECEIVE; anything else gives SEND. |
| Enumerations.MessageDirectionCodeRoundTrip | Assets/AgoraChat/AgoraChat/Enumerations.cs:360-371 | Both directions read back from their codes. |
| Enumerations.ToAttributeValueType | Assets/AgoraChat/AgoraChat/Enumerations.cs:376-420 | The codes 0 to 8 read back as their attribute types; anything else gives BOOL. |
| Enumerations.AttributeValueTypeCodeRoundTrip | Assets/AgoraChat/AgoraChat/Enumerations.cs:376-420 | Every attribute type reads back from its code. |
| Enumerations.ToDownLoadStatus | Assets/AgoraChat/AgoraChat/Enumerations.cs:427-448 | The codes 0 to 3 read back as their download statuses; anything else gives DOWNLOADING. |
| Enumerations.DownLoadStatusCodeRoundTrip | Assets/AgoraChat/AgoraChat/Enumerations.cs:427-448 | Every download status reads back from its code. |
| Enumerations.ToMessageReactionOperate | Assets/AgoraChat/AgoraChat/Enumerations.cs:670-681 | 1 reads back as Add; anything else gives Remove. |
| Enumerations.MessageReactionOperateCodeRoundTrip | Assets/AgoraChat/AgoraChat/Enumerations.cs:670-681 | Both reaction operations read back from their codes. |
| Enumerations.MultiDevicesOperationCodeRoundTrip | Assets/AgoraChat/AgoraChat/Enumerations.cs:451-668 | Every multi-device operation, UNKNOWN = -1 included, reads back from its code. |
| Enumerations.MultiDevicesCodesDistinct | Assets/AgoraChat/AgoraChat/Enumerations.cs:451-668 | No two multi-device operations share a code. |
| Enumerations.ToMultiDevicesOperation | Assets/AgoraChat/AgoraChat/Enumerations.cs:451-668 | A code that reads back as an operation is that operation's code. Every code no operation declares gives none, since the C# cast keeps the bare integer. |

`MarkType` (Assets/AgoraChat/AgoraChat/Enumerations.cs:686-708) is the integer range 0..19,
so `MarkTypeN` is N by construction.

## Left out

- The native boundary (`NativeCall`, `NativeGet`, `CWrapperNative`, `NativeListener`, the `callbackManager` registration). The native engine is foreign code. A native call's result is a parameter of the model: `nativeReturn` in `SendMessage`, and `result` in `SendCompleted`. The `Process` lambdas are pure functions of the node they receive.
- The `msgMapLocker` lock. It only provides thread safety, so the map operations are modelled sequentially.
- The clock and random defaults of `Message` (`MsgId`, `LocalTime`). They are parameters of the constructor and factories. One case is not covered: ChatManagerModel.ContentChangedMessage, when `msg` in an `onMessageContentChanged` payload is not an object. `new Message(...)` (ChatManager.cs line 1226) then keeps a fresh clock and random id and time. The model fixes them to `""` and 0, so that event dispatch stays a function of the payload alone.
- `Application.persistentDataPath`. It is a parameter of `Options.ToJsonObject`.
- Floating-point fields (latitude and longitude, image and video width and height). They are dropped. A `(long)…AsDouble` read is modelled as reading an integer.
- Getters that forward to `SDKClient.Instance` (`PinnedInfo`, `ChatThread`, `ReactionList`, `LastMessage`, `UnReadCount` and the `manager.*` delegations). They call unseen native code. `GroupAckCount` is modelled on its `IsNeedGroupAck` branch, with the native count as a parameter.
- `UserInfoManager`, `SDKClient`, the delegate interfaces (used only as callback names), `Callbacks`, `Error`, and the Unity and RTC glue. These are native wrappers, declarations or scene wiring.
- SimpleJSON, `AddWithoutNull`, the `List`/`Dictionary` helpers, `ModelHelper`, `AttributeValue`, the `ToInt`/`ToXxx` converters and `SDKMethod` are not part of this model.
  - The `Json` module states the behaviour assumed for them.
  - The `SDKMethod` constants are taken to be the strings of their own names.
  - An enum converter is taken to return the declared member for a declared code. For an unknown code it returns the `Unknown` member where there is one, and the code-0 member otherwise. Two converters are the exception and return `None` for an unknown code. `ToMessageBodyType` does so because a message whose type names no body class gets no body. `ToMultiDevicesOperation` does so because it stands for the C# cast, which keeps any integer.
  - The raw casts `(GroupPermissionType)` and `(GroupStyle)` keep any integer, so `Group.permissionType` and `GroupOptions.style` are modelled as `int`.
- MessageBodyModel.CreateBody: `ModelHelper.CreateBodyWithJsonObject` (called at Message.cs line 615) is taken to give no body for a type code outside 0..8, and the body its type names otherwise.
- MessageBodyModel.DecodeOperation: `FromJsonObjectToIMessageBody` is modelled on its own. Its result is not attached to the decoded `Body`, because its caller, `ModelHelper`, is not part of this model.
- The helper list decoders never return null: a non-array reads as an empty list. So the `null` check in `PresenceManager` (lines 140-142) always passes, and the model delivers an empty list there.
- `CreateGroup`: a null `inviteMembers` and an empty one are the same `userIds` value in the model.
- Null and empty lists are identified in these model fields: `Room` and `Group` `adminList`, `memberList`, `blockList` and `muteList`; `MessageReaction.userList`; `Presence.statusList`; and `MessageReactionChange` `reactionList` and `operationList`. Their internal constructors leave these lists null until `FromJsonObject` runs, and the helper list decoders always set a non-null list, so the model starts them empty. The message bodies keep null apart from empty (`TextBody` languages and translations, `CustomBody` parameters, `CombineBody` message list).
- Group and room events decode their payload once per handler call, not once per delegate. Decoding is pure, so each delegate receives the same value either way.
- Aliasing between embedded models (a `Message` inside `RecallMessageInfo` or `ChatThread`, the list items of a paged result). They are held as values, so in-place updates through a shared reference are not modelled. The exception is `msgMap`, which holds `Message` objects.
- Internal and private setters (`ChatThreadEvent`, `RecallMessageInfo`, `GroupReadAck`, `Contact`, …). Visibility has no Dafny counterpart. Only `FromJsonObject` assigns these fields in the model.
- MessageModel.SetAttribute: modelled on values. It returns the updated map instead of writing into the caller's dictionary.
- ChatManagerModel.ChatManager.RemoveChatManagerDelegate: the `Contains` guard before `List.Remove` is folded into remove-first-occurrence, which already does nothing for an absent delegate.
- The remaining `ChatManager`, `GroupManager` and `RoomManager` operations are one-line native calls whose parameters go through `AddWithoutNull`. Only the request builders and result lambdas named in the table are modelled.

## Findings

| source | as written | input that shows it | evidently intended | confidence | as-written member | corrected member |
|---|---|---|---|---|---|---|
| Assets/AgoraChat/AgoraChat/Models/Conversation.cs:77-87 | The `Ext` setter, after `SetExt` succeeds, assigns `_Ext = Ext`. The getter returns `_Ext`, so this assigns the cached value to itself. | Any new value different from the cached one, with the native `SetExt` returning true. The getter still returns the old value. | Cache the value just set: `_Ext = value`. | not executed | ConversationModel.ExtSetterAsWrittenLosesValue, ConversationModel.Conversation.SetExtAsWritten | ConversationModel.ExtGetAfterSet, ConversationModel.Conversation.SetExt |
