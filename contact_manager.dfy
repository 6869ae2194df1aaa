/** The contact manager's listeners and the delivery of contact events to them (ContactManager.cs). */
module ContactManagerModel {
  import opened Wrappers
  import opened Json
  import opened Registry

  /** The contact events the native layer reports. */
  datatype ContactEvent = ContactAdded | ContactDeleted | ContactInvited | FriendRequestAccepted | FriendRequestDeclined

  /** The `SDKMethod` name each event arrives under. */
  function ContactMethodName(e: ContactEvent): string
  {
    match e
    case ContactAdded => "onContactAdded"
    case ContactDeleted => "onContactDeleted"
    case ContactInvited => "onContactInvited"
    case FriendRequestAccepted => "onFriendRequestAccepted"
    case FriendRequestDeclined => "onFriendRequestDeclined"
  }

  /** The `switch (method)`: the event a method name stands for, if it is one of the five. */
  function ContactEventOf(methodName: string): (e: Option<ContactEvent>)
    ensures e.Some? ==> ContactMethodName(e.value) == methodName
    ensures e.None? ==> forall k :: ContactMethodName(k) != methodName
  {
    if methodName == "onContactAdded" then Some(ContactAdded)
    else if methodName == "onContactDeleted" then Some(ContactDeleted)
    else if methodName == "onContactInvited" then Some(ContactInvited)
    else if methodName == "onFriendRequestAccepted" then Some(FriendRequestAccepted)
    else if methodName == "onFriendRequestDeclined" then Some(FriendRequestDeclined)
    else None
  }

  /** Every event is recognised under its own name, so no two events share one. */
  lemma ContactMethodNameRoundTrip(e: ContactEvent)
    ensures ContactEventOf(ContactMethodName(e)) == Some(e)
  {
  }

  /** The callbacks of `IContactManagerDelegate` and their arguments. */
  datatype ContactCallback =
    | OnContactAdded(userId: NString)
    | OnContactDeleted(userId: NString)
    | OnContactInvited(userId: NString, reason: NString)
    | OnFriendRequestAccepted(userId: NString)
    | OnFriendRequestDeclined(userId: NString)
  {
    /** The event whose case of the switch makes this call. */
    function Event(): ContactEvent
    {
      match this
      case OnContactAdded(_) => ContactAdded
      case OnContactDeleted(_) => ContactDeleted
      case OnContactInvited(_, _) => ContactInvited
      case OnFriendRequestAccepted(_) => FriendRequestAccepted
      case OnFriendRequestDeclined(_) => FriendRequestDeclined
    }
  }

  /** The callback for an event, with the user id and the reason read off the payload before the loop. */
  function ContactCallbackFor(e: ContactEvent, userId: NString, reason: NString): (cb: ContactCallback)
    ensures cb.Event() == e
    ensures cb.userId == userId
    ensures cb.OnContactInvited? <==> e == ContactInvited
    ensures cb.OnContactInvited? ==> cb.reason == reason
  {
    match e
    case ContactAdded => OnContactAdded(userId)
    case ContactDeleted => OnContactDeleted(userId)
    case ContactInvited => OnContactInvited(userId, reason)
    case FriendRequestAccepted => OnFriendRequestAccepted(userId)
    case FriendRequestDeclined => OnFriendRequestDeclined(userId)
  }

  /** The callback one native event selects, if its method is one of the five. */
  function ContactSelection(methodName: string, payload: Json): Option<ContactCallback>
  {
    match ContactEventOf(methodName)
    case None => None
    case Some(e) => Some(ContactCallbackFor(e, Str(Field(payload, "userId")), Str(Field(payload, "msg"))))
  }

  /** What `NativeEventHandle` delivers to the delegates `ds`. */
  function ContactDispatch<D>(ds: seq<D>, methodName: string, payload: Json): seq<Invocation<D, ContactCallback>>
  {
    if |ds| == 0 then [] else Dispatched(ds, ContactSelection(methodName, payload))
  }

  /**
   * Nothing is delivered without delegates or for an unknown method; otherwise every delegate,
   * in order, receives the event's callback with the payload's `userId` (and its `msg` as the
   * reason of an invitation).
   */
  lemma ContactDispatchSpec<D>(ds: seq<D>, methodName: string, payload: Json)
    ensures ContactDispatch(ds, methodName, payload) == [] <==> |ds| == 0 || ContactEventOf(methodName).None?
    ensures ContactEventOf(methodName).Some? ==> Targets(ContactDispatch(ds, methodName, payload)) == ds
    ensures forall i :: 0 <= i < |ContactDispatch(ds, methodName, payload)| ==>
      var cb := ContactDispatch(ds, methodName, payload)[i].callback;
      Some(cb.Event()) == ContactEventOf(methodName) &&
      cb.userId == Str(Field(payload, "userId")) &&
      (cb.OnContactInvited? ==> cb.reason == Str(Field(payload, "msg")))
  {
    DispatchedSpec(ds, ContactSelection(methodName, payload));
  }

  class ContactManager<D(==)> {
    /** The registered `IContactManagerDelegate`s, in registration order. */
    var delegater: seq<D>

    constructor ()
      ensures delegater == []
    {
      delegater := [];
    }

    /** `AddContactManagerDelegate`: appends `d` unless it is registered already. */
    method AddContactManagerDelegate(d: D)
      modifies this
      ensures delegater == AddIfAbsent(old(delegater), d)
      ensures NoDup(old(delegater)) ==> NoDup(delegater)
    {
      if NoDup(delegater) {
        AddIfAbsentSpec(delegater, d);
      }
      if d !in delegater {
        delegater := delegater + [d];
      }
    }

    /** `RemoveContactManagerDelegate`: `List.Remove`, a no-op for an unregistered delegate. */
    method RemoveContactManagerDelegate(d: D)
      modifies this
      ensures delegater == RemoveFirst(old(delegater), d)
      ensures NoDup(old(delegater)) ==> NoDup(delegater) && d !in delegater
    {
      if NoDup(delegater) {
        RemoveFirstSpec(delegater, d);
      }
      delegater := RemoveFirst(delegater, d);
    }

    method ClearDelegates()
      modifies this
      ensures delegater == []
    {
      delegater := [];
    }

    /** `NativeEventHandle`: returns the callbacks delivered, in the order they are made. */
    method NativeEventHandle(methodName: string, payload: Json) returns (fired: seq<Invocation<D, ContactCallback>>)
      ensures fired == ContactDispatch(delegater, methodName, payload)
    {
      if |delegater| == 0 {
        return [];
      }
      var reason := Str(Field(payload, "msg"));
      var userId := Str(Field(payload, "userId"));
      var e := ContactEventOf(methodName);
      fired := Deliver(delegater, if e.Some? then Some(ContactCallbackFor(e.value, userId, reason)) else None);
    }
  }
}
