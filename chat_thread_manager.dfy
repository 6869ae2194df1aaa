/**
 * The message-thread manager's listeners and the delivery of thread events to them
 * (ChatThreadManager.cs).
 */
module ChatThreadManagerModel {
  import opened Wrappers
  import opened Json
  import opened Registry
  import opened NativeResults
  import opened ChatThreadEventModel

  /** The thread events the native layer reports. */
  datatype ThreadEvent = ThreadCreated | ThreadUpdated | ThreadDestroyed | KickedOutOfThread

  /** The `SDKMethod` name each event arrives under. */
  function ThreadMethodName(e: ThreadEvent): string
  {
    match e
    case ThreadCreated => "onChatThreadCreate"
    case ThreadUpdated => "onChatThreadUpdate"
    case ThreadDestroyed => "onChatThreadDestroy"
    case KickedOutOfThread => "onUserKickOutOfChatThread"
  }

  /** The `switch (methodName)`: the event a method name stands for, if it is one of the four. */
  function ThreadEventOf(methodName: string): (e: Option<ThreadEvent>)
    ensures e.Some? ==> ThreadMethodName(e.value) == methodName
    ensures e.None? ==> forall k :: ThreadMethodName(k) != methodName
  {
    if methodName == "onChatThreadCreate" then Some(ThreadCreated)
    else if methodName == "onChatThreadUpdate" then Some(ThreadUpdated)
    else if methodName == "onChatThreadDestroy" then Some(ThreadDestroyed)
    else if methodName == "onUserKickOutOfChatThread" then Some(KickedOutOfThread)
    else None
  }

  /** Every event is recognised under its own name, so no two events share one. */
  lemma ThreadMethodNameRoundTrip(e: ThreadEvent)
    ensures ThreadEventOf(ThreadMethodName(e)) == Some(e)
  {
  }

  /** The callbacks of `IChatThreadManagerDelegate`, each with the event object it receives. */
  datatype ThreadCallback =
    | OnChatThreadCreate(event: ChatThreadEventValue)
    | OnChatThreadUpdate(event: ChatThreadEventValue)
    | OnChatThreadDestroy(event: ChatThreadEventValue)
    | OnUserKickOutOfChatThread(event: ChatThreadEventValue)
  {
    /** The event whose case of the switch makes this call. */
    function Event(): ThreadEvent
    {
      match this
      case OnChatThreadCreate(_) => ThreadCreated
      case OnChatThreadUpdate(_) => ThreadUpdated
      case OnChatThreadDestroy(_) => ThreadDestroyed
      case OnUserKickOutOfChatThread(_) => KickedOutOfThread
    }
  }

  /** Each event has its own callback, and the callback carries the event unchanged. */
  function ThreadCallbackFor(e: ThreadEvent, ev: ChatThreadEventValue): (cb: ThreadCallback)
    ensures cb.Event() == e
    ensures cb.event == ev
  {
    match e
    case ThreadCreated => OnChatThreadCreate(ev)
    case ThreadUpdated => OnChatThreadUpdate(ev)
    case ThreadDestroyed => OnChatThreadDestroy(ev)
    case KickedOutOfThread => OnUserKickOutOfChatThread(ev)
  }

  /** The four events map one-to-one onto the four callbacks, each onto the delegate method of its own name. */
  lemma ThreadCallbackInjective(e1: ThreadEvent, e2: ThreadEvent, ev: ChatThreadEventValue)
    ensures ThreadCallbackFor(e1, ev) == ThreadCallbackFor(e2, ev) ==> e1 == e2
    ensures ThreadCallbackFor(ThreadCreated, ev) == OnChatThreadCreate(ev)
    ensures ThreadCallbackFor(ThreadUpdated, ev) == OnChatThreadUpdate(ev)
    ensures ThreadCallbackFor(ThreadDestroyed, ev) == OnChatThreadDestroy(ev)
    ensures ThreadCallbackFor(KickedOutOfThread, ev) == OnUserKickOutOfChatThread(ev)
  {
  }

  /** The callback one native event selects: none when the payload is no thread event or the method is not one of the four. */
  function ThreadSelection(methodName: string, payload: Json): Option<ThreadCallback>
  {
    match ModelOf(Some(payload), DecodeChatThreadEvent)
    case None => None
    case Some(ev) =>
      match ThreadEventOf(methodName)
      case None => None
      case Some(e) => Some(ThreadCallbackFor(e, ev))
  }

  /** What `NativeEventHandle` delivers to the delegates `ds`. */
  function ThreadDispatch<D>(ds: seq<D>, methodName: string, payload: Json): seq<Invocation<D, ThreadCallback>>
  {
    if |ds| == 0 then [] else Dispatched(ds, ThreadSelection(methodName, payload))
  }

  /**
   * No delegate, a payload that decodes to no event, or an unknown method: nothing is delivered.
   * Otherwise every delegate, in order, receives the callback for the method with the one decoded event.
   */
  lemma ThreadDispatchSpec<D>(ds: seq<D>, methodName: string, payload: Json)
    ensures ThreadDispatch(ds, methodName, payload) == [] <==> |ds| == 0 || !payload.JObj? || ThreadEventOf(methodName).None?
    ensures payload.JObj? && ThreadEventOf(methodName).Some? ==>
      Targets(ThreadDispatch(ds, methodName, payload)) == ds &&
      forall i :: 0 <= i < |ds| ==>
        ThreadDispatch(ds, methodName, payload)[i].callback ==
          ThreadCallbackFor(ThreadEventOf(methodName).value, DecodeChatThreadEvent(payload.fields))
    ensures forall i :: 0 <= i < |ThreadDispatch(ds, methodName, payload)| ==>
      Some(ThreadDispatch(ds, methodName, payload)[i].callback.Event()) == ThreadEventOf(methodName)
  {
    DispatchedSpec(ds, ThreadSelection(methodName, payload));
  }

  class ChatThreadManager<D(==)> {
    /** The registered `IChatThreadManagerDelegate`s, in registration order. */
    var delegater: seq<D>

    constructor ()
      ensures delegater == []
    {
      delegater := [];
    }

    /** `AddThreadManagerDelegate`: appends `d` unless it is registered already. */
    method AddThreadManagerDelegate(d: D)
      modifies this
      ensures delegater == AddIfAbsent(old(delegater), d)
      ensures NoDup(old(delegater)) ==> NoDup(delegater)
    {
      if NoDup(delegater) {
        AddIfAbsentSpec(delegater, d);
      }
      if d !in delegater {
        delegater := delegater + [d];
      }
    }

    /** `RemoveThreadManagerDelegate`: `List.Remove`, a no-op for an unregistered delegate. */
    method RemoveThreadManagerDelegate(d: D)
      modifies this
      ensures delegater == RemoveFirst(old(delegater), d)
      ensures NoDup(old(delegater)) ==> NoDup(delegater) && d !in delegater
    {
      if NoDup(delegater) {
        RemoveFirstSpec(delegater, d);
      }
      delegater := RemoveFirst(delegater, d);
    }

    method ClearDelegates()
      modifies this
      ensures delegater == []
    {
      delegater := [];
    }

    /** `NativeEventHandle`: returns the callbacks delivered, in the order they are made. */
    method NativeEventHandle(methodName: string, payload: Json) returns (fired: seq<Invocation<D, ThreadCallback>>)
      ensures fired == ThreadDispatch(delegater, methodName, payload)
    {
      if |delegater| == 0 {
        return [];
      }
      var threadEvent := ModelOf(Some(payload), DecodeChatThreadEvent);
      fired := [];
      if threadEvent.Some? {
        var e := ThreadEventOf(methodName);
        var cb := if e.Some? then Some(ThreadCallbackFor(e.value, threadEvent.value)) else None;
        fired := Deliver(delegater, cb);
      }
    }
  }
}
