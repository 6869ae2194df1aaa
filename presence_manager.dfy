/** The presence manager's listeners and the delivery of presence updates to them (PresenceManager.cs). */
module PresenceManagerModel {
  import opened Wrappers
  import opened Json
  import opened Registry
  import opened PresenceModel

  /** The one callback of `IPresenceManagerDelegate`. */
  datatype PresenceCallback = OnPresenceUpdated(presences: seq<PresenceValue>)

  /** The callback one native event selects: only `onPresenceUpdated` has one, carrying the decoded presences. */
  function PresenceSelection(methodName: string, payload: Json): Option<PresenceCallback>
  {
    if methodName == "onPresenceUpdated" then Some(OnPresenceUpdated(ModelList(Some(payload), DecodePresence))) else None
  }

  /** What `NativeEventcallback` delivers to the delegates `ds`. */
  function PresenceDispatch<D>(ds: seq<D>, methodName: string, payload: Json): seq<Invocation<D, PresenceCallback>>
  {
    if |ds| == 0 then [] else Dispatched(ds, PresenceSelection(methodName, payload))
  }

  /**
   * Any other method, or no delegate, delivers nothing; `onPresenceUpdated` reaches every delegate
   * once, in order, each with the presences of the payload array.
   */
  lemma PresenceDispatchSpec<D>(ds: seq<D>, methodName: string, payload: Json)
    ensures PresenceDispatch(ds, methodName, payload) == [] <==> |ds| == 0 || methodName != "onPresenceUpdated"
    ensures methodName == "onPresenceUpdated" ==> Targets(PresenceDispatch(ds, methodName, payload)) == ds
    ensures forall i :: 0 <= i < |PresenceDispatch(ds, methodName, payload)| ==>
      PresenceDispatch(ds, methodName, payload)[i].callback == OnPresenceUpdated(ModelList(Some(payload), DecodePresence))
  {
    DispatchedSpec(ds, PresenceSelection(methodName, payload));
  }

  /** The presences delivered are exactly those the native layer encoded in the payload, in order. */
  lemma PresenceUpdateDeliversEncoded<D>(ds: seq<D>, ps: seq<PresenceValue>)
    requires |ds| > 0
    ensures PresenceDispatch(ds, "onPresenceUpdated", ModelArray(ps, EncodePresence)) == FanOut(ds, OnPresenceUpdated(ps))
  {
    forall i | 0 <= i < |ps|
      ensures DecodePresence(EncodePresence(ps[i])) == ps[i]
    {
      PresenceRoundTrip(ps[i]);
    }
    ModelListRoundTrip(ps, EncodePresence, DecodePresence);
  }

  class PresenceManager<D(==)> {
    /** The registered `IPresenceManagerDelegate`s, in registration order. */
    var delegater: seq<D>

    constructor ()
      ensures delegater == []
    {
      delegater := [];
    }

    /** `AddPresenceManagerDelegate`: appends `d` unless it is registered already. */
    method AddPresenceManagerDelegate(d: D)
      modifies this
      ensures delegater == AddIfAbsent(old(delegater), d)
      ensures NoDup(old(delegater)) ==> NoDup(delegater)
    {
      if NoDup(delegater) {
        AddIfAbsentSpec(delegater, d);
      }
      if d !in delegater {
        delegater := delegater + [d];
      }
    }

    /** `RemovePresenceManagerDelegate`: `List.Remove`, a no-op for an unregistered delegate. */
    method RemovePresenceManagerDelegate(d: D)
      modifies this
      ensures delegater == RemoveFirst(old(delegater), d)
      ensures NoDup(old(delegater)) ==> NoDup(delegater) && d !in delegater
    {
      if NoDup(delegater) {
        RemoveFirstSpec(delegater, d);
      }
      delegater := RemoveFirst(delegater, d);
    }

    method ClearDelegates()
      modifies this
      ensures delegater == []
    {
      delegater := [];
    }

    /** `NativeEventcallback`: returns the callbacks delivered, in the order they are made. */
    method NativeEventcallback(methodName: string, payload: Json) returns (fired: seq<Invocation<D, PresenceCallback>>)
      ensures fired == PresenceDispatch(delegater, methodName, payload)
    {
      if |delegater| == 0 {
        return [];
      }
      var list := ModelList(Some(payload), DecodePresence);
      fired := Deliver(delegater, if methodName == "onPresenceUpdated" then Some(OnPresenceUpdated(list)) else None);
    }
  }
}
