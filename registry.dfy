/**
 * The delegate lists every manager keeps (`List<IXxxManagerDelegate> delegater`) and the
 * fan-out of one native event to them: registration order, each delegate once.
 */
module Registry {
  import opened Wrappers

  /** No delegate appears twice. */
  ghost predicate NoDup<T>(s: seq<T>)
  {
    forall i, j :: 0 <= i < j < |s| ==> s[i] != s[j]
  }

  /** Add-if-absent, as every `AddXxxManagerDelegate` does. */
  function AddIfAbsent<T(==)>(s: seq<T>, d: T): seq<T>
  {
    if d in s then s else s + [d]
  }

  /** `List.Remove`: drops the first occurrence, if any. */
  function RemoveFirst<T(==)>(s: seq<T>, d: T): seq<T>
  {
    if s == [] then []
    else if s[0] == d then s[1..]
    else [s[0]] + RemoveFirst(s[1..], d)
  }

  /** The index of the first occurrence of `d`. */
  function IndexOf<T(==)>(s: seq<T>, d: T): (k: nat)
    requires d in s
    ensures k < |s| && s[k] == d && d !in s[..k]
  {
    if s[0] == d then 0 else 1 + IndexOf(s[1..], d)
  }

  /** Adding keeps the list free of duplicates, registers `d`, keeps everyone else in place, and is idempotent. */
  lemma AddIfAbsentSpec<T>(s: seq<T>, d: T)
    requires NoDup(s)
    ensures NoDup(AddIfAbsent(s, d))
    ensures d in AddIfAbsent(s, d)
    ensures forall x :: x in AddIfAbsent(s, d) <==> x in s || x == d
    ensures AddIfAbsent(s, d)[..|s|] == s
    ensures AddIfAbsent(AddIfAbsent(s, d), d) == AddIfAbsent(s, d)
  {
  }

  /** Removing an absent delegate is a no-op. */
  lemma {:induction false} RemoveAbsent<T>(s: seq<T>, d: T)
    requires d !in s
    ensures RemoveFirst(s, d) == s
  {
    if s != [] {
      RemoveAbsent(s[1..], d);
    }
  }

  /** Removing a present delegate cuts exactly its first occurrence and keeps the others' order. */
  lemma {:induction false} RemovePresent<T>(s: seq<T>, d: T)
    requires d in s
    ensures RemoveFirst(s, d) == s[..IndexOf(s, d)] + s[IndexOf(s, d) + 1..]
  {
    if s[0] != d {
      var t := s[1..];
      var k := IndexOf(t, d);
      RemovePresent(t, d);
      assert IndexOf(s, d) == k + 1;
      assert RemoveFirst(s, d) == [s[0]] + (t[..k] + t[k + 1..]);
      assert [s[0]] + t[..k] == s[..k + 1];
      assert t[k + 1..] == s[k + 2..];
    }
  }

  /** Where each survivor of a removal sits: the delegates before the removed one keep their index, the rest move down by one. */
  lemma RemovePresentIndexes<T>(s: seq<T>, d: T)
    requires d in s
    ensures |RemoveFirst(s, d)| == |s| - 1
    ensures forall i :: 0 <= i < IndexOf(s, d) ==> RemoveFirst(s, d)[i] == s[i]
    ensures forall i :: IndexOf(s, d) <= i < |s| - 1 ==> RemoveFirst(s, d)[i] == s[i + 1]
  {
    RemovePresent(s, d);
  }

  /** On a list without duplicates, removing `d` unregisters it and only it, and a second removal does nothing. */
  lemma RemoveFirstSpec<T>(s: seq<T>, d: T)
    requires NoDup(s)
    ensures NoDup(RemoveFirst(s, d))
    ensures forall x :: x in RemoveFirst(s, d) <==> x in s && x != d
    ensures |RemoveFirst(s, d)| == if d in s then |s| - 1 else |s|
    ensures RemoveFirst(RemoveFirst(s, d), d) == RemoveFirst(s, d)
  {
    if d in s {
      RemovePresentIndexes(s, d);
      RemovedMembers(s, d);
      RemovedNoDup(s, d);
      RemoveAbsent(RemoveFirst(s, d), d);
    } else {
      RemoveAbsent(s, d);
    }
  }

  lemma RemovedMembers<T>(s: seq<T>, d: T)
    requires NoDup(s) && d in s
    ensures forall x :: x in RemoveFirst(s, d) <==> x in s && x != d
  {
    RemovePresentIndexes(s, d);
    var k := IndexOf(s, d);
    var r := RemoveFirst(s, d);
    forall x ensures x in r <==> x in s && x != d {
      if x in s && x != d {
        var i :| 0 <= i < |s| && s[i] == x;
        assert i != k;
        if i < k {
          assert r[i] == x;
        } else {
          assert r[i - 1] == x;
        }
      }
      if x in r {
        var j :| 0 <= j < |r| && r[j] == x;
        if j < k {
          assert s[j] == x;
        } else {
          assert s[j + 1] == x;
        }
      }
    }
  }

  lemma RemovedNoDup<T>(s: seq<T>, d: T)
    requires NoDup(s) && d in s
    ensures NoDup(RemoveFirst(s, d))
  {
    RemovePresentIndexes(s, d);
    var k := IndexOf(s, d);
    var r := RemoveFirst(s, d);
    forall i, j | 0 <= i < j < |r| ensures r[i] != r[j] {
      var i' := if i < k then i else i + 1;
      var j' := if j < k then j else j + 1;
      assert r[i] == s[i'] && r[j] == s[j'];
    }
  }

  /** One delivered callback: which delegate received it, and what. */
  datatype Invocation<D, C> = Invocation(target: D, callback: C)

  /** The callbacks a `foreach` over `ds` delivers when each delegate receives `c`. */
  function FanOut<D, C>(ds: seq<D>, c: C): seq<Invocation<D, C>>
  {
    seq(|ds|, i requires 0 <= i < |ds| => Invocation(ds[i], c))
  }

  /** Delivering to one more delegate appends one invocation. */
  lemma FanOutSnoc<D, C>(ds: seq<D>, d: D, c: C)
    ensures FanOut(ds + [d], c) == FanOut(ds, c) + [Invocation(d, c)]
  {
  }

  /** The receivers of a fan-out are the delegates, in order, each as often as it is registered. */
  function Targets<D, C>(inv: seq<Invocation<D, C>>): seq<D>
  {
    seq(|inv|, i requires 0 <= i < |inv| => inv[i].target)
  }

  lemma FanOutReachesEachDelegateOnce<D, C>(ds: seq<D>, c: C)
    requires NoDup(ds)
    ensures Targets(FanOut(ds, c)) == ds
    ensures forall i :: 0 <= i < |ds| ==> FanOut(ds, c)[i].callback == c
    ensures NoDup(Targets(FanOut(ds, c)))
  {
  }

  /**
   * What a `foreach` over `ds` delivers when the event selects callback `cb`: each delegate
   * receives it, in order; when the switch selects nothing (`None`), nobody is called.
   */
  function Dispatched<D, C>(ds: seq<D>, cb: Option<C>): seq<Invocation<D, C>>
  {
    match cb
    case Some(c) => FanOut(ds, c)
    case None => []
  }

  /** A selected callback reaches every registered delegate exactly once, in registration order; no selection reaches nobody. */
  lemma DispatchedSpec<D, C>(ds: seq<D>, cb: Option<C>)
    ensures cb.None? ==> Dispatched(ds, cb) == []
    ensures cb.Some? ==> Targets(Dispatched(ds, cb)) == ds
    ensures forall i :: 0 <= i < |Dispatched(ds, cb)| ==> Some(Dispatched(ds, cb)[i].callback) == cb
  {
  }

  /** The `foreach (var it in delegater) { switch (method) { ... } }` loop, one delegate at a time. */
  method Deliver<D, C>(ds: seq<D>, cb: Option<C>) returns (fired: seq<Invocation<D, C>>)
    ensures fired == Dispatched(ds, cb)
  {
    fired := [];
    var i := 0;
    while i < |ds|
      invariant 0 <= i <= |ds|
      invariant fired == Dispatched(ds[..i], cb)
    {
      match cb {
        case Some(c) =>
          FanOutSnoc(ds[..i], ds[i], c);
          fired := fired + [Invocation(ds[i], c)];
        case None =>
      }
      assert ds[..i + 1] == ds[..i] + [ds[i]];
      i := i + 1;
    }
    assert ds[..i] == ds;
  }

  /** The `switch (method)` over named events: the first of `events` whose name is `methodName`, if any. */
  function Lookup<E>(events: seq<E>, name: E -> string, methodName: string): (e: Option<E>)
    ensures e.Some? ==> e.value in events && name(e.value) == methodName
    ensures e.None? ==> forall i :: 0 <= i < |events| ==> name(events[i]) != methodName
  {
    if events == [] then None
    else if name(events[0]) == methodName then Some(events[0])
    else Lookup(events[1..], name, methodName)
  }
}
