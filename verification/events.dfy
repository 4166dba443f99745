/** The foreign side of the lifecycle: opaque handles to embedded clusters
    and the trace of library calls that returned normally. */
module Events {

  /** An embedded-cluster object, identified by the order it was built in. */
  type HandleId = nat

  datatype Service = Zookeeper | Hdfs | Yarn | Hbase

  /** A call into the embedded-cluster library that returned: `build()` of a
      new cluster object, or `start()` / `stop()` on an existing one. */
  datatype Event =
    | Built(service: Service, id: HandleId)
    | Started(service: Service, id: HandleId)
    | Stopped(service: Service, id: HandleId)

  /** The event as seen by `svc`'s lifecycle: kept if it starts or stops
      that service. */
  function Tag(e: Event, svc: Service): seq<Event>
  {
    if !e.Built? && e.service == svc then [e] else []
  }

  /** The start and stop events of one service, in trace order. */
  function Lifecycle(t: seq<Event>, svc: Service): (l: seq<Event>)
    ensures |l| <= |t|
    ensures forall i :: 0 <= i < |l| ==> !l[i].Built? && l[i].service == svc
  {
    if t == [] then [] else Lifecycle(t[..|t| - 1], svc) + Tag(t[|t| - 1], svc)
  }

  /** A lifecycle with no double start and no double stop: starts sit at the
      even positions, stops at the odd ones, and each stop acts on the
      handle the start just before it launched. */
  predicate Alternating(l: seq<Event>)
  {
    && (forall i :: 0 <= i < |l| ==> (l[i].Started? <==> i % 2 == 0))
    && (forall i :: 1 <= i < |l| && i % 2 == 1 ==> l[i].id == l[i - 1].id)
  }

  /** Number of `start()` calls on `svc` that returned. */
  function Starts(t: seq<Event>, svc: Service): nat
  {
    if t == [] then 0
    else Starts(t[..|t| - 1], svc) + (if t[|t| - 1].Started? && t[|t| - 1].service == svc then 1 else 0)
  }

  /** Number of `stop()` calls on `svc` that returned. */
  function Stops(t: seq<Event>, svc: Service): nat
  {
    if t == [] then 0
    else Stops(t[..|t| - 1], svc) + (if t[|t| - 1].Stopped? && t[|t| - 1].service == svc then 1 else 0)
  }

  /** Appending one event extends each lifecycle by that event's tag. */
  lemma LifecycleSnoc(t: seq<Event>, e: Event, svc: Service)
    ensures Lifecycle(t + [e], svc) == Lifecycle(t, svc) + Tag(e, svc)
  {
    assert (t + [e])[..|t|] == t;
  }

  lemma AlternatingPrefix(l: seq<Event>, n: nat)
    requires Alternating(l) && n <= |l|
    ensures Alternating(l[..n])
  {
  }

  /** A start may follow a lifecycle that ends stopped. */
  lemma AlternatingStart(l: seq<Event>, e: Event)
    requires Alternating(l) && |l| % 2 == 0 && e.Started?
    ensures Alternating(l + [e])
  {
  }

  /** A stop may follow a lifecycle that ends running, on the running handle. */
  lemma AlternatingStop(l: seq<Event>, e: Event)
    requires Alternating(l) && |l| % 2 == 1 && e.Stopped? && e.id == l[|l| - 1].id
    ensures Alternating(l + [e])
  {
  }

  /** On an alternating lifecycle, returned starts minus returned stops is 1
      exactly when the lifecycle ends running, and 0 otherwise. */
  lemma {:induction false} Balance(t: seq<Event>, svc: Service)
    requires Alternating(Lifecycle(t, svc))
    ensures Starts(t, svc) - Stops(t, svc) == |Lifecycle(t, svc)| % 2
  {
    if t != [] {
      var init, e := t[..|t| - 1], t[|t| - 1];
      var l, full := Lifecycle(init, svc), Lifecycle(t, svc);
      assert full == l + Tag(e, svc);
      assert Alternating(l) by {
        assert l == full[..|l|];
        AlternatingPrefix(full, |l|);
      }
      Balance(init, svc);
      if Tag(e, svc) != [] {
        assert full[|l|] == e;
      }
    }
  }

  /** A service with an empty lifecycle was never started or stopped. */
  lemma {:induction false} NoLifecycleNoCalls(t: seq<Event>, svc: Service)
    requires Lifecycle(t, svc) == []
    ensures Starts(t, svc) == 0 && Stops(t, svc) == 0
  {
    if t != [] {
      var init, e := t[..|t| - 1], t[|t| - 1];
      assert Lifecycle(t, svc) == Lifecycle(init, svc) + Tag(e, svc);
      NoLifecycleNoCalls(init, svc);
    }
  }
}
