/** What holds after any sequence of public calls on `MiniClusterUtil`,
    made one at a time by a single caller, starting from class
    initialisation. */
module Invariants {
  import opened Wrappers
  import opened Config
  import opened Events
  import opened MiniClusterUtil
  import opened ConfigVars

  /** One call of a public static method that can change the state, with
      the way each of its foreign steps goes. */
  datatype Call =
    | StartAllCall(props: Properties, zk: StartEnv, yarn: Effect, hbase: StartEnv)
    | StartZookeeperCall(props: Properties, zk: StartEnv)
    | SetUpCall(props: Properties, build: Effect)
    | StartYarnCall(props: Properties, build: Effect)
    | StartHBaseCall(props: Properties, zk: StartEnv, hbase: StartEnv)
    | StopAllCall(hbaseStop: Effect, zkStop: Effect)
    | StopZookeeperCall(stop: Effect)
    | StopHdfsCall(stop: Effect)
    | StopHBaseCall(stop: Effect)

  /** The state after `c`, whether it returned or threw. */
  function Apply(s: State, c: Call): State
  {
    match c
    case StartAllCall(props, zk, yarn, hbase) => StartAll(s, props, zk, yarn, hbase).post
    case StartZookeeperCall(props, zk) => StartZookeeper(s, props, zk).post
    case SetUpCall(props, build) => SetUp(s, props, build).post
    case StartYarnCall(props, build) => StartYarn(s, props, build).post
    case StartHBaseCall(props, zk, hbase) => StartHBase(s, props, zk, hbase).post
    case StopAllCall(hbaseStop, zkStop) => StopAll(s, hbaseStop, zkStop).post
    case StopZookeeperCall(stop) => StopZookeeper(s, stop).post
    case StopHdfsCall(stop) => StopHdfs(s, stop).post
    case StopHBaseCall(stop) => StopHBase(s, stop).post
  }

  function Run(s: State, calls: seq<Call>): State
    decreases |calls|
  {
    if calls == [] then s else Run(Apply(s, calls[0]), calls[1..])
  }

  /** The lifecycle of `svc` has no double start or stop, ends running
      exactly when the flag is set, and while running the handle field holds
      the object that was last started. */
  ghost predicate Tracks(t: seq<Event>, svc: Service, running: bool, handle: Option<HandleId>)
  {
    var l := Lifecycle(t, svc);
    && Alternating(l)
    && (running <==> |l| % 2 == 1)
    && (running ==> handle == Some(l[|l| - 1].id))
  }

  /** Every id the library has handed out is below the counter. */
  ghost predicate IdsBelow(s: State)
  {
    && (forall i :: 0 <= i < |s.trace| ==> s.trace[i].id < s.nextId)
    && (s.zookeeper.Some? ==> s.zookeeper.value < s.nextId)
    && (s.hdfs.Some? ==> s.hdfs.value < s.nextId)
    && (s.hbase.Some? ==> s.hbase.value < s.nextId)
  }

  ghost predicate Inv(s: State)
  {
    && Tracks(s.trace, Zookeeper, s.zookeeperStarted, s.zookeeper)
    && Tracks(s.trace, Hbase, s.hbaseStarted, s.hbase)
    && !s.hdfsStarted && !s.yarnStarted
    && Lifecycle(s.trace, Hdfs) == [] && Lifecycle(s.trace, Yarn) == []
    && IdsBelow(s)
  }

  lemma InitInv()
    ensures Inv(Init)
  {
  }

  /** Appending `e` changes only the lifecycle of `e`'s service, and that
      only when `e` is a start or a stop. */
  lemma SnocLifecycles(t: seq<Event>, e: Event)
    ensures Lifecycle(t + [e], Zookeeper) == Lifecycle(t, Zookeeper) + Tag(e, Zookeeper)
    ensures Lifecycle(t + [e], Hdfs) == Lifecycle(t, Hdfs) + Tag(e, Hdfs)
    ensures Lifecycle(t + [e], Yarn) == Lifecycle(t, Yarn) + Tag(e, Yarn)
    ensures Lifecycle(t + [e], Hbase) == Lifecycle(t, Hbase) + Tag(e, Hbase)
  {
    LifecycleSnoc(t, e, Zookeeper);
    LifecycleSnoc(t, e, Hdfs);
    LifecycleSnoc(t, e, Yarn);
    LifecycleSnoc(t, e, Hbase);
  }

  /** A `build()` changes no lifecycle. */
  lemma BuildInv(s: State, svc: Service)
    requires Inv(s)
    ensures Inv(Build(s, svc).0)
  {
    var e := Built(svc, s.nextId);
    var bumped := s.(nextId := s.nextId + 1);
    IdsBelowEmit(bumped, e);
    TracksOther(s.trace, e, Zookeeper, s.zookeeperStarted, s.zookeeper);
    TracksOther(s.trace, e, Hbase, s.hbaseStarted, s.hbase);
    LifecycleSnoc(s.trace, e, Hdfs);
    LifecycleSnoc(s.trace, e, Yarn);
    assert Build(s, svc).0 == Emit(bumped, e);
  }

  /** Storing a new object in the field of a stopped service. */
  lemma StoreInv(s: State, svc: Service, id: HandleId)
    requires Inv(s) && (svc == Zookeeper || svc == Hbase || svc == Hdfs)
    requires !s.Running(svc) && id < s.nextId
    ensures Inv(s.WithHandle(svc, Some(id)))
  {
  }

  /** An event that is not a start or stop of `svc` leaves its tracking as it was. */
  lemma TracksOther(t: seq<Event>, e: Event, svc: Service, running: bool, handle: Option<HandleId>)
    requires Tracks(t, svc, running, handle) && (e.Built? || e.service != svc)
    ensures Tracks(t + [e], svc, running, handle)
  {
    LifecycleSnoc(t, e, svc);
  }

  /** A start of a stopped service, on the object its field now holds. */
  lemma TracksStart(t: seq<Event>, svc: Service, oldHandle: Option<HandleId>, id: HandleId)
    requires Tracks(t, svc, false, oldHandle)
    ensures Tracks(t + [Started(svc, id)], svc, true, Some(id))
  {
    LifecycleSnoc(t, Started(svc, id), svc);
    AlternatingStart(Lifecycle(t, svc), Started(svc, id));
  }

  /** A stop of a running service, on the object its field holds. */
  lemma TracksStop(t: seq<Event>, svc: Service, id: HandleId)
    requires Tracks(t, svc, true, Some(id))
    ensures Tracks(t + [Stopped(svc, id)], svc, false, Some(id))
  {
    LifecycleSnoc(t, Stopped(svc, id), svc);
    AlternatingStop(Lifecycle(t, svc), Stopped(svc, id));
  }

  /** Appending an event whose id is below the counter keeps ids below it. */
  lemma IdsBelowEmit(s: State, e: Event)
    requires IdsBelow(s) && e.id < s.nextId
    ensures IdsBelow(Emit(s, e))
  {
    var post := Emit(s, e);
    forall i | 0 <= i < |post.trace|
      ensures post.trace[i].id < post.nextId
    {
      if i < |s.trace| {
        assert post.trace[i] == s.trace[i];
      }
    }
  }

  /** A returned `start()` of the object just stored in a stopped service's field. */
  lemma StartedInv(s: State, svc: Service, id: HandleId)
    requires Inv(s) && (svc == Zookeeper || svc == Hbase)
    requires !s.Running(svc) && s.Handle(svc) == Some(id) && id < s.nextId
    ensures Inv(Emit(s, Started(svc, id)).WithRunning(svc, true))
  {
    var e := Started(svc, id);
    IdsBelowEmit(s, e);
    SnocLifecycles(s.trace, e);
    if svc == Zookeeper {
      TracksStart(s.trace, Zookeeper, s.zookeeper, id);
      TracksOther(s.trace, e, Hbase, s.hbaseStarted, s.hbase);
    } else {
      TracksStart(s.trace, Hbase, s.hbase, id);
      TracksOther(s.trace, e, Zookeeper, s.zookeeperStarted, s.zookeeper);
    }
  }

  /** A returned `stop()` of the running object of a service. */
  lemma StoppedInv(s: State, svc: Service)
    requires Inv(s) && s.Running(svc) && s.Handle(svc).Some?
    ensures Inv(Emit(s, Stopped(svc, s.Handle(svc).value)).WithRunning(svc, false))
  {
    var e := Stopped(svc, s.Handle(svc).value);
    IdsBelowEmit(s, e);
    SnocLifecycles(s.trace, e);
    if svc == Zookeeper {
      TracksStop(s.trace, Zookeeper, e.id);
      TracksOther(s.trace, e, Hbase, s.hbaseStarted, s.hbase);
    } else {
      assert svc == Hbase;
      TracksStop(s.trace, Hbase, e.id);
      TracksOther(s.trace, e, Zookeeper, s.zookeeperStarted, s.zookeeper);
    }
  }

  lemma LaunchInv(s: State, svc: Service, props: Properties, intKeys: seq<string>, env: StartEnv)
    requires Inv(s) && (svc == Zookeeper || svc == Hbase) && !s.Running(svc)
    ensures Inv(Launch(s, svc, props, intKeys, env).post)
  {
    var r := Launch(s, svc, props, intKeys, env);
    if BuildReturns(props, intKeys, env.build) {
      var id := s.nextId;
      var built := Build(s, svc).0;
      BuildInv(s, svc);
      var stored := built.WithHandle(svc, Some(id));
      StoreInv(built, svc, id);
      if env.start == Returns {
        assert stored.Handle(svc) == Some(id) && !stored.Running(svc);
        StartedInv(stored, svc, id);
        assert r.post == Emit(stored, Started(svc, id)).WithRunning(svc, true);
      } else {
        assert r.post == stored;
      }
    } else {
      assert r.post == s;
    }
  }

  lemma HaltInv(s: State, svc: Service, stop: Effect)
    requires Inv(s)
    ensures Inv(Halt(s, svc, stop).post)
  {
    var r := Halt(s, svc, stop);
    if s.Running(svc) && s.Handle(svc).Some? && stop == Returns {
      StoppedInv(s, svc);
      assert r.post == Emit(s, Stopped(svc, s.Handle(svc).value)).WithRunning(svc, false);
    } else {
      assert r.post == s;
    }
  }

  lemma StartZookeeperInv(s: State, props: Properties, env: StartEnv)
    requires Inv(s)
    ensures Inv(StartZookeeper(s, props, env).post)
  {
    if !s.zookeeperStarted {
      LaunchInv(s, Zookeeper, props, ZookeeperIntKeys, env);
    }
  }

  lemma StartHBaseInv(s: State, props: Properties, zkEnv: StartEnv, hbaseEnv: StartEnv)
    requires Inv(s)
    ensures Inv(StartHBase(s, props, zkEnv, hbaseEnv).post)
  {
    StartZookeeperInv(s, props, zkEnv);
    var zk := StartZookeeper(s, props, zkEnv).post;
    if !zk.hbaseStarted {
      LaunchInv(zk, Hbase, props, HbaseIntKeys, hbaseEnv);
    }
  }

  lemma SetUpInv(s: State, props: Properties, build: Effect)
    requires Inv(s)
    ensures Inv(SetUp(s, props, build).post)
  {
    if BuildReturns(props, HdfsIntKeys, build) {
      var built := Build(s, Hdfs).0;
      BuildInv(s, Hdfs);
      StoreInv(built, Hdfs, s.nextId);
      assert SetUp(s, props, build).post == built.WithHandle(Hdfs, Some(s.nextId));
    }
  }

  lemma StartYarnInv(s: State, props: Properties, build: Effect)
    requires Inv(s)
    ensures Inv(StartYarn(s, props, build).post)
  {
    if BuildReturns(props, YarnIntKeys, build) {
      BuildInv(s, Yarn);
      assert StartYarn(s, props, build).post == Build(s, Yarn).0;
    }
  }

  lemma StartAllInv(s: State, props: Properties, zk: StartEnv, yarn: Effect, hbase: StartEnv)
    requires Inv(s)
    ensures Inv(StartAll(s, props, zk, yarn, hbase).post)
  {
    var z := StartZookeeper(s, props, zk);
    StartZookeeperInv(s, props, zk);
    if z.result.Normal? {
      var y := StartYarn(z.post, props, yarn);
      StartYarnInv(z.post, props, yarn);
      if y.result.Normal? {
        StartHBaseInv(y.post, props, zk, hbase);
      }
    }
  }

  lemma StopAllInv(s: State, hbaseStop: Effect, zkStop: Effect)
    requires Inv(s)
    ensures Inv(StopAll(s, hbaseStop, zkStop).post)
  {
    HaltInv(s, Hbase, hbaseStop);
    HaltInv(StopHBase(s, hbaseStop).post, Zookeeper, zkStop);
  }

  lemma ApplyInv(s: State, c: Call)
    requires Inv(s)
    ensures Inv(Apply(s, c))
  {
    match c
    case StartAllCall(props, zk, yarn, hbase) => StartAllInv(s, props, zk, yarn, hbase);
    case StartZookeeperCall(props, zk) => StartZookeeperInv(s, props, zk);
    case SetUpCall(props, build) => SetUpInv(s, props, build);
    case StartYarnCall(props, build) => StartYarnInv(s, props, build);
    case StartHBaseCall(props, zk, hbase) => StartHBaseInv(s, props, zk, hbase);
    case StopAllCall(hbaseStop, zkStop) => StopAllInv(s, hbaseStop, zkStop);
    case StopZookeeperCall(stop) => HaltInv(s, Zookeeper, stop);
    case StopHdfsCall(stop) => HaltInv(s, Hdfs, stop);
    case StopHBaseCall(stop) => HaltInv(s, Hbase, stop);
  }

  lemma {:induction false} RunInv(s: State, calls: seq<Call>)
    requires Inv(s)
    ensures Inv(Run(s, calls))
    decreases |calls|
  {
    if calls != [] {
      ApplyInv(s, calls[0]);
      RunInv(Apply(s, calls[0]), calls[1..]);
    }
  }

  /** No double start and no double stop of ZooKeeper or HBase: in any
      reachable state each lifecycle alternates start, stop, start, ...,
      each stop hits the object the preceding start launched, the flag is
      set exactly when the last event is a start, and then the handle field
      holds the started object. */
  lemma NoDoubleStartOrStop(calls: seq<Call>)
    ensures Tracks(Run(Init, calls).trace, Zookeeper, Run(Init, calls).zookeeperStarted,
                   Run(Init, calls).zookeeper)
    ensures Tracks(Run(Init, calls).trace, Hbase, Run(Init, calls).hbaseStarted,
                   Run(Init, calls).hbase)
  {
    InitInv();
    RunInv(Init, calls);
  }

  /** Returned starts minus returned stops is 1 while the flag is set and 0
      otherwise, for ZooKeeper and for HBase. */
  lemma StartStopBalance(calls: seq<Call>)
    ensures var s := Run(Init, calls);
      Starts(s.trace, Zookeeper) - Stops(s.trace, Zookeeper) == (if s.zookeeperStarted then 1 else 0)
    ensures var s := Run(Init, calls);
      Starts(s.trace, Hbase) - Stops(s.trace, Hbase) == (if s.hbaseStarted then 1 else 0)
  {
    var s := Run(Init, calls);
    InitInv();
    RunInv(Init, calls);
    Balance(s.trace, Zookeeper);
    Balance(s.trace, Hbase);
  }

  /** A set flag always comes with a non-null handle field. */
  lemma RunningHasHandle(calls: seq<Call>)
    ensures Run(Init, calls).zookeeperStarted ==> Run(Init, calls).zookeeper.Some?
    ensures Run(Init, calls).hbaseStarted ==> Run(Init, calls).hbase.Some?
  {
    InitInv();
    RunInv(Init, calls);
  }

  /** `setUp` and `startYarn` never start anything nor set a flag, so HDFS
      and YARN are never running and `stopHDFS` never does anything. */
  lemma HdfsAndYarnNeverRun(calls: seq<Call>, stop: Effect)
    ensures var s := Run(Init, calls);
      && !s.hdfsStarted && !s.yarnStarted
      && Starts(s.trace, Hdfs) == 0 && Starts(s.trace, Yarn) == 0
      && StopHdfs(s, stop) == Transition(s, Normal(()))
  {
    var s := Run(Init, calls);
    InitInv();
    RunInv(Init, calls);
    NoLifecycleNoCalls(s.trace, Hdfs);
    NoLifecycleNoCalls(s.trace, Yarn);
  }

  /** The object `startZookeeper` builds has an id never seen before: no
      earlier library call and no handle field mentions it. */
  lemma StartZookeeperUsesFreshHandle(calls: seq<Call>, props: Properties, env: StartEnv)
    ensures var s := Run(Init, calls);
      var r := StartZookeeper(s, props, env);
      !s.zookeeperStarted && r.result.Normal? ==>
        && r.result.value.Some?
        && (forall i :: 0 <= i < |s.trace| ==> s.trace[i].id != r.result.value.value)
        && s.zookeeper != r.result.value && s.hbase != r.result.value && s.hdfs != r.result.value
  {
    InitInv();
    RunInv(Init, calls);
  }

  /** From `s`, a `startZookeeper` whose `start()` throws followed by a
      retry that returns leaves the first object in no field, and the trace
      shows it only as built: it was never started or stopped. */
  ghost predicate LeaksFirstObject(s: State, props: Properties, failed: StartEnv, retry: StartEnv)
  {
    var first := StartZookeeper(s, props, failed);
    var second := StartZookeeper(first.post, props, retry);
    !s.zookeeperStarted && BuildReturns(props, ZookeeperIntKeys, failed.build) &&
    second.result.Normal? ==>
      && first.result.Abrupt?
      && first.post.zookeeper == Some(s.nextId)
      && second.post.zookeeper == Some(s.nextId + 1)
      && second.post.hbase != Some(s.nextId) && second.post.hdfs != Some(s.nextId)
      && (forall i :: 0 <= i < |second.post.trace| && second.post.trace[i].id == s.nextId ==>
            second.post.trace[i] == Built(Zookeeper, s.nextId))
  }

  /** A `start()` that throws leaves its object in the field; a retry that
      succeeds overwrites it, and that first object is leaked. */
  lemma FailedStartLeaksHandle(calls: seq<Call>, props: Properties, failed: StartEnv, retry: StartEnv)
    requires failed.start == Throws
    ensures LeaksFirstObject(Run(Init, calls), props, failed, retry)
  {
    var s := Run(Init, calls);
    InitInv();
    RunInv(Init, calls);
    LeakedHandle(s, props, failed, retry);
  }

  lemma LeakedHandle(s: State, props: Properties, failed: StartEnv, retry: StartEnv)
    requires IdsBelow(s) && failed.start == Throws
    ensures LeaksFirstObject(s, props, failed, retry)
  {
    var first := StartZookeeper(s, props, failed);
    var second := StartZookeeper(first.post, props, retry);
    if !s.zookeeperStarted && BuildReturns(props, ZookeeperIntKeys, failed.build) &&
       second.result.Normal? {
      assert second.post.trace == s.trace + [Built(Zookeeper, s.nextId), Built(Zookeeper, s.nextId + 1),
                                             Started(Zookeeper, s.nextId + 1)];
    }
  }
}
