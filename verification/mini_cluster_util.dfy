/** The static lifecycle state of `MiniClusterUtil` and its public static
    methods, each a pure transition from the state before the call to the
    state after it and the way the call completed. */
module MiniClusterUtil {
  import opened Wrappers
  import opened Config
  import opened ConfigVars
  import opened Events

  /** The class's static fields, plus what the embedded-cluster library has
      seen: the id the next built cluster object gets, and the trace of its
      calls that returned. There is no YARN handle field: `startYarn` keeps
      its cluster object in a local variable. */
  datatype State = State(
    zookeeperStarted: bool,
    yarnStarted: bool,
    hdfsStarted: bool,
    hbaseStarted: bool,
    zookeeper: Option<HandleId>,
    hdfs: Option<HandleId>,
    hbase: Option<HandleId>,
    nextId: HandleId,
    trace: seq<Event>)
  {
    /** The lifecycle flag of `svc`. */
    function Running(svc: Service): bool
    {
      match svc
      case Zookeeper => zookeeperStarted
      case Hdfs => hdfsStarted
      case Yarn => yarnStarted
      case Hbase => hbaseStarted
    }

    /** The handle field of `svc` (YARN has none). */
    function Handle(svc: Service): Option<HandleId>
    {
      match svc
      case Zookeeper => zookeeper
      case Hdfs => hdfs
      case Yarn => None
      case Hbase => hbase
    }

    function WithRunning(svc: Service, b: bool): State
    {
      match svc
      case Zookeeper => this.(zookeeperStarted := b)
      case Hdfs => this.(hdfsStarted := b)
      case Yarn => this.(yarnStarted := b)
      case Hbase => this.(hbaseStarted := b)
    }

    function WithHandle(svc: Service, h: Option<HandleId>): State
    {
      match svc
      case Zookeeper => this.(zookeeper := h)
      case Hdfs => this.(hdfs := h)
      case Yarn => this
      case Hbase => this.(hbase := h)
    }
  }

  /** Class initialisation: every flag false, every handle null. */
  const Init: State := State(false, false, false, false, None, None, None, 0, [])

  /** The state after a call, and how the call completed. */
  datatype Transition<+T> = Transition(post: State, result: Completion<T>)

  /** How the foreign steps of one start went: `build` covers the parsing of
      the configuration and the builder's `build()`, `start` the cluster's
      `start()`. */
  datatype StartEnv = StartEnv(build: Effect, start: Effect)

  function Emit(s: State, e: Event): State
  {
    s.(trace := s.trace + [e])
  }

  /** A builder's `build()` that returned: a cluster object with a fresh id. */
  function Build(s: State, svc: Service): (State, HandleId)
  {
    (Emit(s.(nextId := s.nextId + 1), Built(svc, s.nextId)), s.nextId)
  }

  /** The guarded body shared by `startZookeeper` and `startHBASE`: parse and
      build, store the new object in the handle field, call `start()`, and
      only once it returns set the flag. */
  function Launch(s: State, svc: Service, props: Properties, intKeys: seq<string>, env: StartEnv)
    : (r: Transition<Option<HandleId>>)
    requires svc == Zookeeper || svc == Hbase
    ensures r.result.Normal? <==> BuildReturns(props, intKeys, env.build) && env.start == Returns
    ensures !BuildReturns(props, intKeys, env.build) ==> r == Transition(s, Abrupt)
    ensures BuildReturns(props, intKeys, env.build) && env.start == Throws ==>
      r.post == s.WithHandle(svc, Some(s.nextId)).(nextId := s.nextId + 1,
                                                   trace := s.trace + [Built(svc, s.nextId)])
    ensures r.result.Normal? ==>
      && r.result.value == Some(s.nextId)
      && r.post == s.WithHandle(svc, Some(s.nextId)).WithRunning(svc, true).(
           nextId := s.nextId + 1,
           trace := s.trace + [Built(svc, s.nextId), Started(svc, s.nextId)])
  {
    if !BuildReturns(props, intKeys, env.build) then Transition(s, Abrupt)
    else
      var (built, id) := Build(s, svc);
      var stored := built.WithHandle(svc, Some(id));
      if env.start == Throws then Transition(stored, Abrupt)
      else
        var running := Emit(stored, Started(svc, id)).WithRunning(svc, true);
        Transition(running, Normal(running.Handle(svc)))
  }

  /** The guarded body shared by the three `stop*` methods. A set flag with a
      null handle field would throw `NullPointerException`. */
  function Halt(s: State, svc: Service, stop: Effect): Transition<()>
  {
    if !s.Running(svc) then Transition(s, Normal(()))
    else match s.Handle(svc)
      case None => Transition(s, Abrupt)
      case Some(id) =>
        if stop == Throws then Transition(s, Abrupt)
        else Transition(Emit(s, Stopped(svc, id)).WithRunning(svc, false), Normal(()))
  }

  /** `startZookeeper(props)`. */
  function StartZookeeper(s: State, props: Properties, env: StartEnv): (r: Transition<Option<HandleId>>)
    // already running: nothing changes, nothing is called, the stored handle comes back
    ensures s.zookeeperStarted ==> r == Transition(s, Normal(s.zookeeper))
    // it returns exactly when it was running or every foreign step returned
    ensures r.result.Normal? <==>
      s.zookeeperStarted || (BuildReturns(props, ZookeeperIntKeys, env.build) && env.start == Returns)
    // a normal return always hands back the stored handle, and leaves ZooKeeper running
    ensures r.result.Normal? ==> r.result.value == r.post.zookeeper && r.post.zookeeperStarted
    // started from stopped: the fresh object is stored and started once
    ensures !s.zookeeperStarted && r.result.Normal? ==>
      && r.post.zookeeper == Some(s.nextId)
      && r.post.nextId == s.nextId + 1
      && r.post.trace == s.trace + [Built(Zookeeper, s.nextId), Started(Zookeeper, s.nextId)]
    // parsing or build() threw: nothing changed
    ensures !s.zookeeperStarted && !BuildReturns(props, ZookeeperIntKeys, env.build) ==>
      r == Transition(s, Abrupt)
    // start() threw: the flag stays false but the field already holds the new object
    ensures !s.zookeeperStarted && BuildReturns(props, ZookeeperIntKeys, env.build) && env.start == Throws ==>
      && r.result.Abrupt?
      && !r.post.zookeeperStarted
      && r.post.zookeeper == Some(s.nextId)
      && r.post.nextId == s.nextId + 1
      && r.post.trace == s.trace + [Built(Zookeeper, s.nextId)]
    // every foreign call it makes is on ZooKeeper
    ensures s.trace <= r.post.trace
    ensures forall i :: |s.trace| <= i < |r.post.trace| ==> r.post.trace[i].service == Zookeeper
    // nothing but ZooKeeper's flag and field, the id counter and the trace changes
    ensures r.post.(zookeeperStarted := s.zookeeperStarted, zookeeper := s.zookeeper,
                    nextId := s.nextId, trace := s.trace) == s
  {
    if s.zookeeperStarted then Transition(s, Normal(s.zookeeper))
    else Launch(s, Zookeeper, props, ZookeeperIntKeys, env)
  }

  /** `setUp(props)`: builds the HDFS cluster object and stores it, but
      never starts it and never sets `hdfsStarted`. */
  function SetUp(s: State, props: Properties, build: Effect): (r: Transition<()>)
    ensures r.result.Normal? <==> BuildReturns(props, HdfsIntKeys, build)
    ensures r.result.Abrupt? ==> r.post == s
    ensures r.result.Normal? ==>
      && r.post.hdfs == Some(s.nextId)
      && r.post.nextId == s.nextId + 1
      && r.post.trace == s.trace + [Built(Hdfs, s.nextId)]
    ensures r.post.(hdfs := s.hdfs, nextId := s.nextId, trace := s.trace) == s
  {
    if !BuildReturns(props, HdfsIntKeys, build) then Transition(s, Abrupt)
    else
      var (built, id) := Build(s, Hdfs);
      Transition(built.(hdfs := Some(id)), Normal(()))
  }

  /** `startYarn(props)`: builds a YARN cluster object and returns it,
      without starting it, storing it, or setting `yarnStarted`. */
  function StartYarn(s: State, props: Properties, build: Effect): (r: Transition<HandleId>)
    ensures r.result.Normal? <==> BuildReturns(props, YarnIntKeys, build)
    ensures r.result.Abrupt? ==> r.post == s
    ensures r.result.Normal? ==>
      && r.result.value == s.nextId
      && r.post.nextId == s.nextId + 1
      && r.post.trace == s.trace + [Built(Yarn, s.nextId)]
    ensures r.post.(nextId := s.nextId, trace := s.trace) == s
  {
    if !BuildReturns(props, YarnIntKeys, build) then Transition(s, Abrupt)
    else
      var (built, id) := Build(s, Yarn);
      Transition(built, Normal(id))
  }

  /** Every start of `first` appended after position `from` comes before
      every build or start of `second` appended after it. */
  predicate StartsBefore(t: seq<Event>, from: nat, first: Service, second: Service)
  {
    forall i, j ::
      (from <= i < |t| && from <= j < |t| &&
       t[i].Started? && t[i].service == first &&
       !t[j].Stopped? && t[j].service == second) ==> i < j
  }

  /** `startHBASE(props)`: always calls `startZookeeper` first, then starts
      HBase unless its flag is already set. */
  function StartHBase(s: State, props: Properties, zkEnv: StartEnv, hbaseEnv: StartEnv)
    : (r: Transition<Option<HandleId>>)
    ensures s.trace <= r.post.trace
    // a normal return leaves both services running and hands back the HBase field
    ensures r.result.Normal? ==>
      r.post.zookeeperStarted && r.post.hbaseStarted && r.result.value == r.post.hbase
    // ZooKeeper failing aborts the call before HBase is touched
    ensures StartZookeeper(s, props, zkEnv).result.Abrupt? ==>
      r == Transition(StartZookeeper(s, props, zkEnv).post, Abrupt)
    // once ZooKeeper is up it stays up, whatever HBase does: there is no rollback
    ensures StartZookeeper(s, props, zkEnv).result.Normal? ==> r.post.zookeeperStarted
    // HBase already running: only ZooKeeper may be (re)started
    ensures s.hbaseStarted ==>
      && r.post == StartZookeeper(s, props, zkEnv).post
      && r.post.hbaseStarted && r.post.hbase == s.hbase
      && forall i :: |s.trace| <= i < |r.post.trace| ==> r.post.trace[i].service == Zookeeper
    // both running: nothing at all happens
    ensures s.zookeeperStarted && s.hbaseStarted ==> r == Transition(s, Normal(s.hbase))
    // HBase started from stopped: one fresh object is stored and started once
    ensures !s.hbaseStarted && r.result.Normal? ==>
      var zk := StartZookeeper(s, props, zkEnv).post;
      && r.post.hbase == Some(zk.nextId)
      && r.post.nextId == zk.nextId + 1
      && r.post.trace == zk.trace + [Built(Hbase, zk.nextId), Started(Hbase, zk.nextId)]
    // it returns exactly when ZooKeeper's start returned and HBase was running
    // or every HBase foreign step returned
    ensures r.result.Normal? <==>
      && StartZookeeper(s, props, zkEnv).result.Normal?
      && (s.hbaseStarted || (BuildReturns(props, HbaseIntKeys, hbaseEnv.build) && hbaseEnv.start == Returns))
    // HBase parsing or build() threw: only ZooKeeper's part of the call took effect
    ensures StartZookeeper(s, props, zkEnv).result.Normal? && !s.hbaseStarted &&
            !BuildReturns(props, HbaseIntKeys, hbaseEnv.build) ==>
      r == Transition(StartZookeeper(s, props, zkEnv).post, Abrupt)
    // HBase's start() threw: the flag stays false but the field already holds the new object
    ensures StartZookeeper(s, props, zkEnv).result.Normal? && !s.hbaseStarted &&
            BuildReturns(props, HbaseIntKeys, hbaseEnv.build) && hbaseEnv.start == Throws ==>
      var zk := StartZookeeper(s, props, zkEnv).post;
      && r.result.Abrupt?
      && !r.post.hbaseStarted
      && r.post.hbase == Some(zk.nextId)
      && r.post.nextId == zk.nextId + 1
      && r.post.trace == zk.trace + [Built(Hbase, zk.nextId)]
    // after ZooKeeper's part, only HBase's flag and field, the id counter and the trace change
    ensures StartZookeeper(s, props, zkEnv).result.Normal? ==>
      var zk := StartZookeeper(s, props, zkEnv).post;
      r.post.(hbaseStarted := zk.hbaseStarted, hbase := zk.hbase, nextId := zk.nextId,
              trace := zk.trace) == zk
    // every foreign call it makes is on ZooKeeper or HBase
    ensures forall i :: |s.trace| <= i < |r.post.trace| ==>
      r.post.trace[i].service == Zookeeper || r.post.trace[i].service == Hbase
    // HDFS and YARN are untouched
    ensures r.post.hdfsStarted == s.hdfsStarted && r.post.yarnStarted == s.yarnStarted
    ensures r.post.hdfs == s.hdfs
  {
    var zk := StartZookeeper(s, props, zkEnv);
    if zk.result.Abrupt? then Transition(zk.post, Abrupt)
    else if zk.post.hbaseStarted then Transition(zk.post, Normal(zk.post.hbase))
    else Launch(zk.post, Hbase, props, HbaseIntKeys, hbaseEnv)
  }

  /** `startAll(props)`: ZooKeeper, then YARN, then HBase; the first
      exception aborts the rest. */
  function StartAll(s: State, props: Properties, zkEnv: StartEnv, yarnBuild: Effect, hbaseEnv: StartEnv)
    : (r: Transition<()>)
    ensures r.result.Normal? ==> r.post.zookeeperStarted && r.post.hbaseStarted
    ensures r.result.Normal? <==>
      && StartZookeeper(s, props, zkEnv).result.Normal?
      && BuildReturns(props, YarnIntKeys, yarnBuild)
      && StartHBase(StartYarn(StartZookeeper(s, props, zkEnv).post, props, yarnBuild).post,
                    props, zkEnv, hbaseEnv).result.Normal?
    ensures StartZookeeper(s, props, zkEnv).result.Abrupt? ==>
      r == Transition(StartZookeeper(s, props, zkEnv).post, Abrupt)
    // YARN's build throwing aborts the call before HBase is touched
    ensures StartZookeeper(s, props, zkEnv).result.Normal? && !BuildReturns(props, YarnIntKeys, yarnBuild) ==>
      r == Transition(StartZookeeper(s, props, zkEnv).post, Abrupt)
    // once ZooKeeper is up it stays up, whatever YARN and HBase do: there is no rollback
    ensures StartZookeeper(s, props, zkEnv).result.Normal? ==> r.post.zookeeperStarted
    ensures s.trace <= r.post.trace
    // YARN's object is built but never started, and its flag never moves
    ensures forall i :: |s.trace| <= i < |r.post.trace| && r.post.trace[i].service == Yarn ==>
      r.post.trace[i].Built?
    // once ZooKeeper and the YARN build returned, the rest is exactly `startHBASE`
    ensures StartZookeeper(s, props, zkEnv).result.Normal? && BuildReturns(props, YarnIntKeys, yarnBuild) ==>
      r.post == StartHBase(StartYarn(StartZookeeper(s, props, zkEnv).post, props, yarnBuild).post,
                           props, zkEnv, hbaseEnv).post
    // HBase started from stopped: YARN's object, then HBase's, are built, and only HBase's is started
    ensures !s.hbaseStarted && r.result.Normal? ==>
      var zk := StartZookeeper(s, props, zkEnv).post;
      && r.post.hbase == Some(zk.nextId + 1)
      && r.post.trace == zk.trace + [Built(Yarn, zk.nextId), Built(Hbase, zk.nextId + 1),
                                     Started(Hbase, zk.nextId + 1)]
    // a normal return built exactly one YARN object, right after ZooKeeper's part
    ensures r.result.Normal? ==>
      var zk := StartZookeeper(s, props, zkEnv).post;
      && zk.trace + [Built(Yarn, zk.nextId)] <= r.post.trace
      && forall i :: |zk.trace| < i < |r.post.trace| ==> r.post.trace[i].service != Yarn
    ensures r.post.yarnStarted == s.yarnStarted && r.post.hdfsStarted == s.hdfsStarted
  {
    var zk := StartZookeeper(s, props, zkEnv);
    if zk.result.Abrupt? then Transition(zk.post, Abrupt)
    else
      var yarn := StartYarn(zk.post, props, yarnBuild);
      if yarn.result.Abrupt? then Transition(yarn.post, Abrupt)
      else
        var hbase := StartHBase(yarn.post, props, zkEnv, hbaseEnv);
        Transition(hbase.post, if hbase.result.Abrupt? then Abrupt else Normal(()))
  }

  /** `stopZookeeper()`. */
  function StopZookeeper(s: State, stop: Effect): (r: Transition<()>)
    ensures !s.zookeeperStarted ==> r == Transition(s, Normal(()))
    ensures r.result.Normal? <==> !s.zookeeperStarted || (s.zookeeper.Some? && stop == Returns)
    ensures r.result.Abrupt? ==> r.post == s
    // a stop that returned clears only ZooKeeper's flag and records one stop of the stored object
    ensures s.zookeeperStarted && r.result.Normal? ==>
      && !r.post.zookeeperStarted
      && r.post.trace == s.trace + [Stopped(Zookeeper, s.zookeeper.value)]
    ensures r.post.(zookeeperStarted := s.zookeeperStarted, trace := s.trace) == s
  {
    Halt(s, Zookeeper, stop)
  }

  /** `stopHDFS()`. */
  function StopHdfs(s: State, stop: Effect): (r: Transition<()>)
    ensures !s.hdfsStarted ==> r == Transition(s, Normal(()))
    ensures r.result.Normal? <==> !s.hdfsStarted || (s.hdfs.Some? && stop == Returns)
    ensures r.result.Abrupt? ==> r.post == s
    ensures s.hdfsStarted && r.result.Normal? ==>
      && !r.post.hdfsStarted
      && r.post.trace == s.trace + [Stopped(Hdfs, s.hdfs.value)]
    ensures r.post.(hdfsStarted := s.hdfsStarted, trace := s.trace) == s
  {
    Halt(s, Hdfs, stop)
  }

  /** `stopHBASE()`. */
  function StopHBase(s: State, stop: Effect): (r: Transition<()>)
    ensures !s.hbaseStarted ==> r == Transition(s, Normal(()))
    ensures r.result.Normal? <==> !s.hbaseStarted || (s.hbase.Some? && stop == Returns)
    ensures r.result.Abrupt? ==> r.post == s
    ensures s.hbaseStarted && r.result.Normal? ==>
      && !r.post.hbaseStarted
      && r.post.trace == s.trace + [Stopped(Hbase, s.hbase.value)]
    ensures r.post.(hbaseStarted := s.hbaseStarted, trace := s.trace) == s
  {
    Halt(s, Hbase, stop)
  }

  /** Every stop of `first` appended after position `from` comes before
      every stop of `second` appended after it. */
  predicate StopsBefore(t: seq<Event>, from: nat, first: Service, second: Service)
  {
    forall i, j ::
      (from <= i < |t| && from <= j < |t| &&
       t[i].Stopped? && t[i].service == first &&
       t[j].Stopped? && t[j].service == second) ==> i < j
  }

  /** `stopAll()`: HBase, then ZooKeeper; HDFS and YARN are not stopped. */
  function StopAll(s: State, hbaseStop: Effect, zkStop: Effect): (r: Transition<()>)
    ensures s.trace <= r.post.trace
    // it returns exactly when each running service's stop() returned
    ensures r.result.Normal? <==>
      && (!s.hbaseStarted || (s.hbase.Some? && hbaseStop == Returns))
      && (!s.zookeeperStarted || (s.zookeeper.Some? && zkStop == Returns))
    ensures r.result.Normal? ==> !r.post.zookeeperStarted && !r.post.hbaseStarted
    // a normal return stopped the running HBase object, then the running ZooKeeper object
    ensures r.result.Normal? ==>
      r.post.trace == s.trace
        + (if s.hbaseStarted then [Stopped(Hbase, s.hbase.value)] else [])
        + (if s.zookeeperStarted then [Stopped(Zookeeper, s.zookeeper.value)] else [])
    ensures StopsBefore(r.post.trace, |s.trace|, Hbase, Zookeeper)
    // ZooKeeper's stop throwing leaves HBase's stop done and ZooKeeper as it was
    ensures StopHBase(s, hbaseStop).result.Normal? && StopZookeeper(s, zkStop).result.Abrupt? ==>
      r == Transition(StopHBase(s, hbaseStop).post, Abrupt)
    // HBase's stop throwing leaves everything, ZooKeeper included, as it was
    ensures StopHBase(s, hbaseStop).result.Abrupt? ==> r == Transition(s, Abrupt)
    // only the two flags and the trace change: handles stay, HDFS and YARN are untouched
    ensures r.post.(zookeeperStarted := s.zookeeperStarted, hbaseStarted := s.hbaseStarted,
                    trace := s.trace) == s
  {
    var hbase := StopHBase(s, hbaseStop);
    if hbase.result.Abrupt? then hbase
    else StopZookeeper(hbase.post, zkStop)
  }

  /** `getZookeeperLocalCluster()`: the field, whatever the flag says. */
  function GetZookeeperLocalCluster(s: State): Option<HandleId>
  {
    s.zookeeper
  }

  /** `getHbaseLocalCluster()`: the field, whatever the flag says. */
  function GetHbaseLocalCluster(s: State): Option<HandleId>
  {
    s.hbase
  }

  /** `getHBaseDir(props)`: the configured HBase root directory, or null. */
  function GetHBaseDir(props: Properties): (r: Option<string>)
    ensures r.Some? <==> HbaseRootDirKey in props
    ensures r.Some? ==> r.value == props[HbaseRootDirKey]
  {
    GetProperty(props, HbaseRootDirKey)
  }

  /** `getZookeeperDir(props)`: the configured ZooKeeper temp directory, or null. */
  function GetZookeeperDir(props: Properties): (r: Option<string>)
    ensures r.Some? <==> ZookeeperTempDirKey in props
    ensures r.Some? ==> r.value == props[ZookeeperTempDirKey]
  {
    GetProperty(props, ZookeeperTempDirKey)
  }
}
