/** Properties of single calls and short call sequences on
    `MiniClusterUtil`: dependency order, idempotence, and what a stop leaves
    behind. */
module CallProperties {
  import opened Wrappers
  import opened Config
  import opened ConfigVars
  import opened Events
  import opened MiniClusterUtil

  /** A ZooKeeper start caused by `startHBASE` comes before HBase's object
      is built or started. */
  lemma StartHBaseStartsZookeeperFirst(s: State, props: Properties, zkEnv: StartEnv, hbaseEnv: StartEnv)
    ensures StartsBefore(StartHBase(s, props, zkEnv, hbaseEnv).post.trace, |s.trace|, Zookeeper, Hbase)
  {
  }

  /** Once `startZookeeper` has returned, calling it again changes nothing
      and returns the same handle, however its foreign steps would go. */
  lemma StartZookeeperIdempotent(s: State, props: Properties, first: StartEnv, again: StartEnv)
    ensures var r := StartZookeeper(s, props, first);
      r.result.Normal? ==> StartZookeeper(r.post, props, again) == r
  {
  }

  /** Once `startHBASE` has returned, calling it again changes nothing and
      returns the same handle, however its foreign steps would go. */
  lemma StartHBaseIdempotent(s: State, props: Properties, zk: StartEnv, hbase: StartEnv,
                             zkAgain: StartEnv, hbaseAgain: StartEnv)
    ensures var r := StartHBase(s, props, zk, hbase);
      r.result.Normal? ==> StartHBase(r.post, props, zkAgain, hbaseAgain) == r
  {
  }

  /** A second stop after one that returned does nothing, for each service. */
  lemma StopIdempotent(s: State, first: Effect, again: Effect)
    ensures var r := StopZookeeper(s, first);
      r.result.Normal? ==> StopZookeeper(r.post, again) == Transition(r.post, Normal(()))
    ensures var r := StopHBase(s, first);
      r.result.Normal? ==> StopHBase(r.post, again) == Transition(r.post, Normal(()))
    ensures var r := StopHdfs(s, first);
      r.result.Normal? ==> StopHdfs(r.post, again) == Transition(r.post, Normal(()))
  {
  }

  /** Stopping never clears a handle field: after `stopAll` returns, both
      services are marked stopped but the getters still return the objects
      they held before. */
  lemma StopAllLeavesStaleHandles(s: State, hbaseStop: Effect, zkStop: Effect)
    ensures var r := StopAll(s, hbaseStop, zkStop);
      && GetZookeeperLocalCluster(r.post) == GetZookeeperLocalCluster(s)
      && GetHbaseLocalCluster(r.post) == GetHbaseLocalCluster(s)
      && (r.result.Normal? && s.zookeeperStarted && s.hbaseStarted ==>
            !r.post.zookeeperStarted && !r.post.hbaseStarted &&
            GetZookeeperLocalCluster(r.post).Some? && GetHbaseLocalCluster(r.post).Some?)
  {
  }

  /** A configuration holding every integer key ZooKeeper and HBase parse. */
  const StartableProps: Properties := map[
    ZookeeperPortKey := "2181",
    HbaseMasterPortKey := "25111",
    HbaseMasterInfoPortKey := "-1",
    HbaseNumRegionServersKey := "1"]

  /** `hbaseStarted ==> zookeeperStarted` holds after `startHBASE` but a lone
      `stopZookeeper` breaks it: HBase stays marked running on a stopped
      ZooKeeper. */
  lemma StopZookeeperStrandsHBase()
    ensures var ok := StartEnv(Returns, Returns);
      var up := StartHBase(Init, StartableProps, ok, ok);
      var down := StopZookeeper(up.post, Returns);
      && up.result.Normal? && up.post.hbaseStarted && up.post.zookeeperStarted
      && down.result.Normal? && down.post.hbaseStarted && !down.post.zookeeperStarted
  {
  }

  /** The integration test's lifecycle: `startHBASE` from a fresh class and
      then `stopAll` launch and stop each object once, HBase stopped first,
      and leave both flags false with both handles still set. */
  lemma StartHBaseThenStopAll(props: Properties, zk: StartEnv, hbase: StartEnv)
    ensures var up := StartHBase(Init, props, zk, hbase);
      var down := StopAll(up.post, Returns, Returns);
      up.result.Normal? ==>
        && down.result.Normal?
        && !down.post.zookeeperStarted && !down.post.hbaseStarted
        && down.post.trace == [Built(Zookeeper, 0), Started(Zookeeper, 0),
                               Built(Hbase, 1), Started(Hbase, 1),
                               Stopped(Hbase, 1), Stopped(Zookeeper, 0)]
        && GetZookeeperLocalCluster(down.post) == Some(0)
        && GetHbaseLocalCluster(down.post) == Some(1)
  {
  }

  /** The directory lookups read one key each and nothing else. */
  lemma DirLookupsReadOneKey(props: Properties, k: string, v: string)
    ensures k != HbaseRootDirKey ==> GetHBaseDir(props[k := v]) == GetHBaseDir(props)
    ensures k != ZookeeperTempDirKey ==> GetZookeeperDir(props[k := v]) == GetZookeeperDir(props)
    ensures GetHBaseDir(props[HbaseRootDirKey := v]) == Some(v)
    ensures GetZookeeperDir(props[ZookeeperTempDirKey := v]) == Some(v)
  {
  }
}
