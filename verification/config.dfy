/** The configuration keys the lifecycle code reads. They are constants of
    the embedded-cluster library's `ConfigVars` class; only their names
    matter to this model. String and boolean keys are only handed to the
    builders (a missing one passes `null` or `false`), so only the integer
    keys and the two directory keys appear here. */
module ConfigVars {

  const ZookeeperPortKey: string := "zookeeper.port"
  const ZookeeperTempDirKey: string := "zookeeper.temp.dir"

  const HdfsNamenodePortKey: string := "hdfs.namenode.port"
  const HdfsNumDatanodesKey: string := "hdfs.num.datanodes"

  const YarnNumNodeManagersKey: string := "yarn.num.node.managers"
  const YarnNumLocalDirsKey: string := "yarn.num.local.dirs"
  const YarnNumLogDirsKey: string := "yarn.num.log.dirs"

  const HbaseMasterPortKey: string := "hbase.master.port"
  const HbaseMasterInfoPortKey: string := "hbase.master.info.port"
  const HbaseNumRegionServersKey: string := "hbase.num.region.servers"
  const HbaseRootDirKey: string := "hbase.root.dir"

  /** Keys each starter passes through `Integer.parseInt` before `build()`. */
  const ZookeeperIntKeys: seq<string> := [ZookeeperPortKey]
  const HdfsIntKeys: seq<string> := [HdfsNamenodePortKey, HdfsNumDatanodesKey]
  const YarnIntKeys: seq<string> :=
    [YarnNumNodeManagersKey, YarnNumLocalDirsKey, YarnNumLogDirsKey]
  const HbaseIntKeys: seq<string> :=
    [HbaseMasterPortKey, HbaseMasterInfoPortKey, HbaseNumRegionServersKey, ZookeeperPortKey]
}

/** A loaded `java.util.Properties`, as a plain key/value map. */
module Config {
  import opened Wrappers

  type Properties = map<string, string>

  /** `Properties.getProperty`: the value stored under `key`, or null. */
  function GetProperty(props: Properties, key: string): (r: Option<string>)
    ensures r.Some? <==> key in props
    ensures r.Some? ==> r.value == props[key]
  {
    if key in props then Some(props[key]) else None
  }

  /** Whether the configuration-reading half of a starter gets as far as a
      built handle. `Integer.parseInt(null)` always throws, so a missing
      integer key is fatal; for present keys, `build` says whether parsing
      and the library's `build()` returned. */
  predicate BuildReturns(props: Properties, intKeys: seq<string>, build: Effect)
  {
    && build == Returns
    && forall k :: k in intKeys ==> GetProperty(props, k).Some?
  }
}
