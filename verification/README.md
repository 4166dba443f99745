# MiniClusterUtil lifecycle model

`MiniClusterUtil` starts and stops in-JVM "mini-clusters" (ZooKeeper, HDFS,
YARN, HBase) for integration tests. Its only logic of its own is a
process-wide lifecycle state machine: four static flags
(`zookeeperStarted`, `yarnStarted`, `hdfsStarted`, `hbaseStarted`), three
static handle fields (ZooKeeper, HDFS, HBase cluster objects), guarded
`startZookeeper` and `startHBASE` methods, guarded `stop*` methods, and
getters. This project models
that state machine in Dafny and proves what it does and does not guarantee.

The model is functional. `MiniClusterUtil.State` holds the flags, the handle
fields as `Option<HandleId>` (`None` is `null`), a counter that gives every
built cluster object a fresh id, and a trace of the embedded-cluster library
calls that returned (`Built`, `Started`, `Stopped`, each tagged with a
service and an id). Each public static method is a function from the state
before the call to a `Transition`: the state after it, and whether the call
returned (`Normal`) or threw (`Abrupt`). Because the fields are static, a
call that throws keeps every assignment it made before the throw.

The embedded-cluster library is foreign. Each call into it takes an
`Effect` parameter (`Returns` or `Throws`):

- A start takes a `StartEnv`. Its `build` effect covers parsing the
  configuration and the builder's `build()`. Its `start` effect covers the
  cluster's `start()`.
- A stop takes a single effect for the cluster's `stop()`.
- `Integer.parseInt(null)` always throws, so a missing integer key makes
  the build step throw whatever `build` says.
- `Boolean.parseBoolean` never throws, so boolean keys play no part.

Modules:

- `Wrappers`: `Option`, `Effect` and `Completion`.
- `ConfigVars`: the configuration keys. `Config`: the properties map and the
  build-step predicate.
- `Events`: handles, services and events. It also defines the per-service
  start/stop projection of a trace (`Lifecycle`), the no-double-start shape
  (`Alternating`), the counts `Starts` and `Stops`, and the `Balance` lemma
  linking them.
- `MiniClusterUtil`: the state and one function per modelled public method. The
  getters `getZookeeperLocalCluster` and `getHbaseLocalCluster` are the
  plain field reads `GetZookeeperLocalCluster` and `GetHbaseLocalCluster`;
  `StopAllLeavesStaleHandles` and `StartHBaseThenStopAll` state what they
  return.
- `Invariants`: arbitrary sequences of calls (`Call`, `Apply`, `Run`) and
  the invariant every reachable state satisfies.
- `CallProperties`: properties of single calls and short call sequences.

## Model

| member | source | states |
|---|---|---|
| MiniClusterUtil.StartZookeeper | src/main/java/edu/mayo/hadoop/commons/minicluster/MiniClusterUtil.java:67-78 | Already running: no state change, no library call, returns the stored handle. From stopped, a normal return sets the flag, stores a fresh object, and appends exactly `Built` then `Started` of it. A throw in parsing or `build()` changes nothing. A throw in `start()` leaves the flag false but the field already overwritten with the fresh object, the counter advanced and only its `Built` event appended. It returns normally iff it was running or every foreign step returned. It touches only ZooKeeper's flag and field |
| MiniClusterUtil.SetUp | src/main/java/edu/mayo/hadoop/commons/minicluster/MiniClusterUtil.java:80-85 | Builds an HDFS object and stores it in the field. It never starts it and never sets `hdfsStarted`. It throws iff the build step throws, and then changes nothing |
| MiniClusterUtil.StartYarn | src/main/java/edu/mayo/hadoop/commons/minicluster/MiniClusterUtil.java:87-105 | Returns a freshly built YARN object. It does not store or start it, and no flag or field changes |
| MiniClusterUtil.StartHBase | src/main/java/edu/mayo/hadoop/commons/minicluster/MiniClusterUtil.java:107-119 | It returns normally iff `startZookeeper` returned and HBase was running or every HBase foreign step returned. A normal return leaves both ZooKeeper and HBase running. A throw in HBase's parsing or `build()` keeps only ZooKeeper's effects. A throw in HBase's `start()` leaves its flag false but its field already overwritten. It calls the library only on ZooKeeper and HBase. A ZooKeeper failure aborts before HBase is touched. Once ZooKeeper is up it stays up, even if HBase fails (no rollback). With HBase already running it only (re)starts ZooKeeper and keeps the HBase handle. With both running nothing happens. From stopped, HBase's fresh object is built and started once. After ZooKeeper's part, only HBase's flag and field, the id counter and the trace change, so HDFS, YARN and ZooKeeper's field are untouched |
| MiniClusterUtil.StartAll | src/main/java/edu/mayo/hadoop/commons/minicluster/MiniClusterUtil.java:45-49 | Returns normally iff ZooKeeper, then the YARN build, then `startHBASE` all return, leaving ZooKeeper and HBase running. A ZooKeeper failure aborts the rest, and so does a YARN build failure, before HBase is touched. Once ZooKeeper is up it stays up (no rollback). Once ZooKeeper and the YARN build returned, the result is exactly that of `startHBASE`. A normal return builds exactly one YARN object, right after ZooKeeper's part, and never starts it; from a stopped HBase it then builds and starts one HBase object. The YARN and HDFS flags never move |
| MiniClusterUtil.StopAll | src/main/java/edu/mayo/hadoop/commons/minicluster/MiniClusterUtil.java:136-139 | It returns normally iff each running service's `stop()` returned (and its field was non-null). A normal return leaves both flags false, and the trace gains exactly a stop of the running HBase object followed by a stop of the running ZooKeeper object. Every HBase stop precedes every ZooKeeper stop. If HBase's stop throws, ZooKeeper is not touched. If ZooKeeper's stop throws, HBase stays stopped and the call throws. Only the two flags and the trace change: handles, HDFS and YARN stay as they were |
| MiniClusterUtil.StopZookeeper | src/main/java/edu/mayo/hadoop/commons/minicluster/MiniClusterUtil.java:141-146 | No-op when the flag is false. When it is true, a normal return clears only this flag and appends one `Stopped` of the stored object. The handle field is never cleared. A throw (from `stop()`, or a null field) changes nothing |
| MiniClusterUtil.StopHdfs | src/main/java/edu/mayo/hadoop/commons/minicluster/MiniClusterUtil.java:148-153 | Same guarded stop as ZooKeeper's, for the HDFS flag and field |
| MiniClusterUtil.StopHBase | src/main/java/edu/mayo/hadoop/commons/minicluster/MiniClusterUtil.java:155-160 | Same guarded stop as ZooKeeper's, for the HBase flag and field |
| MiniClusterUtil.GetHBaseDir | src/main/java/edu/mayo/hadoop/commons/minicluster/MiniClusterUtil.java:173-176 | The value under the HBase root-dir key, or null exactly when that key is absent |
| MiniClusterUtil.GetZookeeperDir | src/main/java/edu/mayo/hadoop/commons/minicluster/MiniClusterUtil.java:190-193 | The value under the ZooKeeper temp-dir key, or null exactly when that key is absent |
| Invariants.NoDoubleStartOrStop | src/main/java/edu/mayo/hadoop/commons/minicluster/MiniClusterUtil.java:67-160 | After any sequence of calls from class initialisation, ZooKeeper's and HBase's start/stop events alternate, starting with a start. Each stop acts on the object the preceding start launched. The flag is set iff the last event is a start, and then the field holds that started object |
| Invariants.StartStopBalance | src/main/java/edu/mayo/hadoop/commons/minicluster/MiniClusterUtil.java:67-160 | After any sequence of calls, for ZooKeeper and for HBase, returned starts minus returned stops is 1 when the flag is set and 0 otherwise |
| Invariants.RunningHasHandle | src/main/java/edu/mayo/hadoop/commons/minicluster/MiniClusterUtil.java:31-38 | In every reachable state, a set ZooKeeper or HBase flag comes with a non-null handle field |
| Invariants.HdfsAndYarnNeverRun | src/main/java/edu/mayo/hadoop/commons/minicluster/MiniClusterUtil.java:148-153 | In every reachable state `hdfsStarted` and `yarnStarted` are false, HDFS and YARN were never started, and `stopHDFS` is a no-op, because `setUp` and `startYarn` never set them |
| Invariants.StartZookeeperUsesFreshHandle | src/main/java/edu/mayo/hadoop/commons/minicluster/MiniClusterUtil.java:69-75 | In a reachable state, the object a successful `startZookeeper` from a stopped ZooKeeper returns has an id that no earlier library call and no handle field mentions |
| Invariants.FailedStartLeaksHandle | src/main/java/edu/mayo/hadoop/commons/minicluster/MiniClusterUtil.java:73-75 | After a `start()` that throws, the field holds the unstarted object. A successful retry replaces it, and the first object is then held by no field and appears in the trace only as built: it is leaked |
| CallProperties.StartHBaseStartsZookeeperFirst | src/main/java/edu/mayo/hadoop/commons/minicluster/MiniClusterUtil.java:107-115 | Any ZooKeeper start caused by `startHBASE` precedes the build and start of HBase's object in the trace |
| CallProperties.StartZookeeperIdempotent | src/main/java/edu/mayo/hadoop/commons/minicluster/MiniClusterUtil.java:67-78 | After a normal return, a second `startZookeeper` leaves the state as it is and returns the same handle, whatever its foreign steps would do |
| CallProperties.StartHBaseIdempotent | src/main/java/edu/mayo/hadoop/commons/minicluster/MiniClusterUtil.java:107-119 | After a normal return, a second `startHBASE` leaves the state as it is and returns the same handle |
| CallProperties.StopIdempotent | src/main/java/edu/mayo/hadoop/commons/minicluster/MiniClusterUtil.java:141-160 | After a stop returns, stopping the same service again is a no-op (ZooKeeper, HBase, HDFS) |
| CallProperties.StopAllLeavesStaleHandles | src/main/java/edu/mayo/hadoop/commons/minicluster/MiniClusterUtil.java:162-168 | `stopAll` never changes what the getters return. After stopping two running services, both flags are false but both getters still return non-null objects |
| CallProperties.StopZookeeperStrandsHBase | src/main/java/edu/mayo/hadoop/commons/minicluster/MiniClusterUtil.java:136-146 | Counterexample: after `startHBASE` both flags are set, but a lone `stopZookeeper` then leaves `hbaseStarted` true with `zookeeperStarted` false. So `hbaseStarted ==> zookeeperStarted` is not an invariant |
| CallProperties.StartHBaseThenStopAll | src/test/java/edu/mayo/hadoop/commons/examples/HBaseITCase.java:42-50 | The integration test's `startHBASE` then `stopAll`, from a fresh class: each object is built, started and stopped exactly once, HBase is stopped before ZooKeeper, both flags end false, and both handles remain set |
| CallProperties.DirLookupsReadOneKey | src/main/java/edu/mayo/hadoop/commons/minicluster/MiniClusterUtil.java:173-193 | Each directory lookup depends only on its own key: changing another key does not change it, and setting its key makes it return that value |

## Behaviour worth knowing

Each of these is a fact about `MiniClusterUtil.java` that the model keeps:

- Stopping never clears a handle field (lines 141-160). The getters at lines
  162-168 keep returning the stopped object (`StopAllLeavesStaleHandles`).
- `setUp` (lines 80-85) and `startYarn` (lines 87-105) only build cluster
  objects. Neither calls `start()` or sets a flag, so `stopHDFS`
  (lines 148-153) can never act (`HdfsAndYarnNeverRun`).
- Only a missing integer key makes a start throw by itself, because
  `Integer.parseInt(null)` throws (lines 70, 81-82, 89-91, 110-112). A
  missing boolean key silently reads as `false`. A missing string key passes
  `null` to the builder, and whether `build()` then throws is left to the
  `build` effect.
- `stopAll` (lines 136-139) stops only HBase and ZooKeeper. The public
  `stopZookeeper` (lines 141-146) can stop ZooKeeper while HBase stays
  marked running, so `hbaseStarted ==> zookeeperStarted` is not an
  invariant (`StopZookeeperStrandsHBase`).

## Left out

- The embedded clusters, their builders and Hadoop `Configuration` belong to
  a foreign library. They appear only as handle ids plus `Effect` outcomes.
  Whether a failed `start()` leaves a partly running server is up to that
  library and is not modelled.
- The `ConfigVars` key strings come from that library. The model uses the
  library's key names, and none of its proofs depends on their spelling.
- `loadPropertiesFile` and `loadPropertiesStream` are file I/O plus
  `java.util.Properties.load`, a foreign parser. The configuration is taken
  as a given string map.
- `Integer.parseInt` on a present value is foreign. Whether it throws is part
  of the `build` effect.
- `deleteLocalHBaseDir` and `deleteLocalZookeeperDir` are filesystem I/O
  through `FileUtils.deleteDirectory`. Only the directory lookups they use
  are modelled.
- `synchronized`: only `startZookeeper`, `startHBASE` and `stopZookeeper`
  carry it. The model has a single sequential caller, so concurrency is out
  of scope.
- The HBase create/put/get/drop steps of the integration test run against a
  live HBase client. Only its lifecycle calls are modelled.
