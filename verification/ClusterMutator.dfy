/** The RayCluster admission mutator and the autoscaling validator that runs after it. */
module ClusterMutator {
  import opened Wrappers
  import opened Pods
  import opened ResourceLimits

  const ENABLE_GCS := "ml.oneblock.ai/rayClusterEnableGCS"
  const FT_ENABLED := "ray.io/ft-enabled"
  const RAY_SERVICE := "RayService"
  const RECONNECT_TIMEOUT := "RAY_gcs_rpc_server_reconnect_timeout_s"

  datatype Port = Port(name: string, number: int)

  /** `rest` stands for the fields the mutator never looks at. */
  datatype Container = Container(
    env: seq<EnvVar>,
    ports: seq<Port>,
    requests: ResourceList,
    limits: ResourceList,
    lifecycle: Option<string>,
    rest: string)

  datatype HeadGroup = HeadGroup(startParams: Option<map<string, string>>, containers: seq<Container>, rest: string)

  datatype WorkerGroup = WorkerGroup(startParams: Option<map<string, string>>, containers: seq<Container>, rest: string)

  datatype Cluster = Cluster(
    ns: string,
    annotations: map<string, string>,
    ownerKinds: seq<string>,
    autoscaling: Option<bool>,
    head: HeadGroup,
    workers: seq<WorkerGroup>,
    rest: string)

  /** The mutator indexes the first container of every pod template. */
  predicate HasContainers(c: Cluster) {
    c.head.containers != [] && forall w :: w in c.workers ==> w.containers != []
  }

  // ----- Containers -----

  function PatchLifecycle(c: Container): Option<string> {
    if c.lifecycle.None? then Some(STOP_HOOK) else c.lifecycle
  }

  function PatchPorts(c: Container): seq<Port> {
    if |c.ports| > 0 then c.ports
    else [Port("gcs", 6379), Port("client", 10001), Port("dashboard", 8265), Port("serve", 8000)]
  }

  predicate HasName(env: seq<EnvVar>, name: string) {
    exists e :: e in env && e.name == name
  }

  function WithEnv(env: seq<EnvVar>, e: EnvVar): seq<EnvVar> {
    if HasName(env, e.name) then env else env + [e]
  }

  /** Entries of `defaults` are appended one by one unless their name is taken. */
  function MergeEnv(env: seq<EnvVar>, defaults: seq<EnvVar>): seq<EnvVar> {
    if defaults == [] then env
    else WithEnv(MergeEnv(env, defaults[..|defaults| - 1]), defaults[|defaults| - 1])
  }

  function Reconnect(): EnvVar {
    EnvVar(RECONNECT_TIMEOUT, Plain("300"))
  }

  function RedisEnv(release: string, ns: string): seq<EnvVar> {
    [ EnvVar("RAY_REDIS_ADDRESS", Plain("redis://" + release + "-redis-master.oneblock-system.svc.cluster.local:6379")),
      EnvVar("REDIS_PASSWORD", SecretKey(ns + "-gcs-redis", "redis-password")) ]
  }

  method GetHeadGroupEnv(headEnv: seq<EnvVar>, redisEnv: seq<EnvVar>) returns (env: seq<EnvVar>)
    requires NamesDiffer(redisEnv)
    ensures env == MergeEnv(headEnv, redisEnv)
  {
    env := headEnv;
    if |env| == 0 {
      MergeIntoEmpty(redisEnv);
      return redisEnv;
    }
    for i := 0 to |redisEnv|
      invariant env == MergeEnv(headEnv, redisEnv[..i])
    {
      assert redisEnv[..i + 1][..i] == redisEnv[..i];
      var found := false;
      for j := 0 to |env|
        invariant found <==> exists k :: 0 <= k < j && env[k].name == redisEnv[i].name
      {
        if redisEnv[i].name == env[j].name {
          found := true;
        }
      }
      if !found {
        env := env + [redisEnv[i]];
      }
    }
    assert redisEnv[..|redisEnv|] == redisEnv;
  }

  method PatchWorkerEnv(workerEnv: seq<EnvVar>) returns (env: seq<EnvVar>)
    ensures env == WithEnv(workerEnv, Reconnect())
  {
    if |workerEnv| == 0 {
      return [Reconnect()];
    }
    var found := false;
    for i := 0 to |workerEnv|
      invariant !found && forall j :: 0 <= j < i ==> workerEnv[j].name != RECONNECT_TIMEOUT
    {
      if workerEnv[i].name == RECONNECT_TIMEOUT {
        found := true;
        break;
      }
    }
    if found {
      return workerEnv;
    }
    return workerEnv + [Reconnect()];
  }

  ghost predicate NamesDiffer(env: seq<EnvVar>) {
    forall i, j :: 0 <= i < j < |env| ==> env[i].name != env[j].name
  }

  lemma {:induction false} MergeIntoEmpty(defaults: seq<EnvVar>)
    requires NamesDiffer(defaults)
    ensures MergeEnv([], defaults) == defaults
  {
    if defaults == [] {
    } else {
      var n := |defaults| - 1;
      MergeIntoEmpty(defaults[..n]);
      assert defaults[..n] + [defaults[n]] == defaults;
    }
  }

  /** The defaults whose names the user has not set, in their order. */
  function Missing(env: seq<EnvVar>, defaults: seq<EnvVar>): seq<EnvVar> {
    if defaults == [] then []
    else Missing(env, defaults[..|defaults| - 1]) +
         (if HasName(env, defaults[|defaults| - 1].name) then [] else [defaults[|defaults| - 1]])
  }

  /** User entries keep their values, number and order; exactly the missing defaults follow. */
  lemma {:induction false} MergeAppendsMissing(env: seq<EnvVar>, defaults: seq<EnvVar>)
    requires NamesDiffer(defaults)
    ensures MergeEnv(env, defaults) == env + Missing(env, defaults)
    ensures forall e :: e in Missing(env, defaults) ==> e in defaults
  {
    if defaults == [] {
    } else {
      var n := |defaults| - 1;
      var last := defaults[n];
      MergeAppendsMissing(env, defaults[..n]);
      var tail := Missing(env, defaults[..n]);
      forall e | e in tail
        ensures e.name != last.name
      {
        var i :| 0 <= i < n && defaults[..n][i] == e;
      }
      if !HasName(env, last.name) {
        assert !HasName(env + tail, last.name);
        assert (env + tail) + [last] == env + (tail + [last]);
      }
    }
  }

  lemma {:induction false} MergedNamesAreThere(env: seq<EnvVar>, defaults: seq<EnvVar>)
    ensures forall e :: e in env ==> HasName(MergeEnv(env, defaults), e.name)
    ensures forall e :: e in defaults ==> HasName(MergeEnv(env, defaults), e.name)
  {
    if defaults == [] {
    } else {
      var n := |defaults| - 1;
      MergedNamesAreThere(env, defaults[..n]);
      var before := MergeEnv(env, defaults[..n]);
      WithEnvKeepsNames(before, defaults[n]);
      forall e | e in defaults
        ensures HasName(MergeEnv(env, defaults), e.name)
      {
        assert e in defaults[..n] || e == defaults[n];
      }
    }
  }

  lemma WithEnvKeepsNames(env: seq<EnvVar>, e: EnvVar)
    ensures forall name :: HasName(env, name) ==> HasName(WithEnv(env, e), name)
    ensures HasName(WithEnv(env, e), e.name)
  {
    forall name | HasName(env, name)
      ensures HasName(WithEnv(env, e), name)
    {
      var x :| x in env && x.name == name;
      assert x in WithEnv(env, e);
    }
    assert HasName(env, e.name) || e in WithEnv(env, e);
  }

  lemma {:induction false} MergeOfPresentIsNothing(env: seq<EnvVar>, defaults: seq<EnvVar>)
    requires forall e :: e in defaults ==> HasName(env, e.name)
    ensures MergeEnv(env, defaults) == env
  {
    if defaults == [] {
    } else {
      var n := |defaults| - 1;
      MergeOfPresentIsNothing(env, defaults[..n]);
      assert defaults[n] in defaults;
    }
  }

  lemma MergeIsIdempotent(env: seq<EnvVar>, defaults: seq<EnvVar>)
    ensures MergeEnv(MergeEnv(env, defaults), defaults) == MergeEnv(env, defaults)
  {
    MergedNamesAreThere(env, defaults);
    MergeOfPresentIsNothing(MergeEnv(env, defaults), defaults);
  }

  // ----- Groups -----

  function HeadParams(params: Option<map<string, string>>, gcs: bool): map<string, string> {
    var m := if params.None? then map["dashboard-host" := "0.0.0.0", "block" := "true"]
             else params.value["block" := "true"]["dashboard-host" := "0.0.0.0"];
    if gcs then m["redis-password" := "$REDIS_PASSWORD"] else m
  }

  function WorkerParams(params: Option<map<string, string>>): map<string, string> {
    if params.None? then map["block" := "true"] else params.value["block" := "true"]
  }

  function PatchHeadContainer(c: Container, gcs: bool, redis: seq<EnvVar>): Container {
    c.(ports := PatchPorts(c),
       limits := Patched(c.requests, c.limits),
       lifecycle := PatchLifecycle(c),
       env := if gcs then MergeEnv(c.env, redis) else c.env)
  }

  function PatchHead(h: HeadGroup, gcs: bool, redis: seq<EnvVar>): HeadGroup
    requires h.containers != []
  {
    h.(startParams := Some(HeadParams(h.startParams, gcs)),
       containers := h.containers[0 := PatchHeadContainer(h.containers[0], gcs, redis)])
  }

  function PatchWorkerContainer(c: Container): Container {
    c.(limits := Patched(c.requests, c.limits),
       env := WithEnv(c.env, Reconnect()),
       lifecycle := PatchLifecycle(c))
  }

  function PatchWorker(w: WorkerGroup): WorkerGroup
    requires w.containers != []
  {
    w.(startParams := Some(WorkerParams(w.startParams)),
       containers := w.containers[0 := PatchWorkerContainer(w.containers[0])])
  }

  /** The loop over the worker groups, in place. */
  method PatchWorkerGroups(workers: array<WorkerGroup>)
    requires forall i :: 0 <= i < workers.Length ==> workers[i].containers != []
    modifies workers
    ensures forall i :: 0 <= i < workers.Length ==>
      old(workers[i]).containers != [] && workers[i] == PatchWorker(old(workers[i]))
  {
    for i := 0 to workers.Length
      invariant forall j :: i <= j < workers.Length ==> workers[j] == old(workers[j])
      invariant forall j :: 0 <= j < i ==>
        old(workers[j]).containers != [] && workers[j] == PatchWorker(old(workers[j]))
    {
      var c := workers[i].containers[0];
      workers[i] := workers[i].(startParams := Some(WorkerParams(workers[i].startParams)));
      var limits := PatchResourceLimits(c.requests, c.limits);
      c := c.(limits := limits);
      var env := PatchWorkerEnv(c.env);
      c := c.(env := env);
      c := c.(lifecycle := PatchLifecycle(c));
      workers[i] := workers[i].(containers := workers[i].containers[0 := c]);
    }
  }

  // ----- The mutation -----

  datatype PatchOp =
    | ReplaceAnnotations(annotations: map<string, string>)
    | ReplaceAutoscaling(enabled: bool)
    | ReplaceHead(head: HeadGroup)
    | ReplaceWorkers(workers: seq<WorkerGroup>)

  function ApplyOp(c: Cluster, op: PatchOp): Cluster {
    match op
    case ReplaceAnnotations(a) => c.(annotations := a)
    case ReplaceAutoscaling(b) => c.(autoscaling := Some(b))
    case ReplaceHead(h) => c.(head := h)
    case ReplaceWorkers(ws) => c.(workers := ws)
  }

  function ApplyPatch(c: Cluster, ops: seq<PatchOp>): Cluster {
    if ops == [] then c else ApplyOp(ApplyPatch(c, ops[..|ops| - 1]), ops[|ops| - 1])
  }

  lemma ApplyOneMore(c: Cluster, ops: seq<PatchOp>, op: PatchOp)
    ensures ApplyPatch(c, ops + [op]) == ApplyOp(ApplyPatch(c, ops), op)
  {
    assert (ops + [op])[..|ops|] == ops;
  }

  predicate GcsEnabled(c: Cluster) {
    ENABLE_GCS in c.annotations && c.annotations[ENABLE_GCS] == "true"
  }

  predicate OwnedByRayService(c: Cluster) {
    RAY_SERVICE in c.ownerKinds
  }

  /** With GCS on, fault tolerance is marked and autoscaling defaults to on. */
  function WithGcsSettings(c: Cluster): Cluster {
    if GcsEnabled(c) then
      c.(annotations := c.annotations[FT_ENABLED := "true"],
         autoscaling := if c.autoscaling.None? then Some(true) else c.autoscaling)
    else c
  }

  /** The mutator skips an owned cluster before it indexes anything. */
  predicate IsMutable(c: Cluster) {
    OwnedByRayService(c) || HasContainers(c)
  }

  /** The cluster after the webhook: head and worker groups patched, GCS settings when GCS is on. */
  function Mutated(c: Cluster, release: string): Cluster
    requires IsMutable(c)
  {
    if OwnedByRayService(c) then c
    else
      WithGcsSettings(c).(
         head := PatchHead(c.head, GcsEnabled(c), RedisEnv(release, c.ns)),
         workers := seq(|c.workers|, i requires 0 <= i < |c.workers| => PatchWorker(c.workers[i])))
  }

  method IsOwnedByRayService(c: Cluster) returns (r: bool)
    ensures r <==> OwnedByRayService(c)
  {
    for i := 0 to |c.ownerKinds|
      invariant RAY_SERVICE !in c.ownerKinds[..i]
    {
      if c.ownerKinds[i] == RAY_SERVICE {
        return true;
      }
    }
    return false;
  }

  method PatchHeadGroup(c: Cluster, gcs: bool, release: string) returns (op: PatchOp)
    requires c.head.containers != []
    ensures op == ReplaceHead(PatchHead(c.head, gcs, RedisEnv(release, c.ns)))
  {
    var head := c.head;
    head := head.(startParams := Some(HeadParams(head.startParams, gcs)));
    var first := head.containers[0];
    first := first.(ports := PatchPorts(first));
    var limits := PatchResourceLimits(first.requests, first.limits);
    first := first.(limits := limits);
    first := first.(lifecycle := PatchLifecycle(first));
    if gcs {
      var env := GetHeadGroupEnv(first.env, RedisEnv(release, c.ns));
      first := first.(env := env);
    }
    head := head.(containers := head.containers[0 := first]);
    return ReplaceHead(head);
  }

  method Create(c: Cluster, release: string) returns (ops: seq<PatchOp>)
    requires IsMutable(c)
    ensures ApplyPatch(c, ops) == Mutated(c, release)
    ensures ops == [] <==> OwnedByRayService(c)
  {
    var skip := IsOwnedByRayService(c);
    if skip {
      return [];
    }
    ops := BuildPatch(c, release);
  }

  /** The refusal to switch GCS off. */
  predicate Refused(before: Cluster, c: Cluster) {
    !OwnedByRayService(c) && GcsEnabled(before) && ENABLE_GCS in c.annotations && !GcsEnabled(c)
  }

  /** `None` is the refusal. */
  method Update(before: Cluster, c: Cluster, release: string) returns (ops: Option<seq<PatchOp>>)
    requires IsMutable(c)
    ensures ops.None? <==> Refused(before, c)
    ensures ops.Some? ==> ApplyPatch(c, ops.value) == Mutated(c, release)
    ensures ops.Some? ==> (ops.value == [] <==> OwnedByRayService(c))
    ensures ops.Some? && GcsEnabled(before) ==>
      (GcsEnabled(ApplyPatch(c, ops.value)) <==>
        ENABLE_GCS in c.annotations && (OwnedByRayService(c) ==> GcsEnabled(c)))
  {
    var skip := IsOwnedByRayService(c);
    if skip {
      return Some([]);
    }
    if ENABLE_GCS in before.annotations && before.annotations[ENABLE_GCS] == "true" {
      if ENABLE_GCS in c.annotations && c.annotations[ENABLE_GCS] != "true" {
        return None;
      }
    }
    var patch := BuildPatch(c, release);
    MutationKeepsGcs(c, release);
    return Some(patch);
  }

  /** The part Create and Update share. */
  method BuildPatch(c: Cluster, release: string) returns (ops: seq<PatchOp>)
    requires HasContainers(c) && !OwnedByRayService(c)
    ensures ApplyPatch(c, ops) == Mutated(c, release) && ops != []
  {
    var gcs;
    gcs, ops := GcsPatch(c);
    var head := PatchHeadGroup(c, gcs, release);
    ApplyOneMore(c, ops, head);
    ops := ops + [head];
    ghost var mutatedWorkers := Mutated(c, release).workers;
    assert c.workers == [] ==> mutatedWorkers == c.workers;
    if |c.workers| > 0 {
      var workers := PatchWorkers(c.workers);
      assert workers == mutatedWorkers;
      ApplyOneMore(c, ops, ReplaceWorkers(workers));
      ops := ops + [ReplaceWorkers(workers)];
    }
  }

  method GcsPatch(c: Cluster) returns (gcs: bool, ops: seq<PatchOp>)
    ensures gcs == GcsEnabled(c) && ApplyPatch(c, ops) == WithGcsSettings(c)
  {
    gcs, ops := false, [];
    if ENABLE_GCS in c.annotations && c.annotations[ENABLE_GCS] == "true" {
      gcs := true;
      var op := ReplaceAnnotations(c.annotations[FT_ENABLED := "true"]);
      ApplyOneMore(c, ops, op);
      ops := ops + [op];
      if c.autoscaling.None? || c.autoscaling.value {
        ApplyOneMore(c, ops, ReplaceAutoscaling(true));
        ops := ops + [ReplaceAutoscaling(true)];
      }
    }
  }

  method PatchWorkers(groups: seq<WorkerGroup>) returns (patched: seq<WorkerGroup>)
    requires forall w :: w in groups ==> w.containers != []
    ensures |patched| == |groups|
    ensures forall i :: 0 <= i < |groups| ==> groups[i].containers != [] && patched[i] == PatchWorker(groups[i])
  {
    var workers := new WorkerGroup[|groups|](i requires 0 <= i < |groups| => groups[i]);
    PatchWorkerGroups(workers);
    return workers[..];
  }

  // ----- Mutating twice is mutating once -----

  lemma HeadContainerIsIdempotent(c: Container, gcs: bool, redis: seq<EnvVar>)
    ensures PatchHeadContainer(PatchHeadContainer(c, gcs, redis), gcs, redis) == PatchHeadContainer(c, gcs, redis)
  {
    PatchIsIdempotent(c.requests, c.limits);
    MergeIsIdempotent(c.env, redis);
  }

  lemma WorkerContainerIsIdempotent(c: Container)
    ensures PatchWorkerContainer(PatchWorkerContainer(c)) == PatchWorkerContainer(c)
  {
    PatchIsIdempotent(c.requests, c.limits);
    WithEnvKeepsNames(c.env, Reconnect());
  }

  lemma ParamsAreIdempotent(params: Option<map<string, string>>, gcs: bool)
    ensures HeadParams(Some(HeadParams(params, gcs)), gcs) == HeadParams(params, gcs)
    ensures WorkerParams(Some(WorkerParams(params))) == WorkerParams(params)
  {
  }

  lemma HeadIsIdempotent(h: HeadGroup, gcs: bool, redis: seq<EnvVar>)
    requires h.containers != []
    ensures PatchHead(PatchHead(h, gcs, redis), gcs, redis) == PatchHead(h, gcs, redis)
  {
    HeadContainerIsIdempotent(h.containers[0], gcs, redis);
    ParamsAreIdempotent(h.startParams, gcs);
  }

  lemma WorkerIsIdempotent(w: WorkerGroup)
    requires w.containers != []
    ensures PatchWorker(PatchWorker(w)) == PatchWorker(w)
  {
    WorkerContainerIsIdempotent(w.containers[0]);
    ParamsAreIdempotent(w.startParams, false);
  }

  lemma MutationKeepsGcs(c: Cluster, release: string)
    requires IsMutable(c)
    ensures IsMutable(Mutated(c, release))
    ensures GcsEnabled(Mutated(c, release)) <==> GcsEnabled(c)
    ensures OwnedByRayService(Mutated(c, release)) <==> OwnedByRayService(c)
  {
    var c' := Mutated(c, release);
    forall w | w in c'.workers && !OwnedByRayService(c)
      ensures w.containers != []
    {
      var i :| 0 <= i < |c'.workers| && c'.workers[i] == w;
      assert c.workers[i] in c.workers;
    }
  }

  lemma MutationIsIdempotent(c: Cluster, release: string)
    requires IsMutable(c)
    ensures IsMutable(Mutated(c, release))
    ensures Mutated(Mutated(c, release), release) == Mutated(c, release)
  {
    MutationKeepsGcs(c, release);
    if !OwnedByRayService(c) {
      var c' := Mutated(c, release);
      var c'' := Mutated(c', release);
      HeadIsIdempotent(c.head, GcsEnabled(c), RedisEnv(release, c.ns));
      forall i | 0 <= i < |c.workers|
        ensures c''.workers[i] == c'.workers[i]
      {
        assert c.workers[i] in c.workers;
        WorkerIsIdempotent(c.workers[i]);
      }
      assert c''.workers == c'.workers;
      assert c''.annotations == c'.annotations;
    }
  }

  /** User-set head entries keep values and order; with GCS the Redis entries follow where their name was free. */
  lemma HeadEnvIsKept(c: Cluster, release: string)
    requires IsMutable(c) && c.head.containers != []
    ensures Mutated(c, release).head.containers != []
    ensures Mutated(c, release).head.containers[0].env == c.head.containers[0].env +
      if GcsEnabled(c) && !OwnedByRayService(c) then Missing(c.head.containers[0].env, RedisEnv(release, c.ns)) else []
  {
    MergeAppendsMissing(c.head.containers[0].env, RedisEnv(release, c.ns));
  }

  /** The same for every worker group and the reconnect timeout. */
  lemma WorkerEnvIsKept(c: Cluster, release: string, i: nat)
    requires IsMutable(c) && i < |c.workers| && c.workers[i].containers != []
    ensures |Mutated(c, release).workers| == |c.workers| && Mutated(c, release).workers[i].containers != []
    ensures Mutated(c, release).workers[i].containers[0].env == c.workers[i].containers[0].env +
      if OwnedByRayService(c) then [] else Missing(c.workers[i].containers[0].env, [Reconnect()])
  {
    assert Missing(c.workers[i].containers[0].env, []) == [];
  }

  /** With GCS, the head of an unowned cluster finds Redis and its password unless the user set these entries. */
  lemma HeadFindsRedis(c: Cluster, release: string)
    requires HasContainers(c) && "RayService" !in c.ownerKinds
    requires Holds(c.annotations, "ml.oneblock.ai/rayClusterEnableGCS", "true")
    ensures Mutated(c, release).head.containers != []
    ensures var env, env' := c.head.containers[0].env, Mutated(c, release).head.containers[0].env;
      && ((forall e :: e in env ==> e.name != "RAY_REDIS_ADDRESS") ==>
            EnvVar("RAY_REDIS_ADDRESS",
                   Plain("redis://" + release + "-redis-master.oneblock-system.svc.cluster.local:6379")) in env')
      && ((forall e :: e in env ==> e.name != "REDIS_PASSWORD") ==>
            EnvVar("REDIS_PASSWORD", SecretKey(c.ns + "-gcs-redis", "redis-password")) in env')
  {
    var env, redis := c.head.containers[0].env, RedisEnv(release, c.ns);
    HeadEnvIsKept(c, release);
    assert redis[..1][..0] == [] && redis[..1][0] == redis[0] && redis[..2] == redis;
    assert Missing(env, redis[..0]) == [];
    assert Missing(env, redis[..1]) == if HasName(env, redis[0].name) then [] else [redis[0]];
    assert Missing(env, redis) == Missing(env, redis[..1]) + if HasName(env, redis[1].name) then [] else [redis[1]];
  }

  /** Every worker of an unowned cluster waits for the head unless the user set that entry. */
  lemma WorkersReconnect(c: Cluster, release: string, i: nat)
    requires HasContainers(c) && "RayService" !in c.ownerKinds && i < |c.workers| && c.workers[i].containers != []
    requires forall e :: e in c.workers[i].containers[0].env ==> e.name != "RAY_gcs_rpc_server_reconnect_timeout_s"
    ensures |Mutated(c, release).workers| == |c.workers| && Mutated(c, release).workers[i].containers != []
    ensures EnvVar("RAY_gcs_rpc_server_reconnect_timeout_s", Plain("300")) in
            Mutated(c, release).workers[i].containers[0].env
  {
    WorkerEnvIsKept(c, release, i);
    assert Missing(c.workers[i].containers[0].env, []) == [];
  }

  // ----- What the mutation changes, field by field -----

  /** Outside `keys` the two maps are the same. */
  ghost predicate SameOutside(m: map<string, string>, m': map<string, string>, keys: set<string>) {
    forall p :: p !in keys ==> if p in m then p in m' && m'[p] == m[p] else p !in m'
  }

  predicate Holds(m: map<string, string>, p: string, value: string) {
    p in m && m[p] == value
  }

  function ParamsOf(params: Option<map<string, string>>): map<string, string> {
    if params.Some? then params.value else map[]
  }

  /** What both kinds of groups get: a hook when there is none, limits, and nothing else but ports and environment. */
  ghost predicate ContainerPatched(x: Container, x': Container) {
    && x'.lifecycle == (if x.lifecycle == None then Some("/bin/sh -c ray stop") else x.lifecycle)
    && CoversRequests(x.requests, x.limits, x'.limits)
    && x'.requests == x.requests && x'.rest == x.rest
  }

  ghost predicate HeadParamsPatched(params: map<string, string>, params': map<string, string>, gcs: bool) {
    && SameOutside(params, params', {"block", "dashboard-host"} + if gcs then {"redis-password"} else {})
    && Holds(params', "block", "true") && Holds(params', "dashboard-host", "0.0.0.0")
    && (gcs ==> Holds(params', "redis-password", "$REDIS_PASSWORD"))
  }

  /** The head keeps its other start parameters; ports the user set stay. */
  ghost predicate HeadPatched(h: HeadGroup, h': HeadGroup, gcs: bool)
    requires h.containers != []
  {
    && h'.startParams.Some?
    && HeadParamsPatched(ParamsOf(h.startParams), h'.startParams.value, gcs)
    && |h'.containers| == |h.containers| && h'.containers[1..] == h.containers[1..] && h'.rest == h.rest
    && ContainerPatched(h.containers[0], h'.containers[0])
    && h'.containers[0].ports ==
       if h.containers[0].ports != [] then h.containers[0].ports
       else [Port("gcs", 6379), Port("client", 10001), Port("dashboard", 8265), Port("serve", 8000)]
  }

  ghost predicate WorkerPatched(w: WorkerGroup, w': WorkerGroup)
    requires w.containers != []
  {
    && w'.startParams.Some?
    && SameOutside(ParamsOf(w.startParams), w'.startParams.value, {"block"})
    && Holds(w'.startParams.value, "block", "true")
    && |w'.containers| == |w.containers| && w'.containers[1..] == w.containers[1..] && w'.rest == w.rest
    && ContainerPatched(w.containers[0], w'.containers[0])
    && w'.containers[0].ports == w.containers[0].ports
  }

  lemma HeadIsPatched(h: HeadGroup, gcs: bool, redis: seq<EnvVar>)
    requires h.containers != []
    ensures HeadPatched(h, PatchHead(h, gcs, redis), gcs)
  {
    PatchCoversRequests(h.containers[0].requests, h.containers[0].limits);
  }

  lemma WorkerIsPatched(w: WorkerGroup)
    requires w.containers != []
    ensures WorkerPatched(w, PatchWorker(w))
  {
    PatchCoversRequests(w.containers[0].requests, w.containers[0].limits);
  }

  /**
   Everything the mutation does beside the environments. A cluster owned by a RayService stays as it
   is. Otherwise head and workers are patched; with GCS, fault tolerance is marked and autoscaling
   switched on unless the user decided; nothing else changes.
   */
  lemma MutationMeans(c: Cluster, release: string)
    requires IsMutable(c)
    ensures "RayService" in c.ownerKinds ==> Mutated(c, release) == c
    ensures "RayService" !in c.ownerKinds ==>
      var c', gcs := Mutated(c, release), Holds(c.annotations, "ml.oneblock.ai/rayClusterEnableGCS", "true");
      && HeadPatched(c.head, c'.head, gcs)
      && |c'.workers| == |c.workers|
      && (forall i :: 0 <= i < |c.workers| ==>
        c.workers[i].containers != [] && WorkerPatched(c.workers[i], c'.workers[i]))
      && SameOutside(c.annotations, c'.annotations, if gcs then {"ray.io/ft-enabled"} else {})
      && (gcs ==> Holds(c'.annotations, "ray.io/ft-enabled", "true"))
      && c'.autoscaling == (if gcs && c.autoscaling == None then Some(true) else c.autoscaling)
      && c'.ns == c.ns && c'.ownerKinds == c.ownerKinds && c'.rest == c.rest
  {
    if "RayService" !in c.ownerKinds {
      HeadIsPatched(c.head, GcsEnabled(c), RedisEnv(release, c.ns));
      forall i | 0 <= i < |c.workers|
        ensures c.workers[i].containers != [] && WorkerPatched(c.workers[i], Mutated(c, release).workers[i])
      {
        assert c.workers[i] in c.workers;
        WorkerIsPatched(c.workers[i]);
      }
    }
  }

  // ----- Switching GCS off -----

  /**
   An accepted update of a cluster with GCS keeps it on exactly when it keeps the annotation, for an
   owned cluster with its value.
   */
  lemma GcsStaysOnIff(before: Cluster, c: Cluster, release: string)
    requires IsMutable(c) && GcsEnabled(before) && !Refused(before, c)
    ensures GcsEnabled(Mutated(c, release)) <==>
      ENABLE_GCS in c.annotations && (OwnedByRayService(c) ==> c.annotations[ENABLE_GCS] == "true")
  {
    MutationKeepsGcs(c, release);
  }

  /** Dropping the annotation is accepted and switches GCS off. */
  lemma DroppingSwitchesOff(before: Cluster, release: string) returns (c: Cluster)
    requires IsMutable(before) && GcsEnabled(before) && !OwnedByRayService(before)
    ensures c == before.(annotations := before.annotations - {ENABLE_GCS})
    ensures !Refused(before, c) && IsMutable(c) && !GcsEnabled(Mutated(c, release))
  {
    c := before.(annotations := before.annotations - {ENABLE_GCS});
    GcsStaysOnIff(before, c, release);
  }

  /** So is setting it to "false" in an update that makes a RayService an owner. */
  lemma OwnerSwitchesOff(before: Cluster, release: string) returns (c: Cluster)
    requires IsMutable(before) && GcsEnabled(before) && !OwnedByRayService(before)
    ensures c == before.(annotations := before.annotations[ENABLE_GCS := "false"],
                         ownerKinds := before.ownerKinds + [RAY_SERVICE])
    ensures !Refused(before, c) && IsMutable(c) && !GcsEnabled(Mutated(c, release))
    ensures Refused(before, c.(ownerKinds := before.ownerKinds))
  {
    c := before.(annotations := before.annotations[ENABLE_GCS := "false"],
                 ownerKinds := before.ownerKinds + [RAY_SERVICE]);
    assert c.annotations[ENABLE_GCS] == "false" != "true";
    assert OwnedByRayService(c);
    GcsStaysOnIff(before, c, release);
  }

  // ----- The validator -----

  predicate AutoscalingValid(c: Cluster) {
    c.autoscaling == Some(true) ==> |c.workers| > 0
  }

  /**
   Which clusters pass the validator after the mutator: switching GCS on can turn a cluster
   that was valid into one that is refused.
   */
  lemma MutatedPassesIff(c: Cluster, release: string)
    requires IsMutable(c)
    ensures AutoscalingValid(Mutated(c, release)) <==>
      AutoscalingValid(c) &&
      (OwnedByRayService(c) || !GcsEnabled(c) || c.autoscaling.Some? || |c.workers| > 0)
    ensures IsMutable(Mutated(c, release))
    ensures AutoscalingValid(Mutated(c, release)) ==> AutoscalingValid(Mutated(Mutated(c, release), release))
  {
    MutationIsIdempotent(c, release);
  }
}
