/** From the worker groups of an MLService to those of its RayService: creation and in-place update. */
module WorkerGroups {
  import opened Wrappers
  import opened Pods
  import opened AcceleratorLists

  const TOKEN := "HUGGING_FACE_HUB_TOKEN"
  const RESOURCES := "resources"

  datatype HFSecretRef = HFSecretRef(name: string, ns: string, secretKey: string)

  /** A worker group as the user describes it. Nil and empty collections are the same. */
  datatype GroupConfig = GroupConfig(
    name: string,
    replicas: Option<int>,
    minReplicas: Option<int>,
    maxReplicas: Option<int>,
    startParams: Option<map<string, string>>,
    acceleratorTypes: map<string, int>,
    resources: Option<string>,
    nodeSelector: map<string, string>,
    tolerations: seq<string>,
    runtimeClass: Option<string>,
    volume: Option<string>)

  datatype Container = Container(image: string, env: seq<EnvVar>, resources: string, lifecycle: string,
                                 mounts: seq<string>)

  /** A worker group of the RayService. The update path indexes its first container. */
  datatype Group = Group(
    name: string,
    replicas: Option<int>,
    minReplicas: Option<int>,
    maxReplicas: Option<int>,
    startParams: map<string, string>,
    runtimeClass: Option<string>,
    nodeSelector: map<string, string>,
    tolerations: seq<string>,
    volumes: seq<string>,
    containers: seq<Container>)

  // ----- The token entry -----

  predicate IsToken(e: EnvVar, secret: string) {
    e.name == TOKEN && e.value.SecretKey? && e.value.secret == secret
  }

  /**
   The update path follows the reference of each token entry unchecked, up to the first entry of
   the secret. So those in front of it have to come from secrets.
   */
  predicate TokensReadable(env: seq<EnvVar>, secret: string) {
    forall j :: 0 <= j < |env| && env[j].name == TOKEN && !env[j].value.SecretKey? ==>
      exists i :: 0 <= i < j && IsToken(env[i], secret)
  }

  predicate HasToken(env: seq<EnvVar>, secret: string) {
    exists e :: e in env && IsToken(e, secret)
  }

  function TokenOf(hf: HFSecretRef): EnvVar {
    EnvVar(TOKEN, SecretKey(hf.name, hf.secretKey))
  }

  function AddToken(env: seq<EnvVar>, hf: Option<HFSecretRef>): seq<EnvVar> {
    if hf.None? || HasToken(env, hf.value.name) then env else env + [TokenOf(hf.value)]
  }

  /** `None` means that the environment stays as it is. Without a secret the group is not looked at. */
  method SetWorkerGroupHFEnv(hf: Option<HFSecretRef>, group: Group) returns (env: Option<seq<EnvVar>>)
    requires hf.Some? ==> group.containers != [] && TokensReadable(group.containers[0].env, hf.value.name)
    ensures hf.None? ==> env.None?
    ensures hf.Some? ==>
      AddToken(group.containers[0].env, hf) == if env.Some? then env.value else group.containers[0].env
  {
    if hf.None? {
      return None;
    }
    var groupEnv := group.containers[0].env;
    for i := 0 to |groupEnv|
      invariant forall j :: 0 <= j < i ==> !IsToken(groupEnv[j], hf.value.name)
    {
      if groupEnv[i].name == TOKEN && groupEnv[i].value.secret == hf.value.name {
        assert IsToken(groupEnv[i], hf.value.name);
        return None;
      }
    }
    return Some(groupEnv + [TokenOf(hf.value)]);
  }

  /** No secret has two token entries. */
  ghost predicate OneTokenPerSecret(env: seq<EnvVar>) {
    forall i, j, secret ::
      0 <= i < |env| && 0 <= j < |env| && IsToken(env[i], secret) && IsToken(env[j], secret) ==> i == j
  }

  function AddTokens(env: seq<EnvVar>, refs: seq<Option<HFSecretRef>>): seq<EnvVar> {
    if refs == [] then env else AddToken(AddTokens(env, refs[..|refs| - 1]), refs[|refs| - 1])
  }

  /** The secret `refs[i]` is used for the first time. */
  predicate FirstUse(env: seq<EnvVar>, refs: seq<Option<HFSecretRef>>, i: nat)
    requires i < |refs|
  {
    && refs[i].Some?
    && !HasToken(env, refs[i].value.name)
    && forall j :: 0 <= j < i && refs[j].Some? ==> refs[j].value.name != refs[i].value.name
  }

  /** One entry for each secret when it is first used, with the key it has then. */
  function NewTokens(env: seq<EnvVar>, refs: seq<Option<HFSecretRef>>): seq<EnvVar> {
    if refs == [] then []
    else
      var n := |refs| - 1;
      NewTokens(env, refs[..n]) + if FirstUse(env, refs, n) then [TokenOf(refs[n].value)] else []
  }

  lemma {:induction false} NewTokensAreFirstUses(env: seq<EnvVar>, refs: seq<Option<HFSecretRef>>, secret: string)
    ensures HasToken(env + NewTokens(env, refs), secret) <==>
            HasToken(env, secret) || exists i :: 0 <= i < |refs| && refs[i].Some? && refs[i].value.name == secret
  {
    if refs == [] {
    } else {
      var n := |refs| - 1;
      var init := refs[..n];
      NewTokensAreFirstUses(env, init, secret);
      assert FirstUse(env, refs, n) ==> forall j :: 0 <= j < n ==> init[j] == refs[j];
      var before, after := env + NewTokens(env, init), env + NewTokens(env, refs);
      if FirstUse(env, refs, n) {
        assert after == before + [TokenOf(refs[n].value)];
        AppendedToken(before, refs[n].value, secret);
      }
      if i :| 0 <= i < |refs| && refs[i].Some? && refs[i].value.name == secret {
        assert i < n ==> init[i] == refs[i];
      }
    }
  }

  lemma AppendedToken(env: seq<EnvVar>, hf: HFSecretRef, secret: string)
    ensures HasToken(env + [TokenOf(hf)], secret) <==> HasToken(env, secret) || hf.name == secret
  {
    assert IsToken(TokenOf(hf), hf.name) && TokenOf(hf) in env + [TokenOf(hf)];
    if HasToken(env, secret) {
      var e :| e in env && IsToken(e, secret);
      assert e in env + [TokenOf(hf)];
    }
  }

  /** Over any run of secret changes exactly the first use of each secret adds an entry. */
  lemma {:induction false} TokenRunAddsFirstUses(env: seq<EnvVar>, refs: seq<Option<HFSecretRef>>)
    ensures AddTokens(env, refs) == env + NewTokens(env, refs)
  {
    if refs == [] {
    } else {
      var n := |refs| - 1;
      TokenRunAddsFirstUses(env, refs[..n]);
      if refs[n].Some? {
        NewTokensAreFirstUses(env, refs[..n], refs[n].value.name);
        assert forall j :: 0 <= j < n ==> refs[..n][j] == refs[j];
      }
    }
  }

  lemma {:induction false} TokenRunKeepsOnePerSecret(env: seq<EnvVar>, refs: seq<Option<HFSecretRef>>)
    requires OneTokenPerSecret(env)
    ensures OneTokenPerSecret(AddTokens(env, refs))
  {
    if refs == [] {
    } else {
      var before := AddTokens(env, refs[..|refs| - 1]);
      TokenRunKeepsOnePerSecret(env, refs[..|refs| - 1]);
      AddTokenKeepsOnePerSecret(before, refs[|refs| - 1]);
    }
  }

  lemma AddTokenKeepsOnePerSecret(env: seq<EnvVar>, hf: Option<HFSecretRef>)
    requires OneTokenPerSecret(env)
    ensures OneTokenPerSecret(AddToken(env, hf))
  {
    if hf.Some? && !HasToken(env, hf.value.name) {
      var after := AddToken(env, hf);
      forall i, secret | 0 <= i < |env| && IsToken(after[i], secret)
        ensures secret != hf.value.name
      {
        assert env[i] in env;
      }
    }
  }

  // ----- Creation -----

  function WithAccelerators(params: map<string, string>, cfg: GroupConfig, order: Order): map<string, string> {
    if cfg.acceleratorTypes == map[] then params
    else params[RESOURCES := Print(cfg.acceleratorTypes, order)]
  }

  function CreatedParams(cfg: GroupConfig, order: Order): map<string, string> {
    WithAccelerators(if cfg.startParams.Some? then cfg.startParams.value else map["block" := "true"], cfg, order)
  }

  /** GetDefaultWorkerGroupSpecConfig */
  function CreateGroup(cfg: GroupConfig, image: string, hf: Option<HFSecretRef>, order: Order): Group {
    var env := [EnvVar("RAY_gcs_rpc_server_reconnect_timeout_s", Plain("300"))] +
               if hf.Some? then [TokenOf(hf.value)] else [];
    var container := Container(
      image, env,
      if cfg.resources.Some? then cfg.resources.value else "",
      STOP_HOOK,
      if cfg.volume.Some? then [cfg.volume.value + ":/home/ray/.cache"] else []);
    Group(
      cfg.name, cfg.replicas, cfg.minReplicas, cfg.maxReplicas,
      CreatedParams(cfg, order),
      cfg.runtimeClass, cfg.nodeSelector, cfg.tolerations,
      if cfg.volume.Some? then [cfg.volume.value] else [],
      [container])
  }

  // ----- What a created group holds -----

  /** Start parameters as configured, or `block` when none are; the accelerators decide `resources`. */
  ghost predicate ParamsCreated(cfg: GroupConfig, params: map<string, string>, order: Order) {
    && (forall p :: p != "resources" ==>
          var given := if cfg.startParams.Some? then cfg.startParams.value else map["block" := "true"];
          if p in given then p in params && params[p] == given[p] else p !in params)
    && (if cfg.acceleratorTypes != map[] then
          && "resources" in params
          && params["resources"] == AcceleratorString(cfg.acceleratorTypes, order(cfg.acceleratorTypes))
        else if cfg.startParams.Some? && "resources" in cfg.startParams.value then
          "resources" in params && params["resources"] == cfg.startParams.value["resources"]
        else
          "resources" !in params)
  }

  /** One container, with the image, the token of the secret, and the volume mounted as the cache. */
  ghost predicate ContainerCreated(cfg: GroupConfig, c: Container, image: string, hf: Option<HFSecretRef>) {
    && c.image == image
    && c.resources == (if cfg.resources.Some? then cfg.resources.value else "")
    && c.lifecycle == "/bin/sh -c ray stop"
    && c.mounts == (if cfg.volume.Some? then [cfg.volume.value + ":/home/ray/.cache"] else [])
    && |c.env| == (if hf.Some? then 2 else 1)
    && c.env[0] == EnvVar("RAY_gcs_rpc_server_reconnect_timeout_s", Plain("300"))
    && (hf.Some? ==> c.env[1] == EnvVar("HUGGING_FACE_HUB_TOKEN", SecretKey(hf.value.name, hf.value.secretKey)))
  }

  lemma CreatedGroupHolds(cfg: GroupConfig, image: string, hf: Option<HFSecretRef>, order: Order)
    ensures var g := CreateGroup(cfg, image, hf, order);
      && g.name == cfg.name
      && g.replicas == cfg.replicas && g.minReplicas == cfg.minReplicas && g.maxReplicas == cfg.maxReplicas
      && g.runtimeClass == cfg.runtimeClass && g.nodeSelector == cfg.nodeSelector && g.tolerations == cfg.tolerations
      && g.volumes == (if cfg.volume.Some? then [cfg.volume.value] else [])
      && ParamsCreated(cfg, g.startParams, order)
      && |g.containers| == 1 && ContainerCreated(cfg, g.containers[0], image, hf)
  {
  }

  // ----- Update in place -----

  /** Applying `cfg` to the group neither indexes an empty list nor follows a missing reference. */
  predicate Updatable(g: Group, cfg: GroupConfig, hf: Option<HFSecretRef>) {
    && (cfg.resources.Some? || hf.Some? ==> g.containers != [])
    && (hf.Some? ==> TokensReadable(g.containers[0].env, hf.value.name))
  }

  function NewParams(existing: map<string, string>, cfg: GroupConfig, order: Order): map<string, string> {
    WithAccelerators(existing + if cfg.startParams.Some? then cfg.startParams.value else map[], cfg, order)
  }

  function NewContainer(c: Container, cfg: GroupConfig, hf: Option<HFSecretRef>): Container {
    c.(resources := if cfg.resources.Some? then cfg.resources.value else c.resources,
       env := AddToken(c.env, hf))
  }

  /** What the update path makes of a group with the name of `cfg`. */
  function ApplyConfig(cfg: GroupConfig, g: Group, hf: Option<HFSecretRef>, order: Order): Group {
    g.(replicas := cfg.replicas, minReplicas := cfg.minReplicas, maxReplicas := cfg.maxReplicas,
       startParams := NewParams(g.startParams, cfg, order),
       runtimeClass := cfg.runtimeClass, nodeSelector := cfg.nodeSelector, tolerations := cfg.tolerations,
       containers := if g.containers == [] then [] else g.containers[0 := NewContainer(g.containers[0], cfg, hf)])
  }

  /** The inner loop: only the first group with the name is touched. */
  function UpdateFirst(groups: seq<Group>, cfg: GroupConfig, hf: Option<HFSecretRef>, order: Order): seq<Group> {
    if groups == [] then []
    else if groups[0].name == cfg.name then [ApplyConfig(cfg, groups[0], hf, order)] + groups[1..]
    else [groups[0]] + UpdateFirst(groups[1..], cfg, hf, order)
  }

  /** The outer loop. */
  function UpdateGroups(groups: seq<Group>, cfgs: seq<GroupConfig>, hf: Option<HFSecretRef>, order: Order): seq<Group> {
    if cfgs == [] then groups
    else UpdateFirst(UpdateGroups(groups, cfgs[..|cfgs| - 1], hf, order), cfgs[|cfgs| - 1], hf, order)
  }

  lemma {:induction false} UpdateFirstAt(groups: seq<Group>, cfg: GroupConfig, hf: Option<HFSecretRef>, order: Order,
                                         n: nat)
    requires n <= |groups| && forall i :: 0 <= i < n ==> groups[i].name != cfg.name
    requires n < |groups| ==> groups[n].name == cfg.name
    ensures UpdateFirst(groups, cfg, hf, order) ==
      if n < |groups| then groups[n := ApplyConfig(cfg, groups[n], hf, order)] else groups
  {
    if n == 0 {
    } else {
      UpdateFirstAt(groups[1..], cfg, hf, order, n - 1);
    }
  }

  /** No group before it has its name. */
  predicate FirstNamed(groups: seq<Group>, i: nat)
    requires i < |groups|
  {
    forall j :: 0 <= j < i ==> groups[j].name != groups[i].name
  }

  ghost predicate UpdatableBy(groups: seq<Group>, cfg: GroupConfig, hf: Option<HFSecretRef>) {
    forall i :: 0 <= i < |groups| && FirstNamed(groups, i) && groups[i].name == cfg.name ==>
      Updatable(groups[i], cfg, hf)
  }

  /** What is asked of the groups the loops reach; the others may be anything. */
  ghost predicate AllUpdatable(groups: seq<Group>, cfgs: seq<GroupConfig>, hf: Option<HFSecretRef>) {
    forall n :: 0 <= n < |cfgs| ==> UpdatableBy(groups, cfgs[n], hf)
  }

  method SetRayClusterWorkerGroupConfig(cfgs: seq<GroupConfig>, groups: array<Group>, hf: Option<HFSecretRef>,
                                        order: Order)
    requires AllUpdatable(groups[..], cfgs, hf)
    requires forall cfg :: cfg in cfgs ==> RangesOver(order, cfg.acceleratorTypes)
    modifies groups
    ensures groups[..] == UpdateGroups(old(groups[..]), cfgs, hf, order)
  {
    for n := 0 to |cfgs|
      invariant groups[..] == UpdateGroups(old(groups[..]), cfgs[..n], hf, order)
      invariant AllUpdatable(groups[..], cfgs, hf)
    {
      assert cfgs[..n + 1][..n] == cfgs[..n];
      UpdateKeepsUpdatable(groups[..], cfgs[n], cfgs, hf, order);
      UpdateFirstMatch(cfgs[n], groups, hf, order);
    }
    assert cfgs[..|cfgs|] == cfgs;
  }

  method UpdateFirstMatch(cfg: GroupConfig, groups: array<Group>, hf: Option<HFSecretRef>, order: Order)
    requires UpdatableBy(groups[..], cfg, hf)
    requires RangesOver(order, cfg.acceleratorTypes)
    modifies groups
    ensures groups[..] == UpdateFirst(old(groups[..]), cfg, hf, order)
  {
    for i := 0 to groups.Length
      invariant groups[..] == old(groups[..])
      invariant forall j :: 0 <= j < i ==> groups[j].name != cfg.name
    {
      if groups[i].name == cfg.name {
        var g := groups[i];
        assert FirstNamed(groups[..], i) && groups[..][i] == g;
        UpdateFirstAt(groups[..], cfg, hf, order, i);
        groups[i] := AssignConfig(cfg, g, hf, order);
        return;
      }
    }
    UpdateFirstAt(groups[..], cfg, hf, order, groups.Length);
  }

  /** The loop that copies the start parameters over the existing ones. */
  method MergeParams(existing: map<string, string>, params: map<string, string>) returns (merged: map<string, string>)
    ensures merged == existing + params
  {
    merged := existing;
    var todo := params.Keys;
    while todo != {}
      invariant todo <= params.Keys
      invariant merged == existing + (params - todo)
      decreases todo
    {
      var k :| k in todo;
      merged := merged[k := params[k]];
      todo := todo - {k};
    }
    assert params - {} == params;
  }

  method AssignParams(cfg: GroupConfig, existing: map<string, string>, order: Order)
    returns (params: map<string, string>)
    requires RangesOver(order, cfg.acceleratorTypes)
    ensures params == NewParams(existing, cfg, order)
  {
    params := MergeParams(existing, if cfg.startParams.Some? then cfg.startParams.value else map[]);
    if |cfg.acceleratorTypes| > 0 {
      var accelerators := ConfigResourceAccelerators(cfg.acceleratorTypes, order);
      params := params[RESOURCES := accelerators];
    }
  }

  /** The assignments to the matching group, in the order of the source. */
  method AssignConfig(cfg: GroupConfig, group: Group, hf: Option<HFSecretRef>, order: Order) returns (g: Group)
    requires Updatable(group, cfg, hf)
    requires RangesOver(order, cfg.acceleratorTypes)
    ensures g == ApplyConfig(cfg, group, hf, order)
  {
    g := group.(replicas := cfg.replicas, minReplicas := cfg.minReplicas, maxReplicas := cfg.maxReplicas);
    var params := AssignParams(cfg, g.startParams, order);
    g := g.(startParams := params);
    g := g.(runtimeClass := cfg.runtimeClass, nodeSelector := cfg.nodeSelector, tolerations := cfg.tolerations);
    var containers := AssignContainers(cfg, g, hf);
    g := g.(containers := containers);
  }

  method AssignContainers(cfg: GroupConfig, g: Group, hf: Option<HFSecretRef>) returns (containers: seq<Container>)
    requires Updatable(g, cfg, hf)
    ensures containers == if g.containers == [] then [] else g.containers[0 := NewContainer(g.containers[0], cfg, hf)]
  {
    containers := g.containers;
    if cfg.resources.Some? {
      containers := containers[0 := containers[0].(resources := cfg.resources.value)];
    }
    var env := SetWorkerGroupHFEnv(hf, g);
    if env.Some? {
      containers := containers[0 := containers[0].(env := env.value)];
    }
  }

  // ----- The nested loops, for any names -----

  /** What the configurations of one name come to, laid over each other in their order. */
  datatype Overlay = Overlay(
    replicas: Option<int>,
    minReplicas: Option<int>,
    maxReplicas: Option<int>,
    params: map<string, string>,
    runtimeClass: Option<string>,
    nodeSelector: map<string, string>,
    tolerations: seq<string>,
    resources: Option<string>)

  function Desired(cfg: GroupConfig, order: Order): Overlay {
    Overlay(
      cfg.replicas, cfg.minReplicas, cfg.maxReplicas,
      WithAccelerators(if cfg.startParams.Some? then cfg.startParams.value else map[], cfg, order),
      cfg.runtimeClass, cfg.nodeSelector, cfg.tolerations, cfg.resources)
  }

  function Over(lower: Overlay, upper: Overlay): Overlay {
    upper.(params := lower.params + upper.params,
           resources := if upper.resources.Some? then upper.resources else lower.resources)
  }

  function OverlayFor(cfgs: seq<GroupConfig>, name: string, order: Order): Option<Overlay> {
    if cfgs == [] then None
    else
      var before, last := OverlayFor(cfgs[..|cfgs| - 1], name, order), cfgs[|cfgs| - 1];
      if last.name != name then before
      else Some(if before.None? then Desired(last, order) else Over(before.value, Desired(last, order)))
  }

  function Lay(o: Overlay, g: Group, hf: Option<HFSecretRef>): Group {
    g.(replicas := o.replicas, minReplicas := o.minReplicas, maxReplicas := o.maxReplicas,
       startParams := g.startParams + o.params,
       runtimeClass := o.runtimeClass, nodeSelector := o.nodeSelector, tolerations := o.tolerations,
       containers := if g.containers == [] then [] else g.containers[0 := LayContainer(o, g.containers[0], hf)])
  }

  function LayContainer(o: Overlay, c: Container, hf: Option<HFSecretRef>): Container {
    c.(resources := if o.resources.Some? then o.resources.value else c.resources, env := AddToken(c.env, hf))
  }

  lemma ApplyIsLay(cfg: GroupConfig, g: Group, hf: Option<HFSecretRef>, order: Order)
    ensures ApplyConfig(cfg, g, hf, order) == Lay(Desired(cfg, order), g, hf)
  {
    assert NewParams(g.startParams, cfg, order) == g.startParams + Desired(cfg, order).params;
  }

  lemma AddTokenIsIdempotent(env: seq<EnvVar>, hf: Option<HFSecretRef>)
    ensures AddToken(AddToken(env, hf), hf) == AddToken(env, hf)
  {
    if hf.Some? {
      AppendedToken(env, hf.value, hf.value.name);
    }
  }

  /** One overlay after another is both at once. */
  lemma LayTwice(lower: Overlay, upper: Overlay, g: Group, hf: Option<HFSecretRef>)
    ensures Lay(upper, Lay(lower, g, hf), hf) == Lay(Over(lower, upper), g, hf)
  {
    assert (g.startParams + lower.params) + upper.params == g.startParams + (lower.params + upper.params);
    if g.containers != [] {
      AddTokenIsIdempotent(g.containers[0].env, hf);
    }
  }

  lemma {:induction false} FirstWithName(groups: seq<Group>, name: string) returns (n: nat)
    ensures n <= |groups| && forall i :: 0 <= i < n ==> groups[i].name != name
    ensures n < |groups| ==> groups[n].name == name
    decreases |groups|
  {
    if groups == [] || groups[0].name == name {
      n := 0;
    } else {
      var m := FirstWithName(groups[1..], name);
      n := m + 1;
    }
  }

  /** One configuration reaches the first group of its name and no other. */
  lemma UpdateFirstIsLay(groups: seq<Group>, cfg: GroupConfig, hf: Option<HFSecretRef>, order: Order)
    ensures var r := UpdateFirst(groups, cfg, hf, order);
      |r| == |groups| && forall i :: 0 <= i < |groups| ==>
        r[i] ==
          if FirstNamed(groups, i) && groups[i].name == cfg.name then Lay(Desired(cfg, order), groups[i], hf)
          else groups[i]
  {
    var n := FirstWithName(groups, cfg.name);
    UpdateFirstAt(groups, cfg, hf, order, n);
    if n < |groups| {
      ApplyIsLay(cfg, groups[n], hf, order);
    }
  }

  lemma AddTokenKeepsReadable(env: seq<EnvVar>, hf: Option<HFSecretRef>, secret: string)
    requires TokensReadable(env, secret)
    ensures TokensReadable(AddToken(env, hf), secret)
  {
    var after := AddToken(env, hf);
    forall j | 0 <= j < |after| && after[j].name == TOKEN && !after[j].value.SecretKey?
      ensures exists i :: 0 <= i < j && IsToken(after[i], secret)
    {
      var i :| 0 <= i < j && IsToken(env[i], secret);
      assert after[i] == env[i];
    }
  }

  lemma UpdateKeepsUpdatable(groups: seq<Group>, cfg: GroupConfig, cfgs: seq<GroupConfig>, hf: Option<HFSecretRef>,
                             order: Order)
    requires AllUpdatable(groups, cfgs, hf)
    ensures AllUpdatable(UpdateFirst(groups, cfg, hf, order), cfgs, hf)
  {
    var r := UpdateFirst(groups, cfg, hf, order);
    UpdateFirstIsLay(groups, cfg, hf, order);
    forall n, i | 0 <= n < |cfgs| && 0 <= i < |r| && FirstNamed(r, i) && r[i].name == cfgs[n].name
      ensures Updatable(r[i], cfgs[n], hf)
    {
      assert forall j :: 0 <= j < |r| ==> r[j].name == groups[j].name;
      assert FirstNamed(groups, i) && UpdatableBy(groups, cfgs[n], hf);
      if hf.Some? {
        AddTokenKeepsReadable(groups[i].containers[0].env, hf, hf.value.name);
      }
    }
  }

  /**
   For every list, shared names included: the first group of a name gets the overlay of all
   configurations of that name, every other group stays, and so does the sequence of names.
   */
  lemma {:induction false} UpdateIsOverlay(groups: seq<Group>, cfgs: seq<GroupConfig>, hf: Option<HFSecretRef>,
                                           order: Order)
    ensures var r := UpdateGroups(groups, cfgs, hf, order);
      |r| == |groups| && forall i :: 0 <= i < |groups| ==>
        && r[i].name == groups[i].name
        && var o := OverlayFor(cfgs, groups[i].name, order);
           r[i] == if FirstNamed(groups, i) && o.Some? then Lay(o.value, groups[i], hf) else groups[i]
  {
    if cfgs == [] {
    } else {
      var init, cfg := cfgs[..|cfgs| - 1], cfgs[|cfgs| - 1];
      UpdateIsOverlay(groups, init, hf, order);
      var mid := UpdateGroups(groups, init, hf, order);
      UpdateFirstIsLay(mid, cfg, hf, order);
      forall i | 0 <= i < |groups|
        ensures FirstNamed(mid, i) <==> FirstNamed(groups, i)
      {
      }
      forall i | 0 <= i < |groups| && OverlayFor(init, groups[i].name, order).Some? {
        LayTwice(OverlayFor(init, groups[i].name, order).value, Desired(cfg, order), groups[i], hf);
      }
    }
  }

  lemma {:induction false} OverlaysLayAlike(cfgs: seq<GroupConfig>, name: string, order: Order, order': Order)
    ensures var o, o' := OverlayFor(cfgs, name, order), OverlayFor(cfgs, name, order');
      && o.Some? == o'.Some?
      && (o.Some? ==> o.value.params.Keys == o'.value.params.Keys && o.value.resources == o'.value.resources)
  {
    if cfgs == [] {
    } else {
      OverlaysLayAlike(cfgs[..|cfgs| - 1], name, order, order');
    }
  }

  /** Of two runs of the loops with different map orders, the later one decides, whatever the names. */
  lemma LaterUpdateDecides(groups: seq<Group>, cfgs: seq<GroupConfig>, hf: Option<HFSecretRef>, order: Order,
                           order': Order)
    ensures UpdateGroups(UpdateGroups(groups, cfgs, hf, order), cfgs, hf, order') ==
      UpdateGroups(groups, cfgs, hf, order')
  {
    var r, r' := UpdateGroups(groups, cfgs, hf, order), UpdateGroups(groups, cfgs, hf, order');
    UpdateIsOverlay(groups, cfgs, hf, order);
    UpdateIsOverlay(groups, cfgs, hf, order');
    UpdateIsOverlay(r, cfgs, hf, order');
    forall i | 0 <= i < |r|
      ensures UpdateGroups(r, cfgs, hf, order')[i] == r'[i]
    {
      assert FirstNamed(r, i) <==> FirstNamed(groups, i);
      OverlaysLayAlike(cfgs, groups[i].name, order, order');
      var o, o' := OverlayFor(cfgs, groups[i].name, order), OverlayFor(cfgs, groups[i].name, order');
      if o.Some? {
        LayTwice(o.value, o'.value, groups[i], hf);
        LayCovered(o.value, o'.value, groups[i], hf);
      }
    }
  }

  lemma LayCovered(lower: Overlay, upper: Overlay, g: Group, hf: Option<HFSecretRef>)
    requires lower.params.Keys == upper.params.Keys && lower.resources == upper.resources
    ensures Lay(Over(lower, upper), g, hf) == Lay(upper, g, hf)
  {
    assert lower.params + upper.params == upper.params;
  }

  /** Running the loops again changes nothing, whatever the names. */
  lemma ReapplyChangesNothing(groups: seq<Group>, cfgs: seq<GroupConfig>, hf: Option<HFSecretRef>, order: Order)
    ensures var r := UpdateGroups(groups, cfgs, hf, order);
      UpdateGroups(r, cfgs, hf, order) == r
  {
    LaterUpdateDecides(groups, cfgs, hf, order, order);
  }

  // ----- Which map orders matter -----

  /** The accelerators that decide the parameter for a name, none if the last to set it is a start parameter. */
  function LastAccelerators(cfgs: seq<GroupConfig>, name: string): map<string, int> {
    if cfgs == [] then map[]
    else
      var last := cfgs[|cfgs| - 1];
      if last.name == name && last.acceleratorTypes != map[] then last.acceleratorTypes
      else if last.name == name && last.startParams.Some? && RESOURCES in last.startParams.value then map[]
      else LastAccelerators(cfgs[..|cfgs| - 1], name)
  }

  function Printed(types: map<string, int>, order: Order): Option<string> {
    if types == map[] then None else Some(Print(types, order))
  }

  function WithResources(params: map<string, string>, resources: Option<string>): map<string, string> {
    if resources.None? then params else params[RESOURCES := resources.value]
  }

  /** The overlay with the accelerators printed under `order`. */
  function Reprinted(o: Overlay, types: map<string, int>, order: Order): Overlay {
    o.(params := WithResources(o.params, Printed(types, order)))
  }

  /** Another map order changes the overlay in that string only. */
  lemma {:induction false} OverlayUnderOrder(cfgs: seq<GroupConfig>, name: string, order: Order, order': Order)
    ensures var o, o', types :=
      OverlayFor(cfgs, name, order), OverlayFor(cfgs, name, order'), LastAccelerators(cfgs, name);
      && o.Some? == o'.Some?
      && (o.None? ==> types == map[])
      && (o.Some? ==> o'.value == Reprinted(o.value, types, order'))
  {
    if cfgs == [] {
    } else {
      var init, last := cfgs[..|cfgs| - 1], cfgs[|cfgs| - 1];
      OverlayUnderOrder(init, name, order, order');
      if last.name == name {
        DesiredUnderOrder(last, order, order');
        var o := OverlayFor(init, name, order);
        if o.Some? {
          OverReprinted(o.value, Desired(last, order), LastAccelerators(init, name), last.acceleratorTypes, order');
        }
      }
    }
  }

  lemma DesiredUnderOrder(cfg: GroupConfig, order: Order, order': Order)
    ensures Desired(cfg, order') == Reprinted(Desired(cfg, order), cfg.acceleratorTypes, order')
    ensures cfg.startParams.Some? && RESOURCES in cfg.startParams.value ==> RESOURCES in Desired(cfg, order).params
    ensures RESOURCES in Desired(cfg, order).params && cfg.acceleratorTypes == map[] ==>
      cfg.startParams.Some? && RESOURCES in cfg.startParams.value
  {
  }

  /** The parameter of the upper overlay hides that of the lower one. */
  lemma OverReprinted(lower: Overlay, upper: Overlay, types: map<string, int>, types': map<string, int>, order: Order)
    ensures Over(Reprinted(lower, types, order), Reprinted(upper, types', order)) ==
      Reprinted(Over(lower, upper),
                if types' != map[] then types' else if RESOURCES in upper.params then map[] else types, order)
  {
    ResourcesHide(lower.params, upper.params, Printed(types, order), Printed(types', order));
  }

  lemma ResourcesHide(lower: map<string, string>, upper: map<string, string>, v: Option<string>, v': Option<string>)
    ensures WithResources(lower, v) + WithResources(upper, v') ==
      WithResources(lower + upper, if v'.Some? then v' else if RESOURCES in upper then None else v)
  {
  }

  /** A configuration with accelerators makes its name's overlay set the parameter. */
  lemma {:induction false} OverlaySetsResources(cfgs: seq<GroupConfig>, n: nat, order: Order)
    requires n < |cfgs| && cfgs[n].acceleratorTypes != map[]
    ensures var o := OverlayFor(cfgs, cfgs[n].name, order);
      o.Some? && RESOURCES in o.value.params
    decreases |cfgs|
  {
    var last := |cfgs| - 1;
    if n < last {
      OverlaySetsResources(cfgs[..last], n, order);
    }
  }

  /** The loops ignore the map order exactly when every group they reach has a uniform deciding map. */
  ghost predicate OrderIsIrrelevant(groups: seq<Group>, cfgs: seq<GroupConfig>) {
    forall i :: 0 <= i < |groups| && FirstNamed(groups, i) ==> Uniform(LastAccelerators(cfgs, groups[i].name))
  }

  lemma UpdateIgnoresOrderIff(groups: seq<Group>, cfgs: seq<GroupConfig>, hf: Option<HFSecretRef>)
    ensures (forall order, order' :: LegalOrder(order) && LegalOrder(order') ==>
               UpdateGroups(groups, cfgs, hf, order) == UpdateGroups(groups, cfgs, hf, order'))
        <==> OrderIsIrrelevant(groups, cfgs)
  {
    if OrderIsIrrelevant(groups, cfgs) {
      forall order, order' | LegalOrder(order) && LegalOrder(order')
        ensures UpdateGroups(groups, cfgs, hf, order) == UpdateGroups(groups, cfgs, hf, order')
      {
        UniformUpdatesAlike(groups, cfgs, hf, order, order');
      }
    } else {
      var i :| 0 <= i < |groups| && FirstNamed(groups, i) && !Uniform(LastAccelerators(cfgs, groups[i].name));
      var order, order' := MixedUpdatesDifferently(groups, cfgs, hf, i);
    }
  }

  lemma UniformUpdatesAlike(groups: seq<Group>, cfgs: seq<GroupConfig>, hf: Option<HFSecretRef>, order: Order,
                            order': Order)
    requires OrderIsIrrelevant(groups, cfgs) && LegalOrder(order) && LegalOrder(order')
    ensures UpdateGroups(groups, cfgs, hf, order) == UpdateGroups(groups, cfgs, hf, order')
  {
    var r, r' := UpdateGroups(groups, cfgs, hf, order), UpdateGroups(groups, cfgs, hf, order');
    UpdateIsOverlay(groups, cfgs, hf, order);
    UpdateIsOverlay(groups, cfgs, hf, order');
    forall i | 0 <= i < |groups|
      ensures r[i] == r'[i]
    {
      if FirstNamed(groups, i) {
        UniformOverlaysAgree(cfgs, groups[i].name, order, order');
      }
    }
  }

  lemma UniformOverlaysAgree(cfgs: seq<GroupConfig>, name: string, order: Order, order': Order)
    requires Uniform(LastAccelerators(cfgs, name)) && LegalOrder(order) && LegalOrder(order')
    ensures OverlayFor(cfgs, name, order) == OverlayFor(cfgs, name, order')
  {
    OverlayUnderOrder(cfgs, name, order, order');
    OverlayUnderOrder(cfgs, name, order, order);
    OrdersPrintAlikeIff(LastAccelerators(cfgs, name));
  }

  lemma MixedUpdatesDifferently(groups: seq<Group>, cfgs: seq<GroupConfig>, hf: Option<HFSecretRef>, i: nat)
    returns (order: Order, order': Order)
    requires i < |groups| && FirstNamed(groups, i) && !Uniform(LastAccelerators(cfgs, groups[i].name))
    ensures LegalOrder(order) && LegalOrder(order')
    ensures UpdateGroups(groups, cfgs, hf, order) != UpdateGroups(groups, cfgs, hf, order')
  {
    var types := LastAccelerators(cfgs, groups[i].name);
    OrdersPrintAlikeIff(types);
    order, order' :| LegalOrder(order) && LegalOrder(order') && Print(types, order) != Print(types, order');
    UpdateIsOverlay(groups, cfgs, hf, order);
    UpdateIsOverlay(groups, cfgs, hf, order');
    OverlayUnderOrder(cfgs, groups[i].name, order, order);
    OverlayUnderOrder(cfgs, groups[i].name, order, order');
    var r, r' := UpdateGroups(groups, cfgs, hf, order), UpdateGroups(groups, cfgs, hf, order');
    assert r[i].startParams[RESOURCES] == Print(types, order);
    assert r'[i].startParams[RESOURCES] == Print(types, order');
  }

  // ----- Distinct names: a merge by name -----

  ghost predicate GroupNamesDiffer(groups: seq<Group>) {
    forall i, j :: 0 <= i < j < |groups| ==> groups[i].name != groups[j].name
  }

  ghost predicate ConfigNamesDiffer(cfgs: seq<GroupConfig>) {
    forall i, j :: 0 <= i < j < |cfgs| ==> cfgs[i].name != cfgs[j].name
  }

  lemma {:induction false} OverlayOfNone(cfgs: seq<GroupConfig>, name: string, order: Order)
    ensures OverlayFor(cfgs, name, order).None? <==> forall i :: 0 <= i < |cfgs| ==> cfgs[i].name != name
  {
    if cfgs == [] {
    } else {
      OverlayOfNone(cfgs[..|cfgs| - 1], name, order);
    }
  }

  lemma {:induction false} OverlayOfOne(cfgs: seq<GroupConfig>, n: nat, order: Order)
    requires n < |cfgs| && ConfigNamesDiffer(cfgs)
    ensures OverlayFor(cfgs, cfgs[n].name, order) == Some(Desired(cfgs[n], order))
    decreases |cfgs|
  {
    var last := |cfgs| - 1;
    if n < last {
      OverlayOfOne(cfgs[..last], n, order);
    } else {
      OverlayOfNone(cfgs[..last], cfgs[n].name, order);
    }
  }

  /** With distinct names every group gets the configuration of its name. */
  lemma UpdateIsMerge(groups: seq<Group>, cfgs: seq<GroupConfig>, hf: Option<HFSecretRef>, order: Order, i: nat, n: nat)
    requires GroupNamesDiffer(groups) && ConfigNamesDiffer(cfgs)
    requires i < |groups| && n < |cfgs| && cfgs[n].name == groups[i].name
    ensures var r := UpdateGroups(groups, cfgs, hf, order);
      |r| == |groups| && r[i] == ApplyConfig(cfgs[n], groups[i], hf, order)
  {
    UpdateIsOverlay(groups, cfgs, hf, order);
    OverlayOfOne(cfgs, n, order);
    ApplyIsLay(cfgs[n], groups[i], hf, order);
  }

  /** A group without a configuration is untouched. */
  lemma UnnamedIsUntouched(groups: seq<Group>, cfgs: seq<GroupConfig>, hf: Option<HFSecretRef>, order: Order, i: nat)
    requires i < |groups| && forall n :: 0 <= n < |cfgs| ==> cfgs[n].name != groups[i].name
    ensures var r := UpdateGroups(groups, cfgs, hf, order);
      |r| == |groups| && r[i] == groups[i]
  {
    UpdateIsOverlay(groups, cfgs, hf, order);
    OverlayOfNone(cfgs, groups[i].name, order);
  }

  // ----- What an update changes -----

  /** Configured start parameters win, others stay; the accelerators decide `resources`. */
  ghost predicate ParamsUpdated(cfg: GroupConfig, params: map<string, string>, params': map<string, string>,
                                order: Order) {
    var given := if cfg.startParams.Some? then cfg.startParams.value else map[];
    && (forall p :: p != "resources" || cfg.acceleratorTypes == map[] ==>
          if p in given then p in params' && params'[p] == given[p]
          else if p in params then p in params' && params'[p] == params[p]
          else p !in params')
    && (cfg.acceleratorTypes != map[] ==>
          && "resources" in params'
          && params'["resources"] == AcceleratorString(cfg.acceleratorTypes, order(cfg.acceleratorTypes)))
  }

  /** The first container gets the configured resources and one more entry when the token of the secret is missing. */
  ghost predicate ContainerUpdated(cfg: GroupConfig, c: Container, c': Container, hf: Option<HFSecretRef>) {
    && c'.image == c.image && c'.lifecycle == c.lifecycle && c'.mounts == c.mounts
    && c'.resources == (if cfg.resources.Some? then cfg.resources.value else c.resources)
    && c'.env ==
       if hf == None || (exists e :: e in c.env && e.name == "HUGGING_FACE_HUB_TOKEN" && e.value.SecretKey? &&
                                     e.value.secret == hf.value.name)
       then c.env
       else c.env + [EnvVar("HUGGING_FACE_HUB_TOKEN", SecretKey(hf.value.name, hf.value.secretKey))]
  }

  lemma UpdatedGroupHolds(cfg: GroupConfig, g: Group, hf: Option<HFSecretRef>, order: Order)
    ensures var g' := ApplyConfig(cfg, g, hf, order);
      && g'.name == g.name && g'.volumes == g.volumes
      && g'.replicas == cfg.replicas && g'.minReplicas == cfg.minReplicas && g'.maxReplicas == cfg.maxReplicas
      && g'.runtimeClass == cfg.runtimeClass && g'.nodeSelector == cfg.nodeSelector && g'.tolerations == cfg.tolerations
      && ParamsUpdated(cfg, g.startParams, g'.startParams, order)
      && |g'.containers| == |g.containers|
      && (g.containers != [] ==>
            && g'.containers[1..] == g.containers[1..]
            && ContainerUpdated(cfg, g.containers[0], g'.containers[0], hf))
  {
    if g.containers != [] && hf.Some? {
      TokenIsEntry(g.containers[0].env, hf.value.name);
    }
  }

  lemma TokenIsEntry(env: seq<EnvVar>, secret: string)
    ensures HasToken(env, secret) <==>
      exists e :: e in env && e.name == "HUGGING_FACE_HUB_TOKEN" && e.value.SecretKey? && e.value.secret == secret
  {
    if e :| e in env && e.name == "HUGGING_FACE_HUB_TOKEN" && e.value.SecretKey? && e.value.secret == secret {
      assert IsToken(e, secret);
    }
    if e :| e in env && IsToken(e, secret) {
      assert e.name == "HUGGING_FACE_HUB_TOKEN";
    }
  }
}
