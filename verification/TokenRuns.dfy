/** Token entries of the worker groups over any run of updates from changing MLServices. */
module TokenRuns {
  import opened Wrappers
  import opened AcceleratorLists
  import opened WorkerGroups
  import opened RayServices
  import opened Pods

  /** One update of the run: the service as it is then, the default image, the map order. */
  datatype Change = Change(svc: MLService, image: string, order: Order)

  function UpdateAll(spec: RaySpec, changes: seq<Change>): (spec': RaySpec)
    requires HasFirstContainer(spec)
    ensures HasFirstContainer(spec')
    decreases |changes|
  {
    if changes == [] then spec
    else
      var n := |changes| - 1;
      UpdateSpec(UpdateAll(spec, changes[..n]), changes[n].svc, changes[n].image, changes[n].order)
  }

  predicate Names(svc: MLService, name: string) {
    exists n :: 0 <= n < |svc.groups| && svc.groups[n].name == name
  }

  /** The secret an update uses for group `i`: that of a service that names it, if it is the first of its name. */
  function SecretFor(groups: seq<Group>, svc: MLService, i: nat): Option<HFSecretRef>
    requires i < |groups|
  {
    if FirstNamed(groups, i) && Names(svc, groups[i].name) then svc.hf else None
  }

  function SecretsFor(groups: seq<Group>, changes: seq<Change>, i: nat): seq<Option<HFSecretRef>>
    requires i < |groups|
  {
    seq(|changes|, n requires 0 <= n < |changes| => SecretFor(groups, changes[n].svc, i))
  }

  /** The groups are still the same ones, and group `i` has the environment `env`. */
  ghost predicate BecameEnv(groups: seq<Group>, groups': seq<Group>, i: nat, env: seq<EnvVar>)
    requires i < |groups|
  {
    && |groups'| == |groups|
    && (forall j :: 0 <= j < |groups| ==> groups'[j].name == groups[j].name)
    && groups'[i].containers != []
    && groups'[i].containers[0].env == env
  }

  lemma SecretsStay(groups: seq<Group>, groups': seq<Group>, svc: MLService, i: nat, env: seq<EnvVar>)
    requires i < |groups| && BecameEnv(groups, groups', i, env)
    ensures SecretFor(groups', svc, i) == SecretFor(groups, svc, i)
  {
    assert FirstNamed(groups', i) <==> FirstNamed(groups, i);
  }

  lemma UpdateAddsToken(spec: RaySpec, svc: MLService, image: string, order: Order, i: nat)
    requires HasFirstContainer(spec) && i < |spec.groups| && spec.groups[i].containers != []
    ensures BecameEnv(spec.groups, UpdateSpec(spec, svc, image, order).groups, i,
                      AddToken(spec.groups[i].containers[0].env, SecretFor(spec.groups, svc, i)))
  {
    var groups := WithImage(spec, ImageOf(svc, image)).groups;
    assert BecameEnv(spec.groups, groups, i, spec.groups[i].containers[0].env);
    SecretsStay(spec.groups, groups, svc, i, spec.groups[i].containers[0].env);
    UpdateIsOverlay(groups, svc.groups, svc.hf, order);
    OverlayOfNone(svc.groups, groups[i].name, order);
  }

  /** Over any run the environment of a group is what adding the tokens of its secrets one by one makes of it. */
  lemma {:induction false} RunAddsTokens(spec: RaySpec, changes: seq<Change>, i: nat)
    requires HasFirstContainer(spec) && i < |spec.groups| && spec.groups[i].containers != []
    ensures BecameEnv(spec.groups, UpdateAll(spec, changes).groups, i,
                      AddTokens(spec.groups[i].containers[0].env, SecretsFor(spec.groups, changes, i)))
    decreases |changes|
  {
    if changes == [] {
    } else {
      var n := |changes| - 1;
      var before, svc := UpdateAll(spec, changes[..n]), changes[n].svc;
      var env := AddTokens(spec.groups[i].containers[0].env, SecretsFor(spec.groups, changes[..n], i));
      RunAddsTokens(spec, changes[..n], i);
      UpdateAddsToken(before, svc, changes[n].image, changes[n].order, i);
      SecretsStay(spec.groups, before.groups, svc, i, env);
      assert SecretsFor(spec.groups, changes, i)[..n] == SecretsFor(spec.groups, changes[..n], i);
    }
  }

  /**
   Over any run of changing services, images and orders, a group gains one entry for each secret
   when that is first used for it, and keeps all its other entries; so no secret gets a second one.
   */
  lemma GroupsKeepOneTokenPerSecret(spec: RaySpec, changes: seq<Change>, i: nat)
    requires HasFirstContainer(spec) && i < |spec.groups| && spec.groups[i].containers != []
    ensures var env, groups := spec.groups[i].containers[0].env, UpdateAll(spec, changes).groups;
      && |groups| == |spec.groups| && groups[i].containers != []
      && groups[i].containers[0].env == env + NewTokens(env, SecretsFor(spec.groups, changes, i))
      && (OneTokenPerSecret(env) ==> OneTokenPerSecret(groups[i].containers[0].env))
  {
    var env := spec.groups[i].containers[0].env;
    RunAddsTokens(spec, changes, i);
    TokenRunAddsFirstUses(env, SecretsFor(spec.groups, changes, i));
    if OneTokenPerSecret(env) {
      TokenRunKeepsOnePerSecret(env, SecretsFor(spec.groups, changes, i));
    }
  }
}
