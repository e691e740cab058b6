/** The controllers: TemplateHandler and TemplateVersionHandler over one API server. */
module TemplateHandlers {
  import opened Wrappers
  import opened ApiStore
  import opened Conditions
  import opened ModelVersions
  import opened CreationOrder
  import opened TemplateReconcile
  import P = VersionProtocol
  import R = VersionRuns
  import Refs

  class Cluster {
    var versions: VersionDb
    var templates: TemplateDb

    constructor (versions: VersionDb, templates: TemplateDb)
      ensures this.versions == versions && this.templates == templates
    {
      this.versions, this.templates := versions, templates;
    }
  }

  /** What AssignVersion leaves behind. */
  datatype AssignResult = AssignResult(db: VersionDb, counters: map<string, int>, err: Option<HandlerError>)

  /**
   AssignVersion without interruption. `template` is the owner reference built from the
   cached template, or None when the cache has no such template.
   */
  function Assign(db: VersionDb, counters: map<string, int>, k: ObjKey, copy: Version, template: Option<Owner>,
                  metaUp: bool, statusUp: bool): AssignResult {
    if !NeedsNumber(copy) then
      AssignResult(db, counters, None)
    else if template.None? then
      AssignResult(db, counters, Some(TemplateMissing))
    else
      var labelled := copy.(meta := LabelAndOwn(copy.meta, template.value));
      var r1 := Update(db, k, labelled, metaUp);
      if r1.result.Failure? then
        AssignResult(db, counters, Some(Api(r1.result.error)))
      else
        var ref := TemplateRef(k, copy);
        var r2 := UpdateStatus(r1.db, k, WithNumber(labelled, Counter(counters, ref) + 1), statusUp);
        if r2.result.Failure? then
          AssignResult(r1.db, counters, Some(Api(r2.result.error)))
        else
          AssignResult(r2.db, counters[ref := Counter(counters, ref) + 1], None)
  }

  class TemplateHandler {
    const cluster: Cluster
    var latestVersionMap: map<string, int>

    /** TemplateRegister: `list` is what the API server lists at start-up. */
    constructor (cluster: Cluster, list: seq<Item>)
      ensures this.cluster == cluster && latestVersionMap == Scan(list)
    {
      this.cluster := cluster;
      latestVersionMap := map[];
      new;
      InitLatestVersionMap(list);
    }

    method InitLatestVersionMap(list: seq<Item>)
      requires latestVersionMap == map[]
      modifies this
      ensures latestVersionMap == Scan(list)
    {
      assert list[..0] == [];
      for i := 0 to |list|
        invariant latestVersionMap == Scan(list[..i])
      {
        var ref := TemplateRef(list[i].0, list[i].1);
        if Assigned(list[i].1) && list[i].1.status.version > Counter(latestVersionMap, ref) {
          latestVersionMap := latestVersionMap[ref := list[i].1.status.version];
        }
        assert list[..i + 1][..i] == list[..i];
      }
      assert list[..|list|] == list;
    }

    method AssignVersion(k: ObjKey, copy: Version, template: Option<Owner>, metaUp: bool, statusUp: bool)
      returns (err: Option<HandlerError>)
      modifies this, cluster
      ensures AssignResult(cluster.versions, latestVersionMap, err) ==
              Assign(old(cluster.versions), old(latestVersionMap), k, copy, template, metaUp, statusUp)
      ensures cluster.templates == old(cluster.templates)
    {
      if copy.meta.deleting || Assigned(copy) {
        return None;
      }
      if template.None? {
        return Some(TemplateMissing);
      }
      var toUpdate := copy.(meta := copy.meta.(labels := copy.meta.labels[TEMPLATE_LABEL := copy.meta.templateName]));
      if toUpdate.meta.owners == [] {
        toUpdate := toUpdate.(meta := toUpdate.meta.(owners := [template.value]));
      }
      var metaReply := Update(cluster.versions, k, toUpdate, metaUp);
      cluster.versions := metaReply.db;
      if metaReply.result.Failure? {
        return Some(Api(metaReply.result.error));
      }
      var ref := Refs.NewRef(k.ns, copy.meta.templateName);
      toUpdate := WithNumber(toUpdate, Counter(latestVersionMap, ref) + 1);
      var statusReply := UpdateStatus(cluster.versions, k, toUpdate, statusUp);
      cluster.versions := statusReply.db;
      if statusReply.result.Failure? {
        return Some(Api(statusReply.result.error));
      }
      latestVersionMap := latestVersionMap[ref := Counter(latestVersionMap, ref) + 1];
      return None;
    }

    method GetFirstTemplateVersion(list: seq<Item>) returns (first: Option<Item>)
      ensures first == FirstAssigned(list)
      ensures IsFirstAssigned(list, first)
    {
      FirstAssignedIsLeast(list);
      var sorted := SortByCreation(list);
      for i := 0 to |sorted|
        invariant FirstAssigned(list) == FirstAssignedIn(sorted[i..])
      {
        if Assigned(sorted[i].1) {
          return Some(sorted[i]);
        }
      }
      return None;
    }

    /** `versions` is the version cache, `list` what it lists under the template's label, in any order. */
    method SetDefaultVersion(k: ObjKey, t: Template, versions: map<ObjKey, Version>, list: seq<Item>, up: bool)
      returns (err: Option<HandlerError>)
      modifies cluster
      ensures TemplateReply(cluster.templates, err) ==
              SetDefault(old(cluster.templates), k, t, View(versions, FirstAssigned(list), 0), up)
      ensures cluster.versions == old(cluster.versions)
    {
      if t.meta.deleting {
        return None;
      }
      if t.meta.defaultVersionId == "" {
        var first := GetFirstTemplateVersion(list);
        if first.None? {
          return None;
        }
        if first.value.1.status.assignedCond.status == No {
          return Some(NotAssignedYet);
        }
        var ref := Refs.NewRef(first.value.0.ns, first.value.0.name);
        var reply := Update(cluster.templates, k, t.(meta := t.meta.(defaultVersionId := ref)), up);
        cluster.templates := reply.db;
        return ErrOf(reply.result);
      }
      var vk := DefaultKey(t);
      if vk !in versions {
        var missing := SetError(Some(NotFoundMessage(vk)));
        if t.status.defaultAssigned == missing {
          return Some(Api(NotFound));
        }
        var reply := UpdateStatus(cluster.templates, k, t.(status := t.status.(defaultAssigned := missing)), up);
        cluster.templates := reply.db;
        return ErrOf(reply.result);
      }
      var v := versions[vk];
      if v.status.assignedCond.status == No {
        return Some(NotAssignedYet);
      }
      if t.status.defaultVersion == v.status.version && t.status.defaultAssigned.status == Yes {
        return None;
      }
      var toUpdate := t.(status := t.status.(defaultVersion := v.status.version, defaultAssigned := SetError(None)));
      var reply := UpdateStatus(cluster.templates, k, toUpdate, up);
      cluster.templates := reply.db;
      return ErrOf(reply.result);
    }

    method SyncLatestVersion(k: ObjKey, t: Template, up: bool) returns (err: Option<HandlerError>)
      modifies cluster
      ensures var counter := Counter(latestVersionMap, Refs.NewRef(k.ns, k.name));
        TemplateReply(cluster.templates, err) ==
        SyncLatest(old(cluster.templates), k, t, View(map[], None, counter), up)
      ensures cluster.versions == old(cluster.versions)
    {
      var ref := Refs.NewRef(k.ns, k.name);
      if t.meta.deleting || t.status.latestVersion == Counter(latestVersionMap, ref) {
        return None;
      }
      var toUpdate := t.(status := t.status.(latestVersion := Counter(latestVersionMap, ref)));
      var reply := UpdateStatus(cluster.templates, k, toUpdate, up);
      cluster.templates := reply.db;
      return ErrOf(reply.result);
    }

    method DeleteLatestVersion(k: ObjKey)
      modifies this
      ensures latestVersionMap == old(latestVersionMap) - {Refs.NewRef(k.ns, k.name)}
    {
      latestVersionMap := latestVersionMap - {Refs.NewRef(k.ns, k.name)};
    }
  }

  class TemplateVersionHandler {
    const cluster: Cluster

    constructor (cluster: Cluster)
      ensures this.cluster == cluster
    {
      this.cluster := cluster;
    }

    method OnChange(k: ObjKey, copy: Version, self: Owner, up: bool)
      modifies cluster
      ensures cluster.versions == OnChangeWrite(old(cluster.versions), k, copy, self, up)
      ensures cluster.templates == old(cluster.templates)
    {
      if copy.meta.deleting {
        return;
      }
      var toUpdate := copy.(meta := copy.meta.(labels := copy.meta.labels[TEMPLATE_LABEL := copy.meta.templateName]));
      if toUpdate.meta.owners == [] {
        toUpdate := toUpdate.(meta := toUpdate.meta.(owners := [self]));
      }
      if toUpdate != copy {
        cluster.versions := Update(cluster.versions, k, toUpdate, up).db;
      }
    }

    method ConfigModelDeployment(k: ObjKey, copy: Version, generated: Result<string, string>, up: bool)
      modifies cluster
      ensures cluster.versions == ConfigureWrite(old(cluster.versions), k, copy, generated, up)
      ensures cluster.templates == old(cluster.templates)
    {
      if copy.meta.deleting || Configured(copy) {
        return;
      }
      var toUpdate := copy;
      match generated {
        case Failure(message) =>
          toUpdate := toUpdate.(status := toUpdate.status.(configuredCond := SetError(Some(message))));
        case Success(config) =>
          toUpdate := toUpdate.(status := toUpdate.status.(config := config));
          toUpdate := toUpdate.(status := toUpdate.status.(configuredCond := SetError(None)));
      }
      if toUpdate.status != copy.status {
        cluster.versions := UpdateStatus(cluster.versions, k, toUpdate, up).db;
      }
    }
  }

  // ----- What one uninterrupted AssignVersion call does -----

  /** The copy is what the server holds now, and already carries label and owner. */
  predicate UpToDate(db: VersionDb, k: ObjKey, copy: Version, owner: Owner) {
    k in db.objects && db.objects[k].rv == copy.rv && LabelAndOwn(copy.meta, owner) == copy.meta
  }

  /**
   The status write reuses the resource version from before the metadata write. So a call
   hands out a number exactly when its metadata write had nothing to change.
   */
  lemma AssignSucceedsIff(db: VersionDb, seen: set<Item>, counters: map<string, int>, k: ObjKey, copy: Version,
                          owner: Owner, metaUp: bool, statusUp: bool)
    requires Consistent(db, seen) && (k, copy) in seen && NeedsNumber(copy)
    ensures var r := Assign(db, counters, k, copy, Some(owner), metaUp, statusUp);
      && (r.err == None <==> metaUp && statusUp && UpToDate(db, k, copy, owner))
      && (r.err == None ==>
            && k in r.db.objects
            && Assigned(r.db.objects[k])
            && r.db.objects[k].status.version == Counter(counters, TemplateRef(k, copy)) + 1)
      && (r.err != None ==>
            && r.counters == counters
            && (k in r.db.objects ==> k in db.objects && r.db.objects[k].status == db.objects[k].status))
  {
    if Accepts(db, k, copy, metaUp) {
      AcceptedCopyIsCurrent(db, seen, k, copy, metaUp);
    }
  }

  /** A new version needs two calls: the first labels it and ends in a conflict, the second numbers it. */
  lemma SecondCallAssigns(db: VersionDb, counters: map<string, int>, k: ObjKey, owner: Owner)
    requires k in db.objects && NeedsNumber(db.objects[k]) && db.objects[k].rv <= db.revision
    requires LabelAndOwn(db.objects[k].meta, owner) != db.objects[k].meta
    ensures var r1 := Assign(db, counters, k, db.objects[k], Some(owner), true, true);
      && r1.err == Some(Api(Conflict)) && r1.counters == counters && k in r1.db.objects
      && var r2 := Assign(r1.db, r1.counters, k, r1.db.objects[k], Some(owner), true, true);
         r2.err == None && Assigned(r2.db.objects[k])
  {
    var m := db.objects[k].meta;
    assert LabelAndOwn(LabelAndOwn(m, owner), owner) == LabelAndOwn(m, owner);
  }

  /**
   A version that is being deleted or has its number, and a missing template, leave store and
   counters alone. Only the last is an error.
   */
  lemma AssignSkips(db: VersionDb, counters: map<string, int>, k: ObjKey, copy: Version, template: Option<Owner>,
                    metaUp: bool, statusUp: bool)
    requires copy.meta.deleting || copy.status.assignedCond.status == Yes || template == None
    ensures var r := Assign(db, counters, k, copy, template, metaUp, statusUp);
      && r.db == db && r.counters == counters
      && r.err == if copy.meta.deleting || copy.status.assignedCond.status == Yes then None else Some(TemplateMissing)
  {
  }

  /** Steps of the AssignVersion call `id` and of nothing else. */
  predicate OwnSteps(steps: seq<P.Step>, id: nat) {
    forall step :: step in steps ==>
      match step
      case Begin(i, _, _) => i == id
      case Label(i, _, _) => i == id
      case ReadCounter(i) => i == id
      case WriteNumber(i, _) => i == id
      case Increment(i) => i == id
      case _ => false
  }

  /** The call up to and including its metadata write. */
  lemma StartRuns(s: P.State, id: nat, k: ObjKey, copy: Version, owner: Owner, up: bool) returns (steps: seq<P.Step>)
    requires id !in s.calls && (k, copy) in s.seen && NeedsNumber(copy)
    ensures P.Legal(s, steps) && OwnSteps(steps, id)
    ensures var r, s' := Update(s.db, k, copy.(meta := LabelAndOwn(copy.meta, owner)), up), P.After(s, steps);
      && s'.db == r.db && s'.counters == s.counters
      && s'.calls == if r.result.Success? then s.calls[id := P.Call(k, copy, P.Labelled)] else s.calls
  {
    R.RunExtends(s, [], P.Begin(id, k, copy));
    steps := [] + [P.Begin(id, k, copy)];
    R.RunExtends(s, steps, P.Label(id, owner, up));
    steps := steps + [P.Label(id, owner, up)];
    assert s.calls[id := P.Call(k, copy, P.Started)] - {id} == s.calls;
  }

  /** The rest of the call: status write and increment. */
  lemma FinishRuns(s: P.State, calls: map<nat, P.Call>, id: nat, k: ObjKey, copy: Version, up: bool)
    returns (steps: seq<P.Step>)
    requires id !in calls && s.calls == calls[id := P.Call(k, copy, P.Labelled)]
    ensures P.Legal(s, steps) && OwnSteps(steps, id)
    ensures var ref := TemplateRef(k, copy);
      var n := Counter(s.counters, ref) + 1;
      var r, s' := UpdateStatus(s.db, k, WithNumber(copy, n), up), P.After(s, steps);
      && s'.db == r.db && s'.counters == (if r.result.Success? then s.counters[ref := n] else s.counters)
      && s'.calls == calls
  {
    R.RunExtends(s, [], P.ReadCounter(id));
    steps := [] + [P.ReadCounter(id)];
    R.RunExtends(s, steps, P.WriteNumber(id, up));
    steps := steps + [P.WriteNumber(id, up)];
    var s' := P.After(s, steps);
    if id in s'.calls {
      R.RunExtends(s, steps, P.Increment(id));
      steps := steps + [P.Increment(id)];
    }
    assert P.After(s, steps).calls == calls;
  }

  lemma WorkingCallIsARun(s: P.State, id: nat, k: ObjKey, copy: Version, owner: Owner, metaUp: bool, statusUp: bool)
    returns (steps: seq<P.Step>)
    requires id !in s.calls && (k, copy) in s.seen && NeedsNumber(copy)
    ensures P.Legal(s, steps) && OwnSteps(steps, id)
    ensures var r, s' := Assign(s.db, s.counters, k, copy, Some(owner), metaUp, statusUp), P.After(s, steps);
      s'.db == r.db && s'.counters == r.counters && s'.calls == s.calls
  {
    var start := StartRuns(s, id, k, copy, owner, metaUp);
    steps := start;
    var s' := P.After(s, start);
    if id in s'.calls {
      var finish := FinishRuns(s', s.calls, id, k, copy, statusUp);
      R.RunsCompose(s, start, finish);
      steps := start + finish;
    }
  }

  /**
   The uninterrupted call, on any cached copy and with or without the template, is a run of its own
   steps; so everything proved about runs holds for it.
   */
  lemma AssignIsARun(s: P.State, id: nat, k: ObjKey, copy: Version, template: Option<Owner>, metaUp: bool,
                     statusUp: bool)
    returns (steps: seq<P.Step>)
    requires id !in s.calls && (k, copy) in s.seen
    ensures P.Legal(s, steps) && OwnSteps(steps, id)
    ensures var r, s' := Assign(s.db, s.counters, k, copy, template, metaUp, statusUp), P.After(s, steps);
      s'.db == r.db && s'.counters == r.counters && s'.calls == s.calls
  {
    if copy.meta.deleting || copy.status.assignedCond.status == Yes || template == None {
      AssignSkips(s.db, s.counters, k, copy, template, metaUp, statusUp);
      steps := [];
    } else {
      steps := WorkingCallIsARun(s, id, k, copy, template.value, metaUp, statusUp);
    }
  }
}
