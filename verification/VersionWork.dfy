/** How often the three handlers of versions write at all: a measure that every effective write lowers. */
module VersionWork {
  import opened Wrappers
  import opened ApiStore
  import opened Conditions
  import opened ModelVersions
  import opened VersionProtocol
  import opened VersionInvariants
  import opened TemplateHandlers

  /** What building the model config of a version comes to; it depends on what users may not edit. */
  type Generator = ObjKey -> Result<string, string>

  predicate Complete(m: VersionMeta) {
    TEMPLATE_LABEL in m.labels && m.labels[TEMPLATE_LABEL] == m.templateName && m.owners != []
  }

  predicate ConfigSettled(k: ObjKey, v: Version, generator: Generator) {
    Configured(v) || ConfiguredStatus(v.status, generator(k)) == v.status
  }

  /** Label and owner, number, configuration: what is still to be written. */
  function Work(k: ObjKey, v: Version, generator: Generator): nat {
    (if Complete(v.meta) then 0 else 1) +
    (if Assigned(v) then 0 else 1) +
    (if ConfigSettled(k, v, generator) then 0 else 1)
  }

  /** None of the handlers writes exactly when the version is being deleted or no work is left. */
  lemma QuietIffNoWork(db: VersionDb, counters: map<string, int>, k: ObjKey, template: Owner, self: Owner,
                       generator: Generator)
    requires k in db.objects
    ensures var v := db.objects[k];
      && Assign(db, counters, k, v, Some(template), true, true).db == db
      && OnChangeWrite(db, k, v, self, true) == db
      && ConfigureWrite(db, k, v, generator(k), true) == db
      <==> v.meta.deleting || Work(k, v, generator) == 0
  {
    var v := db.objects[k];
    CompleteIff(v.meta, template);
    CompleteIff(v.meta, self);
    assert db.revision + 1 != db.revision;
  }

  lemma CompleteIff(m: VersionMeta, owner: Owner)
    ensures LabelAndOwn(m, owner) == m <==> Complete(m)
    ensures Complete(LabelAndOwn(m, owner))
  {
    if Complete(m) {
      assert m.labels[TEMPLATE_LABEL := m.templateName] == m.labels;
    }
  }

  // ----- Runs of the handlers -----

  /** No user writes, and each version keeps generating the same config; crashes are allowed. */
  predicate ByHandlers(step: Step, generator: Generator) {
    && !step.UserCreate? && !step.UserEdit? && !step.UserDelete?
    && (step.Configure? ==> step.generated == generator(step.key))
  }

  /** Nothing is written, or one version is and has less work left. */
  ghost predicate LessWork(db: VersionDb, db': VersionDb, k: ObjKey, generator: Generator) {
    || db' == db
    || (&& k in db.objects && k in db'.objects
        && db' == Put(db, k, db'.objects[k])
        && Work(k, db'.objects[k], generator) < Work(k, db.objects[k], generator))
  }

  lemma MetaWriteWorks(db: VersionDb, k: ObjKey, copy: Version, owner: Owner, up: bool, generator: Generator)
    requires Accepts(db, k, copy, up) ==> db.objects[k] == copy
    ensures LessWork(db, Update(db, k, copy.(meta := LabelAndOwn(copy.meta, owner)), up).db, k, generator)
  {
    CompleteIff(copy.meta, owner);
  }

  lemma NumberWriteWorks(db: VersionDb, k: ObjKey, copy: Version, n: int, up: bool, generator: Generator)
    requires NeedsNumber(copy) && (Accepts(db, k, copy, up) ==> db.objects[k] == copy)
    ensures LessWork(db, UpdateStatus(db, k, WithNumber(copy, n), up).db, k, generator)
  {
  }

  lemma ConfigWriteWorks(db: VersionDb, k: ObjKey, copy: Version, up: bool, generator: Generator)
    requires Accepts(db, k, copy, up) ==> db.objects[k] == copy
    ensures LessWork(db, ConfigureWrite(db, k, copy, generator(k), up), k, generator)
  {
  }

  /** Every step of the handlers, on copies of any age. */
  lemma StepWorks(s: State, step: Step, generator: Generator) returns (k: ObjKey)
    requires Enabled(s, step) && WellFormed(s) && ByHandlers(step, generator)
    ensures LessWork(s.db, Apply(s, step).db, k, generator)
  {
    match step
    case Label(id, owner, up) =>
      k := s.calls[id].key;
      CopyIsCurrent(s, k, s.calls[id].copy, up);
      MetaWriteWorks(s.db, k, s.calls[id].copy, owner, up, generator);
    case WriteNumber(id, up) =>
      k := s.calls[id].key;
      CopyIsCurrent(s, k, s.calls[id].copy, up);
      NumberWriteWorks(s.db, k, s.calls[id].copy, s.calls[id].phase.n, up, generator);
    case OnChange(key, copy, owner, up) =>
      k := key;
      CopyIsCurrent(s, key, copy, up);
      MetaWriteWorks(s.db, key, copy, owner, up, generator);
    case Configure(key, copy, _, up) =>
      k := key;
      CopyIsCurrent(s, key, copy, up);
      ConfigWriteWorks(s.db, key, copy, up, generator);
    case _ =>
      k := ObjKey("", "");
  }

  // ----- All versions together -----

  ghost function Total(db: VersionDb, keys: set<ObjKey>, generator: Generator): nat
    requires keys <= db.objects.Keys
    decreases keys
  {
    if keys == {} then 0
    else
      var k :| k in keys;
      Work(k, db.objects[k], generator) + Total(db, keys - {k}, generator)
  }

  lemma {:induction false} TotalSplits(db: VersionDb, keys: set<ObjKey>, k: ObjKey, generator: Generator)
    requires keys <= db.objects.Keys && k in keys
    ensures Total(db, keys, generator) == Work(k, db.objects[k], generator) + Total(db, keys - {k}, generator)
    decreases keys
  {
    var j :| j in keys && Total(db, keys, generator) ==
      Work(j, db.objects[j], generator) + Total(db, keys - {j}, generator);
    if j == k {
    } else {
      TotalSplits(db, keys - {j}, k, generator);
      TotalSplits(db, keys - {k}, j, generator);
      assert keys - {j} - {k} == keys - {k} - {j};
    }
  }

  lemma {:induction false} TotalFrame(db: VersionDb, db': VersionDb, keys: set<ObjKey>, generator: Generator)
    requires keys <= db.objects.Keys && keys <= db'.objects.Keys
    requires forall k :: k in keys ==> db'.objects[k] == db.objects[k]
    ensures Total(db', keys, generator) == Total(db, keys, generator)
    decreases keys
  {
    if keys == {} {
    } else {
      var k :| k in keys;
      TotalSplits(db, keys, k, generator);
      TotalSplits(db', keys, k, generator);
      TotalFrame(db, db', keys - {k}, generator);
    }
  }

  lemma {:induction false} TotalAtMost(db: VersionDb, keys: set<ObjKey>, generator: Generator)
    requires keys <= db.objects.Keys
    ensures Total(db, keys, generator) <= 3 * |keys|
    decreases keys
  {
    if keys == {} {
    } else {
      var k :| k in keys;
      TotalSplits(db, keys, k, generator);
      TotalAtMost(db, keys - {k}, generator);
    }
  }

  lemma StepLowersTotal(s: State, step: Step, generator: Generator)
    requires Enabled(s, step) && WellFormed(s) && ByHandlers(step, generator)
    ensures var db, db' := s.db, Apply(s, step).db;
      && db'.objects.Keys == db.objects.Keys
      && (db' == db || db'.revision == db.revision + 1)
      && (db' != db ==> Total(db', db'.objects.Keys, generator) < Total(db, db.objects.Keys, generator))
  {
    var k := StepWorks(s, step, generator);
    var db, db' := s.db, Apply(s, step).db;
    if db' != db {
      var keys := db.objects.Keys;
      assert db'.objects.Keys == keys;
      TotalSplits(db, keys, k, generator);
      TotalSplits(db', keys, k, generator);
      TotalFrame(db, db', keys - {k}, generator);
    }
  }

  /**
   Effective writes are counted by the revision. Over any run of the handlers, with crashes, stale
   copies and interleaved calls, there are at most three for each version.
   */
  lemma {:induction false} AtMostThreeWritesEach(s: State, steps: seq<Step>, generator: Generator)
    requires WellFormed(s) && Legal(s, steps) && forall step :: step in steps ==> ByHandlers(step, generator)
    ensures After(s, steps).db.objects.Keys == s.db.objects.Keys
    ensures s.db.revision <= After(s, steps).db.revision
    ensures After(s, steps).db.revision <= s.db.revision + Total(s.db, s.db.objects.Keys, generator)
    ensures After(s, steps).db.revision <= s.db.revision + 3 * |s.db.objects|
    decreases |steps|
  {
    TotalAtMost(s.db, s.db.objects.Keys, generator);
    if steps == [] {
    } else {
      assert steps[0] in steps;
      StepKeepsWellFormed(s, steps[0]);
      StepLowersTotal(s, steps[0], generator);
      AtMostThreeWritesEach(Apply(s, steps[0]), steps[1..], generator);
    }
  }

  // ----- A configured version has its config -----

  /** Every configured version has the generated config, unless it was configured before. */
  ghost predicate ConfigsGenerated(before: VersionDb, db: VersionDb, generator: Generator) {
    forall k :: k in db.objects && db.objects[k].status.configuredCond.status == Yes ==>
      (k in before.objects && before.objects[k].status.configuredCond.status == Yes)
      || generator(k) == Success(db.objects[k].status.config)
  }

  /** Writes that leave condition and config of all versions alone. */
  ghost predicate SameConfigs(db: VersionDb, db': VersionDb) {
    forall k :: k in db'.objects ==>
      && k in db.objects
      && db'.objects[k].status.configuredCond == db.objects[k].status.configuredCond
      && db'.objects[k].status.config == db.objects[k].status.config
  }

  lemma ConfigWriteGenerates(before: VersionDb, db: VersionDb, k: ObjKey, copy: Version, up: bool, generator: Generator)
    requires ConfigsGenerated(before, db, generator) && (Accepts(db, k, copy, up) ==> db.objects[k] == copy)
    ensures ConfigsGenerated(before, ConfigureWrite(db, k, copy, generator(k), up), generator)
  {
    ConfiguredStatusMeans(copy.status, generator(k));
  }

  lemma MetaWriteKeepsConfigs(db: VersionDb, k: ObjKey, copy: Version, up: bool)
    ensures SameConfigs(db, Update(db, k, copy, up).db)
  {
  }

  lemma NumberWriteKeepsConfigs(db: VersionDb, k: ObjKey, copy: Version, n: int, up: bool)
    requires Accepts(db, k, copy, up) ==> db.objects[k] == copy
    ensures SameConfigs(db, UpdateStatus(db, k, WithNumber(copy, n), up).db)
  {
  }

  lemma OtherStepsKeepConfigs(s: State, step: Step, generator: Generator)
    requires Enabled(s, step) && WellFormed(s) && ByHandlers(step, generator) && !step.Configure?
    ensures SameConfigs(s.db, Apply(s, step).db)
  {
    match step
    case Label(id, owner, up) =>
      var c := s.calls[id];
      MetaWriteKeepsConfigs(s.db, c.key, c.copy.(meta := LabelAndOwn(c.copy.meta, owner)), up);
    case WriteNumber(id, up) =>
      var c := s.calls[id];
      CopyIsCurrent(s, c.key, c.copy, up);
      NumberWriteKeepsConfigs(s.db, c.key, c.copy, c.phase.n, up);
    case OnChange(key, copy, owner, up) =>
      MetaWriteKeepsConfigs(s.db, key, copy.(meta := LabelAndOwn(copy.meta, owner)), up);
    case _ =>
  }

  lemma StepGenerates(before: VersionDb, s: State, step: Step, generator: Generator)
    requires Enabled(s, step) && WellFormed(s) && ByHandlers(step, generator)
    requires ConfigsGenerated(before, s.db, generator)
    ensures ConfigsGenerated(before, Apply(s, step).db, generator)
  {
    if step.Configure? {
      CopyIsCurrent(s, step.key, step.copy, step.up);
      ConfigWriteGenerates(before, s.db, step.key, step.copy, step.up, generator);
    } else {
      OtherStepsKeepConfigs(s, step, generator);
    }
  }

  /** Over every run of the handlers, a version that becomes configured has exactly the generated config. */
  lemma {:induction false} ConfiguredIsGenerated(before: VersionDb, s: State, steps: seq<Step>, generator: Generator)
    requires WellFormed(s) && Legal(s, steps) && forall step :: step in steps ==> ByHandlers(step, generator)
    requires ConfigsGenerated(before, s.db, generator)
    ensures ConfigsGenerated(before, After(s, steps).db, generator)
    decreases |steps|
  {
    if steps == [] {
    } else {
      assert steps[0] in steps;
      StepKeepsWellFormed(s, steps[0]);
      StepGenerates(before, s, steps[0], generator);
      ConfiguredIsGenerated(before, Apply(s, steps[0]), steps[1..], generator);
    }
  }
}
