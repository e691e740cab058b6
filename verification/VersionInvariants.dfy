/** What every single step of the version protocol keeps. */
module VersionInvariants {
  import opened Wrappers
  import opened ApiStore
  import opened ModelVersions
  import opened VersionProtocol

  /** Copies held anywhere were once stored, and calls work on copies that still needed a number. */
  ghost predicate WellFormed(s: State) {
    && Consistent(s.db, s.seen)
    && (forall id :: id in s.calls ==> (s.calls[id].key, s.calls[id].copy) in s.seen && NeedsNumber(s.calls[id].copy))
  }

  /** The call gets its status write accepted. */
  predicate Grants(s: State, step: Step) {
    && step.WriteNumber?
    && step.id in s.calls
    && s.calls[step.id].phase.Numbered?
    && Accepts(s.db, s.calls[step.id].key, s.calls[step.id].copy, step.up)
  }

  // ----- Neither status writer loses the other's update -----

  /** An object that survives from `db` to `db'` keeps its template, its number and its model config. */
  ghost predicate Settled(v: Version, v': Version) {
    && v'.uid == v.uid
    && v'.meta.templateName == v.meta.templateName
    && (Assigned(v) ==> Assigned(v') && v'.status.version == v.status.version)
    && (Configured(v) ==> Configured(v') && v'.status.config == v.status.config)
  }

  /** `uid` tells a surviving object from one created later under the same name. */
  ghost predicate Frozen(db: VersionDb, db': VersionDb) {
    && db.revision <= db'.revision
    && (forall k :: k in db'.objects && db'.objects[k].uid <= db.revision ==>
          k in db.objects && Settled(db.objects[k], db'.objects[k]))
  }

  datatype Kind = Granting | Removal | Other

  function KindOf(s: State, step: Step): Kind {
    if Grants(s, step) then Granting else if step.UserDelete? then Removal else Other
  }

  /** How one step may change the store: at one key, by a removal or a Settled rewrite. */
  ghost predicate Changed(db: VersionDb, db': VersionDb, k: ObjKey, kind: Kind) {
    || db' == db
    || (kind == Removal && db' == Delete(db, k))
    || (&& k in db'.objects
        && db' == Put(db, k, db'.objects[k])
        && if k in db.objects then Rewritten(db.objects[k], db'.objects[k], kind)
           else Fresh(db'.objects[k], db'.revision))
  }

  ghost predicate Rewritten(v: Version, v': Version, kind: Kind) {
    Settled(v, v') && (kind == Granting || (Assigned(v') <==> Assigned(v)))
  }

  ghost predicate Fresh(v: Version, revision: nat) {
    v.uid == revision && !Assigned(v) && !Configured(v)
  }

  lemma UpdateChanges(db: VersionDb, k: ObjKey, copy: Version, meta: VersionMeta, up: bool)
    requires k in db.objects ==> meta.templateName == copy.meta.templateName
    requires Accepts(db, k, copy, up) ==> db.objects[k] == copy
    ensures Changed(db, Update(db, k, copy.(meta := meta), up).db, k, Other)
  {
  }

  lemma UpdateStatusChanges(db: VersionDb, k: ObjKey, copy: Version, status: VersionStatus, up: bool, kind: Kind)
    requires Rewritten(copy, copy.(status := status), kind)
    requires Accepts(db, k, copy, up) ==> db.objects[k] == copy
    ensures Changed(db, UpdateStatus(db, k, copy.(status := status), up).db, k, kind)
  {
  }

  lemma StepChanges(s: State, step: Step) returns (k: ObjKey)
    requires Enabled(s, step) && WellFormed(s)
    ensures Changed(s.db, Apply(s, step).db, k, KindOf(s, step))
    ensures step.UserDelete? ==> k == step.key
  {
    match step
    case Label(id, owner, up) =>
      var c := s.calls[id];
      k := c.key;
      CopyIsCurrent(s, k, c.copy, up);
      UpdateChanges(s.db, k, c.copy, LabelAndOwn(c.copy.meta, owner), up);
    case WriteNumber(id, up) =>
      var c := s.calls[id];
      k := c.key;
      CopyIsCurrent(s, k, c.copy, up);
      UpdateStatusChanges(s.db, k, c.copy, WithNumber(c.copy, c.phase.n).status, up, Granting);
    case OnChange(key, copy, owner, up) =>
      k := key;
      CopyIsCurrent(s, key, copy, up);
      UpdateChanges(s.db, k, copy, LabelAndOwn(copy.meta, owner), up);
    case Configure(key, copy, generated, up) =>
      k := key;
      CopyIsCurrent(s, key, copy, up);
      if !Configured(copy) {
        UpdateStatusChanges(s.db, k, copy, ConfiguredStatus(copy.status, generated), up, Other);
      }
    case UserEdit(key, meta) =>
      k := key;
      UpdateChanges(s.db, k, s.db.objects[key], meta, true);
    case UserCreate(key, _) =>
      k := key;
    case UserDelete(key) =>
      k := key;
    case _ =>
      k := ObjKey("", "");
  }

  lemma StepFreezes(s: State, step: Step)
    requires Enabled(s, step) && WellFormed(s)
    ensures Frozen(s.db, Apply(s, step).db)
  {
    var k := StepChanges(s, step);
    ChangeFreezes(s.db, Apply(s, step).db, k, KindOf(s, step));
  }

  lemma ChangeFreezes(db: VersionDb, db': VersionDb, k: ObjKey, kind: Kind)
    requires Changed(db, db', k, kind)
    ensures Frozen(db, db')
  {
  }

  lemma CopyIsCurrent(s: State, k: ObjKey, copy: Version, up: bool)
    requires WellFormed(s) && (k, copy) in s.seen
    ensures Accepts(s.db, k, copy, up) ==> s.db.objects[k] == copy
  {
    if Accepts(s.db, k, copy, up) {
      AcceptedCopyIsCurrent(s.db, s.seen, k, copy, up);
    }
  }

  lemma StepKeepsWellFormed(s: State, step: Step)
    requires Enabled(s, step) && WellFormed(s)
    ensures WellFormed(Apply(s, step))
  {
    var k := StepChanges(s, step);
    var s' := Apply(s, step);
    ChangeEvolves(s.db, s'.db, k, KindOf(s, step));
    EvolvesKeepsConsistent(s.db, s.seen, s'.db, k);
    StepObserves(s, step);
    StepKeepsCalls(s, step);
  }

  lemma ChangeEvolves(db: VersionDb, db': VersionDb, k: ObjKey, kind: Kind)
    requires Changed(db, db', k, kind)
    ensures Evolves(db, db', k)
  {
  }

  lemma StepObserves(s: State, step: Step)
    requires Enabled(s, step)
    ensures s.seen <= Apply(s, step).seen
    ensures (Apply(s, step).seen == s.seen && Apply(s, step).db == s.db) ||
            Apply(s, step).seen == Observe(Apply(s, step).db, s.seen)
  {
  }

  lemma StepKeepsCalls(s: State, step: Step)
    requires Enabled(s, step) && WellFormed(s)
    ensures forall id :: id in Apply(s, step).calls ==>
      var c := Apply(s, step).calls[id];
      (c.key, c.copy) in s.seen && NeedsNumber(c.copy)
  {
  }

  // ----- The machine rules nothing out -----

  /** The two other handlers run at any time on every copy a cache may return. */
  lemma HandlersMayRun(s: State, k: ObjKey, copy: Version, owner: Owner, generated: Result<string, string>, up: bool)
    requires (k, copy) in s.seen
    ensures Enabled(s, OnChange(k, copy, owner, up)) && Enabled(s, Configure(k, copy, generated, up))
    ensures Apply(s, OnChange(k, copy, owner, up)) == Stored(s, OnChangeWrite(s.db, k, copy, owner, up))
    ensures Apply(s, Configure(k, copy, generated, up)) == Stored(s, ConfigureWrite(s.db, k, copy, generated, up))
  {
  }

  /** Users create and delete at any time, and edit everything but the template name. */
  lemma UsersMayWrite(s: State, k: ObjKey, meta: VersionMeta)
    ensures Enabled(s, UserCreate(k, meta)) && Enabled(s, UserDelete(k))
    ensures Enabled(s, UserEdit(k, meta)) <==>
      k in s.db.objects && s.db.objects[k].meta.templateName == meta.templateName
    ensures var s' := Apply(s, UserCreate(k, meta));
      k in s'.db.objects && (k !in s.db.objects ==> s'.db.objects[k].meta == meta) && s'.calls == s.calls
    ensures Enabled(s, UserEdit(k, meta)) ==>
      var s' := Apply(s, UserEdit(k, meta));
      k in s'.db.objects && s'.db.objects[k].meta == meta && s'.calls == s.calls
    ensures k !in Apply(s, UserDelete(k)).db.objects && Apply(s, UserDelete(k)).calls == s.calls
  {
  }

  /** A crash loses calls and counters at any time; what is stored and what caches may return stays. */
  lemma CrashMayHappen(s: State, list: seq<Item>)
    requires forall p :: p in list <==> p.0 in s.db.objects && s.db.objects[p.0] == p.1
    ensures Enabled(s, Restart(list))
    ensures var s' := Apply(s, Restart(list));
      && s'.calls == map[] && s'.counters == Scan(list)
      && s'.db == s.db && s'.seen == s.seen && s'.removed == s.removed && s'.log == s.log
  {
  }

  /** A template may be removed at any time, which drops its counter. */
  lemma TemplateMayGo(s: State, ref: string)
    ensures Enabled(s, RemoveTemplate(ref))
    ensures var s' := Apply(s, RemoveTemplate(ref));
      && s'.removed == s.removed + {ref} && s'.calls == s.calls && s'.db == s.db
      && Counter(s'.counters, ref) == 0
      && forall other :: other != ref ==> Counter(s'.counters, other) == Counter(s.counters, other)
  {
  }

  // ----- The numbers of one template -----

  /** The number of every live assigned version of template `ref`. */
  function Numbers(db: VersionDb, ref: string): map<ObjKey, int> {
    map k | k in db.objects && Counts((k, db.objects[k]), ref) :: db.objects[k].status.version
  }

  ghost predicate Within(m: map<ObjKey, int>, m': map<ObjKey, int>) {
    forall k :: k in m ==> k in m' && m'[k] == m[k]
  }

  predicate Deletes(s: State, step: Step, ref: string) {
    step.UserDelete? && step.key in s.db.objects && TemplateRef(step.key, s.db.objects[step.key]) == ref
  }

  /** Only an accepted status write adds a number, only a deletion takes one away. */
  lemma StepNumbers(s: State, step: Step, ref: string)
    requires Enabled(s, step) && WellFormed(s)
    ensures Grants(s, step) && s.calls[step.id].Ref() == ref ==>
      var c := s.calls[step.id];
      c.key !in Numbers(s.db, ref) && Numbers(Apply(s, step).db, ref) == Numbers(s.db, ref)[c.key := c.phase.n]
    ensures !(Grants(s, step) && s.calls[step.id].Ref() == ref) ==>
      Within(Numbers(Apply(s, step).db, ref), Numbers(s.db, ref))
    ensures !Deletes(s, step, ref) ==> Within(Numbers(s.db, ref), Numbers(Apply(s, step).db, ref))
  {
    if Grants(s, step) {
      var c := s.calls[step.id];
      CopyIsCurrent(s, c.key, c.copy, step.up);
      GrantNumbers(s.db, c.key, c.copy, c.phase.n, step.up, ref);
    } else {
      var k := StepChanges(s, step);
      ChangeNumbers(s.db, Apply(s, step).db, k, KindOf(s, step), ref);
    }
  }

  lemma GrantNumbers(db: VersionDb, k: ObjKey, copy: Version, n: int, up: bool, ref: string)
    requires Accepts(db, k, copy, up) && db.objects[k] == copy && NeedsNumber(copy)
    ensures var db' := UpdateStatus(db, k, WithNumber(copy, n), up).db;
      k !in Numbers(db, ref) &&
      Numbers(db', ref) == if TemplateRef(k, copy) == ref then Numbers(db, ref)[k := n] else Numbers(db, ref)
  {
  }

  lemma ChangeNumbers(db: VersionDb, db': VersionDb, k: ObjKey, kind: Kind, ref: string)
    requires Changed(db, db', k, kind) && kind != Granting
    ensures Within(Numbers(db', ref), Numbers(db, ref))
    ensures kind != Removal || k !in Numbers(db, ref) ==> Within(Numbers(db, ref), Numbers(db', ref))
  {
  }

  // ----- Calls between status write and increment -----

  ghost function Pending(s: State, ref: string): set<nat> {
    set id | id in s.calls && s.calls[id].Ref() == ref && s.calls[id].phase.Written?
  }

  predicate Resets(step: Step, ref: string) {
    step.Restart? || (step.RemoveTemplate? && step.ref == ref)
  }

  predicate Increments(s: State, step: Step, ref: string) {
    step.Increment? && step.id in s.calls && s.calls[step.id].Ref() == ref
  }

  lemma StepPending(s: State, step: Step, ref: string)
    requires Enabled(s, step) && !Resets(step, ref)
    ensures var s' := Apply(s, step);
      if Grants(s, step) && s.calls[step.id].Ref() == ref then
        step.id !in Pending(s, ref) && Pending(s', ref) == Pending(s, ref) + {step.id} &&
        Counter(s'.counters, ref) == Counter(s.counters, ref)
      else if Increments(s, step, ref) then
        step.id in Pending(s, ref) && Pending(s', ref) == Pending(s, ref) - {step.id} &&
        Counter(s'.counters, ref) == Counter(s.counters, ref) + 1
      else
        Pending(s', ref) == Pending(s, ref) && Counter(s'.counters, ref) == Counter(s.counters, ref)
  {
  }
}
