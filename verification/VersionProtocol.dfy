/**
 Everything that touches ModelTemplateVersions, as one state machine.

 `AssignVersion` calls are split at every point where another actor can get in
 between: reading a cached copy, the metadata write, reading the counter, the status
 write, and the increment under the mutex. In between run the other two writers on
 stale copies, users, template removal, and a crash with restart.
 */
module VersionProtocol {
  import opened Wrappers
  import opened ApiStore
  import opened ModelVersions

  datatype Phase = Started | Labelled | Numbered(n: int) | Written(n: int)

  /** An AssignVersion call in flight, with the copy it was given. */
  datatype Call = Call(key: ObjKey, copy: Version, phase: Phase) {
    function Ref(): string { TemplateRef(key, copy) }
  }

  /** A successful assignment. */
  datatype Grant = Grant(ref: string, key: ObjKey, number: int)

  datatype State = State(
    db: VersionDb,
    seen: set<Item>,              // everything a cache may still return
    counters: map<string, int>,   // latestVersionMap
    calls: map<nat, Call>,
    removed: set<string>,         // templates whose counter DeleteLatestVersion dropped
    log: seq<Grant>)

  datatype Step =
    | Begin(id: nat, key: ObjKey, copy: Version)
    | Label(id: nat, owner: Owner, up: bool)
    | ReadCounter(id: nat)
    | WriteNumber(id: nat, up: bool)
    | Increment(id: nat)
    | OnChange(key: ObjKey, copy: Version, owner: Owner, up: bool)
    | Configure(key: ObjKey, copy: Version, generated: Result<string, string>, up: bool)
    | UserCreate(key: ObjKey, meta: VersionMeta)
    | UserEdit(key: ObjKey, meta: VersionMeta)
    | UserDelete(key: ObjKey)
    | RemoveTemplate(ref: string)
    | Restart(list: seq<Item>)

  ghost predicate Enabled(s: State, step: Step) {
    match step
    case Begin(id, key, copy) => id !in s.calls && (key, copy) in s.seen && NeedsNumber(copy)
    case Label(id, _, _) => id in s.calls && s.calls[id].phase.Started?
    case ReadCounter(id) => id in s.calls && s.calls[id].phase.Labelled?
    case WriteNumber(id, _) => id in s.calls && s.calls[id].phase.Numbered?
    case Increment(id) => id in s.calls && s.calls[id].phase.Written?
    case OnChange(key, copy, _, _) => (key, copy) in s.seen
    case Configure(key, copy, _, _) => (key, copy) in s.seen
    case UserEdit(key, meta) => key in s.db.objects && meta.templateName == s.db.objects[key].meta.templateName
    case Restart(list) => forall p :: p in list <==> p.0 in s.db.objects && s.db.objects[p.0] == p.1
    case _ => true
  }

  function Stored(s: State, db': VersionDb): State {
    s.(db := db', seen := Observe(db', s.seen))
  }

  function Advanced(s: State, id: nat, phase: Phase): State
    requires id in s.calls
  {
    s.(calls := s.calls[id := s.calls[id].(phase := phase)])
  }

  function Ended(s: State, id: nat): State {
    s.(calls := s.calls - {id})
  }

  function Apply(s: State, step: Step): State
    requires Enabled(s, step)
  {
    match step
    case Begin(id, key, copy) =>
      s.(calls := s.calls[id := Call(key, copy, Started)])
    case Label(id, owner, up) =>
      var c := s.calls[id];
      var reply := Update(s.db, c.key, c.copy.(meta := LabelAndOwn(c.copy.meta, owner)), up);
      if reply.result.Success? then Advanced(Stored(s, reply.db), id, Labelled) else Ended(s, id)
    case ReadCounter(id) =>
      Advanced(s, id, Numbered(Counter(s.counters, s.calls[id].Ref()) + 1))
    case WriteNumber(id, up) =>
      var c := s.calls[id];
      var reply := UpdateStatus(s.db, c.key, WithNumber(c.copy, c.phase.n), up);
      if reply.result.Success? then
        Advanced(Stored(s, reply.db), id, Written(c.phase.n)).(log := s.log + [Grant(c.Ref(), c.key, c.phase.n)])
      else
        Ended(s, id)
    case Increment(id) =>
      var ref := s.calls[id].Ref();
      Ended(s, id).(counters := s.counters[ref := Counter(s.counters, ref) + 1])
    case OnChange(key, copy, owner, up) =>
      Stored(s, OnChangeWrite(s.db, key, copy, owner, up))
    case Configure(key, copy, generated, up) =>
      Stored(s, ConfigureWrite(s.db, key, copy, generated, up))
    case UserCreate(key, meta) =>
      Stored(s, Create(s.db, key, meta, NEW_STATUS, true).db)
    case UserEdit(key, meta) =>
      Stored(s, Update(s.db, key, s.db.objects[key].(meta := meta), true).db)
    case UserDelete(key) =>
      Stored(s, Delete(s.db, key))
    case RemoveTemplate(ref) =>
      s.(counters := s.counters - {ref}, removed := s.removed + {ref})
    case Restart(list) =>
      s.(counters := Scan(list), calls := map[])
  }

  ghost predicate Legal(s: State, steps: seq<Step>)
    decreases |steps|
  {
    steps == [] || (Enabled(s, steps[0]) && Legal(Apply(s, steps[0]), steps[1..]))
  }

  ghost function After(s: State, steps: seq<Step>): State
    requires Legal(s, steps)
    decreases |steps|
  {
    if steps == [] then s else After(Apply(s, steps[0]), steps[1..])
  }
}
