/** Default version and latest version of a ModelTemplate: what repeated reconciles converge to. */
module TemplateReconcile {
  import opened Wrappers
  import opened ApiStore
  import opened Conditions
  import opened ModelVersions
  import opened CreationOrder
  import Refs

  datatype TemplateMeta = TemplateMeta(defaultVersionId: string, deleting: bool)

  datatype TemplateStatus = TemplateStatus(defaultAssigned: Condition, defaultVersion: int, latestVersion: int)

  type Template = Object<TemplateMeta, TemplateStatus>
  type TemplateDb = Db<TemplateMeta, TemplateStatus>

  datatype HandlerError = Api(e: ApiError) | NotAssignedYet | TemplateMissing

  datatype TemplateReply = TemplateReply(db: TemplateDb, err: Option<HandlerError>)

  /** What the handlers read besides the template: the version cache, its first assigned version, the counter. */
  datatype View = View(versions: map<ObjKey, Version>, first: Option<Item>, counter: int)

  function ErrOf<T>(r: Result<T, ApiError>): Option<HandlerError> {
    match r
    case Success(_) => None
    case Failure(e) => Some(Api(e))
  }

  function NotFoundMessage(k: ObjKey): string {
    "modeltemplateversions.ml.oneblock.ai \"" + k.name + "\" not found"
  }

  function DefaultKey(t: Template): ObjKey {
    var (ns, name) := Refs.Parse(t.meta.defaultVersionId);
    ObjKey(ns, name)
  }

  function WriteMeta(db: TemplateDb, k: ObjKey, t: Template, meta: TemplateMeta, up: bool): TemplateReply {
    var reply := Update(db, k, t.(meta := meta), up);
    TemplateReply(reply.db, ErrOf(reply.result))
  }

  function WriteStatus(db: TemplateDb, k: ObjKey, t: Template, status: TemplateStatus, up: bool): TemplateReply {
    var reply := UpdateStatus(db, k, t.(status := status), up);
    TemplateReply(reply.db, ErrOf(reply.result))
  }

  /**
   SetDefaultVersion on a (possibly stale) copy `t`. When the missing version is recorded
   successfully the error is swallowed, because the status write overwrites it.
   */
  function SetDefault(db: TemplateDb, k: ObjKey, t: Template, view: View, up: bool): TemplateReply {
    if t.meta.deleting then
      TemplateReply(db, None)
    else if t.meta.defaultVersionId == "" then
      match view.first
      case None => TemplateReply(db, None)
      case Some((vk, v)) =>
        if v.status.assignedCond.status == No then
          TemplateReply(db, Some(NotAssignedYet))
        else
          WriteMeta(db, k, t, t.meta.(defaultVersionId := Refs.NewRef(vk.ns, vk.name)), up)
    else
      var vk := DefaultKey(t);
      if vk !in view.versions then
        var missing := SetError(Some(NotFoundMessage(vk)));
        if t.status.defaultAssigned == missing then
          TemplateReply(db, Some(Api(NotFound)))
        else
          WriteStatus(db, k, t, t.status.(defaultAssigned := missing), up)
      else
        var v := view.versions[vk];
        if v.status.assignedCond.status == No then
          TemplateReply(db, Some(NotAssignedYet))
        else if t.status.defaultVersion == v.status.version && t.status.defaultAssigned.status == Yes then
          TemplateReply(db, None)
        else
          WriteStatus(db, k, t, t.status.(defaultVersion := v.status.version, defaultAssigned := SetError(None)), up)
  }

  /** SyncLatestVersion on a (possibly stale) copy `t`. */
  function SyncLatest(db: TemplateDb, k: ObjKey, t: Template, view: View, up: bool): TemplateReply {
    if t.meta.deleting || t.status.latestVersion == view.counter then
      TemplateReply(db, None)
    else
      WriteStatus(db, k, t, t.status.(latestVersion := view.counter), up)
  }

  // ----- Fixpoint -----

  /** The default version is what the default reference stands for, or the failure to find it is on record. */
  predicate DefaultSettled(t: Template, view: View) {
    t.meta.defaultVersionId != "" &&
    var vk := DefaultKey(t);
    if vk !in view.versions then
      t.status.defaultAssigned == SetError(Some(NotFoundMessage(vk)))
    else
      view.versions[vk].status.assignedCond.status == No ||
      (t.status.defaultVersion == view.versions[vk].status.version && t.status.defaultAssigned.status == Yes)
  }

  predicate WaitsForFirstVersion(t: Template, view: View) {
    t.meta.defaultVersionId == "" && view.first == None
  }

  predicate InSync(t: Template, view: View) {
    t.meta.deleting ||
    (t.status.latestVersion == view.counter && (DefaultSettled(t, view) || WaitsForFirstVersion(t, view)))
  }

  /** How `view.first` comes about: an assigned version with a proper key. */
  predicate ValidView(view: View) {
    view.first.Some? ==>
      var (vk, v) := view.first.value;
      Assigned(v) && Refs.NewRef(vk.ns, vk.name) != ""
  }

  /** Neither handler writes any more exactly when the template is in sync. */
  lemma QuietIffInSync(db: TemplateDb, k: ObjKey, view: View)
    requires k in db.objects && ValidView(view)
    ensures
      && SetDefault(db, k, db.objects[k], view, true).db == db
      && SyncLatest(db, k, db.objects[k], view, true).db == db
      <==> InSync(db.objects[k], view)
  {
    var t := db.objects[k];
    var r1, r2 := SetDefault(db, k, t, view, true), SyncLatest(db, k, t, view, true);
    assert r1.db != db ==> r1.db.revision != db.revision;
    assert r2.db != db ==> r2.db.revision != db.revision;
  }

  /** The condition of a missing default version. */
  predicate MissingOnRecord(t: Template, vk: ObjKey) {
    && t.status.defaultAssigned.status == No
    && t.status.defaultAssigned.message == "modeltemplateversions.ml.oneblock.ai \"" + vk.name + "\" not found"
    && t.status.defaultAssigned.reason == "Error"
  }

  /**
   When a template with a default reference reconciles on the current copy, and the server is up:
   a missing version is an error only once it is on record, since recording it replaces the error; a
   version without number is one; otherwise number and condition are those of the version.
   */
  lemma SetDefaultReports(db: TemplateDb, k: ObjKey, view: View)
    requires k in db.objects && !db.objects[k].meta.deleting && db.objects[k].meta.defaultVersionId != ""
    ensures var t, r := db.objects[k], SetDefault(db, k, db.objects[k], view, true);
      var vk := DefaultKey(t);
      && k in r.db.objects
      && var t' := r.db.objects[k];
      if vk !in view.versions then
        && MissingOnRecord(t', vk) && t'.status.defaultVersion == t.status.defaultVersion
        && r.err == if MissingOnRecord(t, vk) then Some(Api(NotFound)) else None
      else if view.versions[vk].status.assignedCond.status == No then
        r == TemplateReply(db, Some(NotAssignedYet))
      else
        && r.err == None && t'.status.defaultVersion == view.versions[vk].status.version
        && t'.status.defaultAssigned.status == Yes
  {
  }

  /** Without a reference: the first version is taken over, an assigned one without error. */
  lemma SetDefaultChooses(db: TemplateDb, k: ObjKey, view: View)
    requires k in db.objects && !db.objects[k].meta.deleting && db.objects[k].meta.defaultVersionId == ""
    ensures var t, r := db.objects[k], SetDefault(db, k, db.objects[k], view, true);
      match view.first
      case None => r == TemplateReply(db, None)
      case Some((vk, v)) =>
        if v.status.assignedCond.status == No then r == TemplateReply(db, Some(NotAssignedYet))
        else
          && r.err == None && k in r.db.objects
          && r.db.objects[k].meta.defaultVersionId == (if vk.ns == "" then vk.name else vk.ns + "/" + vk.name)
          && r.db.objects[k].status == t.status && r.db.objects[k].meta.deleting == t.meta.deleting
  {
  }

  /** A write that does not get through is reported with its reason, whichever handler makes it. */
  lemma FailuresAreReported(db: TemplateDb, k: ObjKey, t: Template, view: View)
    ensures SetDefault(db, k, t, view, false).db == db && SyncLatest(db, k, t, view, false).db == db
    ensures SetDefault(db, k, t, view, true).db != db ==>
      SetDefault(db, k, t, view, false).err == Some(Api(Unavailable))
    ensures SyncLatest(db, k, t, view, true).db != db ==>
      SyncLatest(db, k, t, view, false).err == Some(Api(Unavailable))
    ensures k in db.objects && db.objects[k].rv == t.rv ==> SyncLatest(db, k, t, view, true).err == None
    ensures k in db.objects && db.objects[k].rv != t.rv ==> SyncLatest(db, k, t, view, true).db == db
    ensures
      k in db.objects && db.objects[k].rv != t.rv && !t.meta.deleting && t.status.latestVersion != view.counter ==>
        SyncLatest(db, k, t, view, true).err == Some(Api(Conflict))
  {
  }

  /** One reconcile: both handlers, the second on what the first left. */
  function Round(db: TemplateDb, k: ObjKey, view: View): (r: TemplateDb)
    requires k in db.objects
    ensures k in r.objects
  {
    var db1 := SetDefault(db, k, db.objects[k], view, true).db;
    SyncLatest(db1, k, db1.objects[k], view, true).db
  }

  lemma TwoRoundsReachSync(db: TemplateDb, k: ObjKey, view: View)
    requires k in db.objects && ValidView(view)
    ensures InSync(Round(Round(db, k, view), k, view).objects[k], view)
    ensures Round(Round(Round(db, k, view), k, view), k, view) == Round(Round(db, k, view), k, view)
  {
    var db1 := Round(db, k, view);
    FirstRound(db, k, view);
    SecondRound(db1, k, view);
    QuietIffInSync(Round(db1, k, view), k, view);
  }

  lemma FirstRound(db: TemplateDb, k: ObjKey, view: View)
    requires k in db.objects && ValidView(view)
    ensures var t := Round(db, k, view).objects[k];
      t.meta.deleting ||
      (t.status.latestVersion == view.counter && (t.meta.defaultVersionId != "" || WaitsForFirstVersion(t, view)))
  {
  }

  lemma SecondRound(db: TemplateDb, k: ObjKey, view: View)
    requires k in db.objects && ValidView(view)
    requires var t := db.objects[k];
      t.meta.deleting ||
      (t.status.latestVersion == view.counter && (t.meta.defaultVersionId != "" || WaitsForFirstVersion(t, view)))
    ensures InSync(Round(db, k, view).objects[k], view)
  {
    SetDefaultSettles(db, k, view);
    var db1 := SetDefault(db, k, db.objects[k], view, true).db;
    assert SyncLatest(db1, k, db1.objects[k], view, true).db == db1;
  }

  lemma SetDefaultSettles(db: TemplateDb, k: ObjKey, view: View)
    requires k in db.objects
    ensures var t, t' := db.objects[k], SetDefault(db, k, db.objects[k], view, true).db.objects[k];
      && t'.meta.deleting == t.meta.deleting && t'.status.latestVersion == t.status.latestVersion
      && (WaitsForFirstVersion(t, view) ==> t' == t)
      && (!t.meta.deleting && t.meta.defaultVersionId != "" ==> DefaultSettled(t', view))
  {
  }

  // ----- From an unset default to the first version -----

  /** The view of a controller whose cache holds the versions in `list`; names in a cluster contain no slash. */
  ghost predicate ViewOf(view: View, list: seq<Item>) {
    && view.first == FirstAssigned(list)
    && forall x :: x in list ==>
         x.0 in view.versions && view.versions[x.0] == x.1 && Refs.Splittable(x.0.ns, x.0.name) && x.0.name != ""
  }

  /**
   A template without default ends, after two reconciles, with a least assigned version as its
   default: reference, number and condition. Without an assigned version it stays without.
   */
  lemma TwoRoundsChooseFirst(db: TemplateDb, k: ObjKey, view: View, list: seq<Item>)
    requires k in db.objects && ViewOf(view, list)
    requires !db.objects[k].meta.deleting && db.objects[k].meta.defaultVersionId == ""
    ensures IsFirstAssigned(list, view.first)
    ensures var t := Round(Round(db, k, view), k, view).objects[k];
      match view.first
      case None => t.meta.defaultVersionId == "" && t.status.defaultVersion == db.objects[k].status.defaultVersion
      case Some((vk, v)) =>
        && t.meta.defaultVersionId == Refs.NewRef(vk.ns, vk.name)
        && DefaultKey(t) == vk
        && t.status.defaultVersion == v.status.version
        && t.status.defaultAssigned.status == Yes
  {
    FirstAssignedIsLeast(list);
    if view.first.Some? {
      var (vk, v) := view.first.value;
      assert (vk, v) in list;
      Refs.ParseUndoesNewRef(vk.ns, vk.name);
      RoundChooses(db, k, view, vk);
      RoundSettles(Round(db, k, view), k, view, vk);
    }
  }

  lemma RoundChooses(db: TemplateDb, k: ObjKey, view: View, vk: ObjKey)
    requires k in db.objects && view.first.Some? && view.first.value.0 == vk && Assigned(view.first.value.1)
    requires !db.objects[k].meta.deleting && db.objects[k].meta.defaultVersionId == "" && vk.name != ""
    ensures var t := Round(db, k, view).objects[k];
      !t.meta.deleting && t.meta.defaultVersionId == Refs.NewRef(vk.ns, vk.name) != ""
  {
  }

  lemma RoundSettles(db: TemplateDb, k: ObjKey, view: View, vk: ObjKey)
    requires k in db.objects && vk in view.versions && Assigned(view.versions[vk])
    requires var t := db.objects[k]; !t.meta.deleting && t.meta.defaultVersionId != "" && DefaultKey(t) == vk
    ensures var t := Round(db, k, view).objects[k];
      && t.meta == db.objects[k].meta
      && t.status.defaultVersion == view.versions[vk].status.version && t.status.defaultAssigned.status == Yes
  {
  }

  // ----- At most three writes, whatever fails in between -----

  datatype Attempt = SetDefaultOn(t: Template, up: bool) | SyncLatestOn(t: Template, up: bool)

  function Try(db: TemplateDb, k: ObjKey, view: View, a: Attempt): TemplateDb {
    match a
    case SetDefaultOn(t, up) => SetDefault(db, k, t, view, up).db
    case SyncLatestOn(t, up) => SyncLatest(db, k, t, view, up).db
  }

  /** A copy with the current resource version is the current object. */
  ghost predicate Honest(db: TemplateDb, k: ObjKey, t: Template) {
    k in db.objects && (db.objects[k].rv == t.rv ==> db.objects[k] == t)
  }

  ghost predicate HonestRun(db: TemplateDb, k: ObjKey, view: View, attempts: seq<Attempt>)
    decreases |attempts|
  {
    attempts == [] || (Honest(db, k, attempts[0].t) && HonestRun(Try(db, k, view, attempts[0]), k, view, attempts[1..]))
  }

  function TryAll(db: TemplateDb, k: ObjKey, view: View, attempts: seq<Attempt>): TemplateDb
    decreases |attempts|
  {
    if attempts == [] then db else TryAll(Try(db, k, view, attempts[0]), k, view, attempts[1..])
  }

  /** Unset default, unsettled default status, stale latest number: what is still to be written. */
  function Work(t: Template, view: View): nat {
    (if t.meta.defaultVersionId == "" then 1 else 0) +
    (if DefaultSettled(t, view) then 0 else 1) +
    (if t.status.latestVersion == view.counter then 0 else 1)
  }

  lemma TryDecreasesWork(db: TemplateDb, k: ObjKey, view: View, a: Attempt)
    requires Honest(db, k, a.t) && ValidView(view)
    ensures var db' := Try(db, k, view, a);
      k in db'.objects &&
      (db' == db || (db'.revision == db.revision + 1 && Work(db'.objects[k], view) < Work(db.objects[k], view)))
  {
  }

  /** Effective writes are counted by the revision: at most three over any run of attempts. */
  lemma {:induction false} AtMostThreeWrites(db: TemplateDb, k: ObjKey, view: View, attempts: seq<Attempt>)
    requires k in db.objects && ValidView(view) && HonestRun(db, k, view, attempts)
    ensures db.revision <= TryAll(db, k, view, attempts).revision <= db.revision + Work(db.objects[k], view)
    ensures Work(db.objects[k], view) <= 3
    decreases |attempts|
  {
    if attempts == [] {
    } else {
      TryDecreasesWork(db, k, view, attempts[0]);
      AtMostThreeWrites(Try(db, k, view, attempts[0]), k, view, attempts[1..]);
    }
  }
}
